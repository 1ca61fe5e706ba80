/** The signer: the string-to-sign of the Solis Cloud API and the
    `Authorization: API appId:signature` header computed over it
    (`GenerateAuthorizationHeaderAsync`). */
module Signer {
  import opened Wrappers
  import opened Platform
  import opened Settings
  import Text
  import Base64

  /** The content type written into every string-to-sign. */
  const JsonMediaType: string := "application/json"

  /** The authentication scheme of the header. */
  const Scheme: string := "API"

  /** The five request facts the signature covers, already rendered as text. */
  datatype SigningContext = SigningContext(
    httpMethod: string,
    contentMd5: string,
    contentType: string,
    date: string,
    pathAndQuery: string)
  {
    function Fields(): seq<string>
    {
      [httpMethod, contentMd5, contentType, date, pathAndQuery]
    }

    predicate NewlineFree()
    {
      forall i :: 0 <= i < |Fields()| ==> '\n' !in Fields()[i]
    }
  }

  /** An `AuthenticationHeaderValue`: scheme and parameter. */
  datatype AuthHeader = AuthHeader(scheme: string, parameter: string)

  /** The five fields, each followed by a line feed except the last. */
  function StringToSign(c: SigningContext): (s: string)
    ensures s == Text.Join(c.Fields(), '\n')
  {
    var f := c.Fields();
    assert f[3..][1..] == f[4..] == [c.pathAndQuery];
    var j3 := Text.Join(f[3..], '\n');
    assert j3 == c.date + "\n" + c.pathAndQuery;
    assert f[2..][1..] == f[3..];
    var j2 := Text.Join(f[2..], '\n');
    assert j2 == c.contentType + "\n" + j3;
    assert f[1..][1..] == f[2..];
    var j1 := Text.Join(f[1..], '\n');
    assert j1 == c.contentMd5 + "\n" + j2;
    assert Text.Join(f, '\n') == c.httpMethod + "\n" + j1;
    c.httpMethod + "\n" + c.contentMd5 + "\n" + c.contentType + "\n" + c.date + "\n" + c.pathAndQuery
  }

  /** The context the signer builds from its arguments: the digest in
      Base 64, the date in "R" format, and the content type fixed to
      application/json whatever the request declares. */
  function SignedContext(httpMethod: string, contentMd5: seq<byte>, date: Timestamp, requestPath: string, p: Primitives)
    : (c: SigningContext)
    ensures c.contentType == JsonMediaType
    ensures c.httpMethod == httpMethod && c.date == p.formatR(date) && c.pathAndQuery == requestPath
    ensures Base64.Decode(c.contentMd5) == Some(contentMd5)
  {
    Base64.RoundTrip(contentMd5);
    SigningContext(httpMethod, Base64.Encode(contentMd5), JsonMediaType, p.formatR(date), requestPath)
  }

  /** Base 64 of the HMAC-SHA1 of the UTF-8 string-to-sign, keyed with the
      UTF-8 secret. */
  function Signature(secret: string, c: SigningContext, p: Primitives): (sig: string)
    ensures |sig| == 28
    ensures Base64.Decode(sig) == Some(p.hmacSha1(p.utf8(secret), p.utf8(StringToSign(c))))
  {
    var mac := p.hmacSha1(p.utf8(secret), p.utf8(StringToSign(c)));
    Base64.RoundTrip(mac);
    Base64.Encode(mac)
  }

  /** The header for a context once the credentials are known. */
  function Authorization(appId: string, secret: string, c: SigningContext, p: Primitives): (h: AuthHeader)
    ensures h.scheme == Scheme
    ensures |h.parameter| > |appId| && h.parameter[..|appId|] == appId && h.parameter[|appId|] == ':'
    ensures Base64.Decode(h.parameter[|appId| + 1..])
         == Some(p.hmacSha1(p.utf8(secret), p.utf8(StringToSign(c))))
  {
    var sig := Signature(secret, c, p);
    assert (appId + ":" + sig)[|appId| + 1..] == sig;
    AuthHeader(Scheme, appId + ":" + sig)
  }

  /** `GenerateAuthorizationHeaderAsync`: AppId is checked before
      AppSecret, and a missing digest fails only once both are present. */
  function GenerateAuthorizationHeader(
    cfg: Config, p: Primitives,
    httpMethod: string, contentMd5: Option<seq<byte>>, date: Timestamp, requestPath: string)
    : (r: Result<AuthHeader, Error>)
    ensures r.Failure? <==>
      IsNullOrEmpty(cfg.appId) || IsNullOrEmpty(cfg.appSecret) || contentMd5.None?
    ensures IsNullOrEmpty(cfg.appId) ==> r == Failure(MissingAppId)
    ensures !IsNullOrEmpty(cfg.appId) && IsNullOrEmpty(cfg.appSecret) ==> r == Failure(MissingAppSecret)
    ensures !IsNullOrEmpty(cfg.appId) && !IsNullOrEmpty(cfg.appSecret) && contentMd5.None?
      ==> r == Failure(NullContentMd5)
    ensures r.Success? ==> r.value.scheme == Scheme
  {
    if IsNullOrEmpty(cfg.appId) then Failure(MissingAppId)
    else if IsNullOrEmpty(cfg.appSecret) then Failure(MissingAppSecret)
    else if contentMd5.None? then Failure(NullContentMd5)
    else
      var c := SignedContext(httpMethod, contentMd5.value, date, requestPath, p);
      Success(Authorization(cfg.appId.value, cfg.appSecret.value, c, p))
  }

  /** When no field holds a line feed, splitting the string-to-sign at line
      feeds gives back exactly the five fields, in order. */
  lemma StringToSignFields(c: SigningContext)
    requires c.NewlineFree()
    ensures Text.Split(StringToSign(c), '\n') == c.Fields()
  {
    Text.SplitJoin(c.Fields(), '\n');
  }

  /** The context the signer builds is free of line feeds whenever the
      httpMethod, the formatted date and the path are. */
  lemma SignedContextNewlineFree(httpMethod: string, contentMd5: seq<byte>, date: Timestamp, requestPath: string, p: Primitives)
    requires '\n' !in httpMethod && '\n' !in p.formatR(date) && '\n' !in requestPath
    ensures SignedContext(httpMethod, contentMd5, date, requestPath, p).NewlineFree()
  {
    Base64.NoSeparators(contentMd5);
  }

  /** The string-to-sign determines the httpMethod, the digest, the formatted
      date and the path: changing any of them changes the signed text. */
  lemma SignedStringDeterminesInputs(
    httpMethod1: string, md5a: seq<byte>, date1: Timestamp, path1: string,
    httpMethod2: string, md5b: seq<byte>, date2: Timestamp, path2: string, p: Primitives)
    requires '\n' !in httpMethod1 && '\n' !in p.formatR(date1) && '\n' !in path1
    requires '\n' !in httpMethod2 && '\n' !in p.formatR(date2) && '\n' !in path2
    ensures StringToSign(SignedContext(httpMethod1, md5a, date1, path1, p))
         == StringToSign(SignedContext(httpMethod2, md5b, date2, path2, p))
      ==> httpMethod1 == httpMethod2 && md5a == md5b && p.formatR(date1) == p.formatR(date2) && path1 == path2
  {
    var c1 := SignedContext(httpMethod1, md5a, date1, path1, p);
    var c2 := SignedContext(httpMethod2, md5b, date2, path2, p);
    SignedContextNewlineFree(httpMethod1, md5a, date1, path1, p);
    SignedContextNewlineFree(httpMethod2, md5b, date2, path2, p);
    StringToSignFields(c1);
    StringToSignFields(c2);
    if StringToSign(c1) == StringToSign(c2) {
      assert c1.Fields() == c2.Fields();
      assert c1.contentMd5 == c2.contentMd5 by {
        assert c1.Fields()[1] == c2.Fields()[1];
      }
    }
  }

  /** A header the signer produces splits at its first colon into the
      configured AppId and a Base 64 text that decodes to the HMAC-SHA1 of
      the string-to-sign; this needs an AppId without a colon. */
  lemma AuthorizationParts(
    cfg: Config, p: Primitives,
    httpMethod: string, contentMd5: Option<seq<byte>>, date: Timestamp, requestPath: string)
    requires GenerateAuthorizationHeader(cfg, p, httpMethod, contentMd5, date, requestPath).Success?
    requires ':' !in cfg.appId.value
    ensures var h := GenerateAuthorizationHeader(cfg, p, httpMethod, contentMd5, date, requestPath).value;
      var parts := Text.Split(h.parameter, ':');
      var c := SignedContext(httpMethod, contentMd5.value, date, requestPath, p);
      h.scheme == Scheme &&
      |parts| == 2 && parts[0] == cfg.appId.value &&
      Base64.Decode(parts[1]) == Some(p.hmacSha1(p.utf8(cfg.appSecret.value), p.utf8(StringToSign(c))))
  {
    var c := SignedContext(httpMethod, contentMd5.value, date, requestPath, p);
    var sig := p.hmacSha1(p.utf8(cfg.appSecret.value), p.utf8(StringToSign(c)));
    Base64.NoSeparators(sig);
    Text.SplitJoin([cfg.appId.value, Signature(cfg.appSecret.value, c, p)], ':');
  }
}
