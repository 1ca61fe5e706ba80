/** The forwarder (`SolisCloudProxyService.ProxyRequestAsync` and the
    helpers it calls): resolve the upstream URI, buffer the inbound body,
    digest it, sign, and hand the signed POST to the HTTP client. */
module Forwarder {
  import opened Wrappers
  import opened Platform
  import opened Settings
  import opened Signer
  import opened Streams
  import Base64

  /** Every upstream call is a POST, whatever the inbound method. */
  const UpstreamMethod: string := "POST"

  /** What the proxy reads from the inbound `HttpRequest` besides its body. */
  datatype InboundRequest = InboundRequest(
    httpMethod: string,
    path: string,
    queryString: string,
    contentType: Option<string>)

  /** The request as `HttpClient.PostAsync` receives it: the default
      headers of the client, and the content with its own headers. */
  datatype OutboundRequest = OutboundRequest(
    httpMethod: string,
    uri: Uri,
    date: Timestamp,
    authorization: AuthHeader,
    contentType: Option<string>,
    contentMd5: Option<seq<byte>>,
    body: seq<byte>)

  /** The content type of the outbound body: the inbound one when the
      request declares one, application/json otherwise. */
  function OutboundContentType(inbound: Option<string>): (r: string)
    ensures inbound.Some? ==> r == inbound.value
    ensures inbound.None? ==> r == JsonMediaType
  {
    if inbound.Some? then inbound.value else JsonMediaType
  }

  /** The base-URL guard and the `UriBuilder` of `ProxyRequestAsync`: the
      configured base URL with its path replaced by the inbound path. The
      inbound query string is not copied; the query of the base URL stays. */
  function ResolveTarget(cfg: Config, p: Primitives, req: InboundRequest): (r: Result<Uri, Error>)
    ensures r.Success? <==> !IsNullOrEmpty(cfg.baseUrl) && p.parseUri(cfg.baseUrl.value).Some?
    ensures r == Failure(MissingBaseUrl) <==> IsNullOrEmpty(cfg.baseUrl)
    ensures r == Failure(InvalidBaseUrl) <==>
      !IsNullOrEmpty(cfg.baseUrl) && p.parseUri(cfg.baseUrl.value).None?
    ensures r.Success? ==>
      var base := p.parseUri(cfg.baseUrl.value).value;
      r.value.path == req.path && r.value.query == base.query &&
      r.value.schemeAndAuthority == base.schemeAndAuthority && r.value.fragment == base.fragment
  {
    if IsNullOrEmpty(cfg.baseUrl) then Failure(MissingBaseUrl)
    else match p.parseUri(cfg.baseUrl.value)
      case None => Failure(InvalidBaseUrl)
      case Some(base) => Success(base.(path := req.path))
  }

  /** The whole call as a function of its inputs: what `ProxyRequestAsync`
      hands to `PostAsync`, or the exception it throws first. */
  function Forward(cfg: Config, p: Primitives, req: InboundRequest, body: seq<byte>, now: Timestamp)
    : (r: Result<OutboundRequest, Error>)
    ensures r.Failure? <==>
      IsNullOrEmpty(cfg.baseUrl) || p.parseUri(cfg.baseUrl.value).None? ||
      IsNullOrEmpty(cfg.appId) || IsNullOrEmpty(cfg.appSecret)
    ensures ResolveTarget(cfg, p, req).Failure? ==> r == Failure(ResolveTarget(cfg, p, req).error)
    ensures ResolveTarget(cfg, p, req).Success? && IsNullOrEmpty(cfg.appId) ==> r == Failure(MissingAppId)
    ensures ResolveTarget(cfg, p, req).Success? && !IsNullOrEmpty(cfg.appId) && IsNullOrEmpty(cfg.appSecret)
      ==> r == Failure(MissingAppSecret)
  {
    match ResolveTarget(cfg, p, req)
    case Failure(e) => Failure(e)
    case Success(uri) =>
      var digest := p.md5(body);
      match GenerateAuthorizationHeader(cfg, p, UpstreamMethod, Some(digest), now, uri.PathAndQuery())
      case Failure(e) => Failure(e)
      case Success(h) =>
        Success(OutboundRequest(
          UpstreamMethod, uri, now, h, Some(OutboundContentType(req.contentType)), Some(digest), body))
  }

  /** `StreamContent` over a stream: it sends the stream from the position
      the stream had when the content was made, with its own headers. */
  class StreamContent {
    const body: Stream
    const start: nat
    /** `Headers.ContentMD5`. */
    var contentMd5: Option<seq<byte>>
    /** `Headers.ContentType`. */
    var contentType: Option<string>

    ghost predicate Valid()
      reads this, body
    {
      body.Valid() && start <= |body.contents|
    }

    /** The bytes sent as the request body. */
    function Payload(): (r: seq<byte>)
      reads this, body
      requires Valid()
      ensures |r| == |body.contents| - start
    {
      body.contents[start..]
    }

    constructor (body: Stream)
      requires body.Valid()
      ensures Valid() && this.body == body && start == body.pos
      ensures contentMd5 == None && contentType == None
    {
      this.body := body;
      start := body.pos;
      contentMd5, contentType := None, None;
    }
  }

  /** `CalculateMd5Async`: the digest of the stream from its cursor to the
      end, after which a seekable stream is rewound to 0. */
  method CalculateMd5(stream: Stream, p: Primitives) returns (digest: Md5Digest)
    requires stream.Valid()
    modifies stream
    ensures stream.Valid() && stream.contents == old(stream.contents)
    ensures digest == p.md5(old(stream.Remaining()))
    ensures stream.pos == if stream.canSeek then 0 else |stream.contents|
  {
    var data := stream.ReadToEnd();
    digest := p.md5(data);
    if stream.canSeek {
      stream.Rewind();
    }
  }

  /** `CreateRequestStreamContent`: copy the rest of the inbound body into a
      new memory stream, rewind it, digest it, and wrap it as the content.
      The bytes the content sends are the bytes that were digested. */
  method CreateRequestStreamContent(req: InboundRequest, inbound: Stream, p: Primitives)
    returns (content: StreamContent)
    requires inbound.Valid()
    modifies inbound
    ensures inbound.Valid() && inbound.contents == old(inbound.contents)
    ensures inbound.pos == |inbound.contents|
    ensures fresh(content) && fresh(content.body) && content.Valid()
    ensures content.body.pos == content.start == 0
    ensures content.Payload() == old(inbound.Remaining())
    ensures content.contentMd5 == Some(p.md5(content.Payload()))
    ensures content.contentType == Some(OutboundContentType(req.contentType))
  {
    var buffer := new Stream.Memory();
    inbound.CopyTo(buffer);
    buffer.Rewind();
    var digest := CalculateMd5(buffer, p);
    content := new StreamContent(buffer);
    content.contentMd5 := Some(digest);
    content.contentType := Some(OutboundContentType(req.contentType));
  }

  /** `HttpClient.DefaultRequestHeaders`: the Date and Authorization headers. */
  class RequestHeaders {
    var date: Option<Timestamp>
    var authorization: Option<AuthHeader>

    constructor ()
      ensures date == None && authorization == None
    {
      date, authorization := None, None;
    }
  }

  /** `SubmitRequestToSolisCloudAsync` up to the `PostAsync` call: set the
      Date header, sign with POST, that same date, the digest header of the
      content and the path and query of the target, and set Authorization.
      A signing failure leaves nothing to send. */
  method SubmitRequest(cfg: Config, p: Primitives, requestUri: Uri, content: StreamContent, now: Timestamp)
    returns (r: Result<OutboundRequest, Error>)
    requires content.Valid()
    ensures r.Failure? <==> IsNullOrEmpty(cfg.appId) || IsNullOrEmpty(cfg.appSecret) || content.contentMd5.None?
    ensures IsNullOrEmpty(cfg.appId) ==> r == Failure(MissingAppId)
    ensures !IsNullOrEmpty(cfg.appId) && IsNullOrEmpty(cfg.appSecret) ==> r == Failure(MissingAppSecret)
    ensures !IsNullOrEmpty(cfg.appId) && !IsNullOrEmpty(cfg.appSecret) && content.contentMd5.None?
      ==> r == Failure(NullContentMd5)
    ensures r.Success? ==>
      r.value.httpMethod == UpstreamMethod && r.value.uri == requestUri && r.value.date == now &&
      r.value.contentType == content.contentType && r.value.contentMd5 == content.contentMd5 &&
      r.value.body == content.Payload()
    ensures r.Success? ==>
      r.value.authorization == GenerateAuthorizationHeader(
        cfg, p, r.value.httpMethod, r.value.contentMd5, r.value.date, r.value.uri.PathAndQuery()).value
  {
    var headers := new RequestHeaders();
    headers.date := Some(now);
    var auth := GenerateAuthorizationHeader(
      cfg, p, UpstreamMethod, content.contentMd5, headers.date.value, requestUri.PathAndQuery());
    if auth.Failure? {
      return Failure(auth.error);
    }
    headers.authorization := Some(auth.value);
    r := Success(OutboundRequest(
      UpstreamMethod, requestUri, headers.date.value, headers.authorization.value,
      content.contentType, content.contentMd5, content.Payload()));
  }

  /** `ProxyRequestAsync`. The inbound body is read only once the target is
      resolved, so a missing base URL leaves it untouched. */
  method ProxyRequest(cfg: Config, p: Primitives, req: InboundRequest, inbound: Stream, now: Timestamp)
    returns (r: Result<OutboundRequest, Error>)
    requires inbound.Valid()
    modifies inbound
    ensures r == Forward(cfg, p, req, old(inbound.Remaining()), now)
    ensures inbound.Valid() && inbound.contents == old(inbound.contents)
    ensures ResolveTarget(cfg, p, req).Failure? ==> inbound.pos == old(inbound.pos)
    ensures ResolveTarget(cfg, p, req).Success? ==> inbound.pos == |inbound.contents|
  {
    var target := ResolveTarget(cfg, p, req);
    if target.Failure? {
      return Failure(target.error);
    }
    var content := CreateRequestStreamContent(req, inbound, p);
    r := SubmitRequest(cfg, p, target.value, content, now);
  }

  /** A proxied call as the controller makes it: the host hands over the
      request body as a fresh stream with its cursor at the start, and the
      call sends that whole body, or fails, as `Forward` says. */
  method ProxyIncoming(cfg: Config, p: Primitives, req: InboundRequest, body: seq<byte>, seekable: bool, now: Timestamp)
    returns (r: Result<OutboundRequest, Error>)
    ensures r == Forward(cfg, p, req, body, now)
  {
    var inbound := new Stream.Incoming(body, seekable);
    r := ProxyRequest(cfg, p, req, inbound, now);
  }

  /** The context a receiver rebuilds from the headers of the outbound
      request: its method, Content-MD5, Content-Type, Date and target. */
  function HeaderContext(out: OutboundRequest, p: Primitives): (c: SigningContext)
    requires out.contentType.Some? && out.contentMd5.Some?
  {
    SigningContext(
      out.httpMethod, Base64.Encode(out.contentMd5.value), out.contentType.value,
      p.formatR(out.date), out.uri.PathAndQuery())
  }

  /** With a complete configuration the call succeeds (`Forward` fails
      exactly when it is incomplete). What is sent is the body, its digest, the inbound path, and a
      signature over exactly the method, digest, date and target sent. */
  lemma SignedOverSentRequest(cfg: Config, p: Primitives, req: InboundRequest, body: seq<byte>, now: Timestamp)
    requires !IsNullOrEmpty(cfg.baseUrl) && p.parseUri(cfg.baseUrl.value).Some?
    requires !IsNullOrEmpty(cfg.appId) && !IsNullOrEmpty(cfg.appSecret)
    ensures var out := Forward(cfg, p, req, body, now).value;
      out.httpMethod == UpstreamMethod && out.date == now &&
      out.body == body && out.contentMd5 == Some(p.md5(body)) &&
      out.uri.path == req.path &&
      out.authorization == Authorization(
        cfg.appId.value, cfg.appSecret.value,
        SignedContext(out.httpMethod, out.contentMd5.value, out.date, out.uri.PathAndQuery(), p), p)
  {
  }

  /** The signed content-type line is always application/json, so the
      signed context agrees with the headers sent exactly when the inbound
      request declared no content type or declared application/json. */
  lemma SignedContentTypeMatchesHeader(cfg: Config, p: Primitives, req: InboundRequest, body: seq<byte>, now: Timestamp)
    requires !IsNullOrEmpty(cfg.baseUrl) && p.parseUri(cfg.baseUrl.value).Some?
    requires !IsNullOrEmpty(cfg.appId) && !IsNullOrEmpty(cfg.appSecret)
    ensures var out := Forward(cfg, p, req, body, now).value;
      SignedContext(out.httpMethod, out.contentMd5.value, out.date, out.uri.PathAndQuery(), p)
        == HeaderContext(out, p)
      <==> req.contentType.None? || req.contentType == Some(JsonMediaType)
  {
  }

  /** A receiver that rebuilds the string-to-sign from the headers it got
      computes the header that was sent, provided the inbound content type
      was absent or application/json. */
  lemma ReceiverRecomputesAuthorization(cfg: Config, p: Primitives, req: InboundRequest, body: seq<byte>, now: Timestamp)
    requires !IsNullOrEmpty(cfg.baseUrl) && p.parseUri(cfg.baseUrl.value).Some?
    requires !IsNullOrEmpty(cfg.appId) && !IsNullOrEmpty(cfg.appSecret)
    requires req.contentType.None? || req.contentType == Some(JsonMediaType)
    ensures var out := Forward(cfg, p, req, body, now).value;
      out.authorization == Authorization(cfg.appId.value, cfg.appSecret.value, HeaderContext(out, p), p)
  {
    SignedContentTypeMatchesHeader(cfg, p, req, body, now);
  }

  /** The inbound query string has no effect on the call. */
  lemma QueryStringIgnored(cfg: Config, p: Primitives, req: InboundRequest, query: string, body: seq<byte>, now: Timestamp)
    ensures Forward(cfg, p, req.(queryString := query), body, now) == Forward(cfg, p, req, body, now)
  {
  }

  /** An empty body is digested like any other and signed without error. */
  lemma EmptyBodySigned(cfg: Config, p: Primitives, req: InboundRequest, now: Timestamp)
    requires !IsNullOrEmpty(cfg.baseUrl) && p.parseUri(cfg.baseUrl.value).Some?
    requires !IsNullOrEmpty(cfg.appId) && !IsNullOrEmpty(cfg.appSecret)
    ensures Forward(cfg, p, req, [], now).Success?
    ensures Forward(cfg, p, req, [], now).value.contentMd5 == Some(p.md5([]))
  {
  }
}
