# SolisCloudProxy request signing and forwarding, in Dafny

SolisCloudProxy relays each inbound HTTP request to the Solis Cloud
monitoring API as a signed `POST`. `SolisCloudProxyService` does the work.
It checks that a base URL is configured and builds the target URI from it
and the inbound path. It copies the inbound body into a memory stream and
rewinds it. It takes the MD5 digest of the body and rewinds again. It sets
the content headers. Then it signs the request: HMAC-SHA1 over a five-line
string-to-sign (method, Base 64 digest, `application/json`, RFC 1123 date,
path and query), keyed with the AppSecret, sent as `Authorization: API
appId:signature` next to a `Date` header that carries the same timestamp.

This project models that path:

- `Settings`: the three configuration values, the errors, and `string.IsNullOrEmpty`.
- `Platform`: the library calls whose code is not modelled (MD5, HMAC-SHA1,
  UTF-8, the "R" date format, URI parsing). They are fields of a
  `Primitives` value of function type. Every lemma therefore holds for any
  functions with those signatures. The only thing assumed about them is the
  digest lengths: 16 bytes for MD5 and 20 bytes for HMAC-SHA1.
- `Base64`: `Convert.ToBase64String` written out as section 4 of RFC 4648
  defines it. A decoder is the partner. It rejects nonzero padding bits, so
  a text decodes to some bytes exactly when it is their encoding.
- `Text`: joining with a separator and splitting again. The string-to-sign
  and the authorization value are shown to split back into their fields.
- `Signer`: `GenerateAuthorizationHeaderAsync`, with its guard order, the
  string-to-sign and the header.
- `Streams`: a stream class with `contents`, a cursor `pos` and `canSeek`.
  It is used for the `MemoryStream` buffer and for the inbound body.
- `Forwarder`: the base-URL guard and `UriBuilder`, `CreateRequestStreamContent`,
  `CalculateMd5Async` and `SubmitRequestToSolisCloudAsync` up to `PostAsync`.
  These are methods over the stream and content objects. `ProxyRequest` is
  proved equal to the pure function `Forward`, and the lemmas about the
  whole call are stated on `Forward`.

Two behaviours of the code are modelled as written:

- The content-type line of the string-to-sign is always the literal
  `application/json` (SolisCloudProxyService.cs line 168). The outbound
  `Content-Type` header, however, is the inbound content type when there is
  one (lines 128-130). `Forwarder.SignedContentTypeMatchesHeader` proves
  that the signed context agrees with the sent headers exactly when the
  inbound content type is absent or `application/json`.
- Only the inbound path is copied into the `UriBuilder` (line 70). The
  inbound query string is dropped, and any query in the base URL is kept.
  `Forwarder.QueryStringIgnored` proves that the inbound query string has
  no effect on the forwarded call.

The timestamp (`DateTimeOffset.UtcNow`) is a parameter `now`. The
configuration source supplies only the `Config` value.

## Model

| member | source | states |
|---|---|---|
| `Settings.IsNullOrEmpty` | src/SolisCloudProxy/Services/SolisCloudProxyService.cs:61 | a value passes the guards of lines 61, 158 and 163 exactly when it is present and has at least one character |
| `Forwarder.ResolveTarget` | src/SolisCloudProxy/Services/SolisCloudProxyService.cs:59-71 | succeeds exactly when the base URL is present, non-empty and parses; fails with MissingBaseUrl exactly when the base URL is null or empty, and with InvalidBaseUrl exactly when it is present but does not parse; on success the URI is the base URL's scheme, authority, query and fragment with the inbound path, so the inbound query string is not used |
| `Forwarder.OutboundContentType` | src/SolisCloudProxy/Services/SolisCloudProxyService.cs:128-130 | the inbound content type when it is non-null, `application/json` otherwise |
| `Forwarder.Forward` | src/SolisCloudProxy/Services/SolisCloudProxyService.cs:57-86 | the call fails exactly when the base URL is missing or unparsable, or AppId or AppSecret is null or empty; the base-URL errors come first, then AppId, then AppSecret |
| `Forwarder.ProxyRequest` | src/SolisCloudProxy/Services/SolisCloudProxyService.cs:57-86 | the request handed to PostAsync (or the error) equals `Forward` of the unread inbound body; when the target cannot be resolved the inbound body cursor has not moved, otherwise the body has been read to its end |
| `Forwarder.ProxyIncoming` | src/SolisCloudProxy/Controllers/SolisCloudController.cs:67 | proxying a request whose body the host hands over as a fresh stream gives exactly `Forward` of the whole body |
| `Streams.Stream.Memory` | src/SolisCloudProxy/Services/SolisCloudProxyService.cs:119 | a new memory stream is empty, seekable, cursor at 0 |
| `Streams.Stream.Incoming` | src/SolisCloudProxy/Services/SolisCloudProxyService.cs:120 | the inbound body stream holds the body with the cursor at its start |
| `Streams.Overwrite` | src/SolisCloudProxy/Services/SolisCloudProxyService.cs:120 | writing at a position keeps the bytes before it, places the data there, and keeps whatever lies past the data |
| `Streams.Stream.Write` | src/SolisCloudProxy/Services/SolisCloudProxyService.cs:120 | the contents become the overwrite of the old contents at the cursor, and the cursor moves past the data |
| `Streams.Stream.ReadToEnd` | src/SolisCloudProxy/Services/SolisCloudProxyService.cs:138 | returns the bytes from the cursor to the end and leaves the cursor at the end, contents unchanged |
| `Streams.Stream.Rewind` | src/SolisCloudProxy/Services/SolisCloudProxyService.cs:121 | on a seekable stream the cursor goes back to 0 and the contents are unchanged |
| `Streams.Stream.CopyTo` | src/SolisCloudProxy/Services/SolisCloudProxyService.cs:120 | the source is read to its end and exactly its remaining bytes are written into the destination at its cursor |
| `Forwarder.StreamContent.constructor` | src/SolisCloudProxy/Services/SolisCloudProxyService.cs:125 | the content wraps the given stream, remembers its position as the start of what it sends, and has no headers yet |
| `Forwarder.StreamContent.Payload` | src/SolisCloudProxy/Services/SolisCloudProxyService.cs:125 | the content sends the stream's bytes from the remembered start to the end |
| `Forwarder.CalculateMd5` | src/SolisCloudProxy/Services/SolisCloudProxyService.cs:135-146 | the digest is MD5 of the bytes from the cursor to the end; afterwards the cursor is 0 on a seekable stream and at the end otherwise, contents unchanged |
| `Forwarder.CreateRequestStreamContent` | src/SolisCloudProxy/Services/SolisCloudProxyService.cs:115-133 | the content sends exactly the unread inbound bytes, its Content-MD5 is the MD5 of exactly the bytes it sends, its content type is the inbound one or `application/json`, and the inbound body is read to its end |
| `Forwarder.RequestHeaders.constructor` | src/SolisCloudProxy/Services/SolisCloudProxyService.cs:98 | a new client has no Date and no Authorization header |
| `Forwarder.SubmitRequest` | src/SolisCloudProxy/Services/SolisCloudProxyService.cs:88-113 | fails exactly when AppId or AppSecret is null or empty or the content has no digest, in that order of precedence: MissingAppId, then MissingAppSecret, then NullContentMd5; on success the request is a POST to the target with the Date `now`, the content's headers and bytes, and an Authorization header computed from that request's own method, Content-MD5, Date and `PathAndQuery` |
| `Platform.Uri.PathAndQuery` | src/SolisCloudProxy/Services/SolisCloudProxyService.cs:106 | the signed target is the path followed by the query, and nothing else |
| `Forwarder.SignedOverSentRequest` | src/SolisCloudProxy/Services/SolisCloudProxyService.cs:100-107 | a forwarded request is a POST whose body is the inbound body, whose digest is that body's MD5, whose path is the inbound path, and whose Authorization header signs exactly the method, digest, Date and `PathAndQuery` it carries |
| `Forwarder.SignedContentTypeMatchesHeader` | src/SolisCloudProxy/Services/SolisCloudProxyService.cs:128-130 | the signed context equals the one rebuilt from the sent headers if and only if the inbound content type was null or `application/json`, because line 168 always signs `application/json` |
| `Forwarder.ReceiverRecomputesAuthorization` | src/SolisCloudProxy/Services/SolisCloudProxyService.cs:168-174 | when the inbound content type was null or `application/json`, signing the context rebuilt from the sent headers with the same credentials gives the header that was sent |
| `Forwarder.QueryStringIgnored` | src/SolisCloudProxy/Services/SolisCloudProxyService.cs:68-71 | changing only the inbound query string changes nothing in the forwarded call |
| `Forwarder.EmptyBodySigned` | src/SolisCloudProxy/Services/SolisCloudProxyService.cs:115-146 | with complete configuration an empty body is forwarded without error, carrying the MD5 of the empty sequence |
| `Signer.GenerateAuthorizationHeader` | src/SolisCloudProxy/Services/SolisCloudProxyService.cs:155-176 | fails exactly when AppId or AppSecret is null or empty or the digest is null; the errors come in that order: a missing AppId first, then a missing AppSecret, then the null digest (`Convert.ToBase64String(null)`); a produced header has scheme `API` |
| `Signer.SignedContext` | src/SolisCloudProxy/Services/SolisCloudProxyService.cs:168 | the signed content type is always `application/json`; the method, the "R" date and the path are the arguments; the digest field decodes from Base 64 to the digest bytes, which by `Base64.DecodesExactly` makes it exactly the Base 64 encoding of the digest |
| `Signer.Signature` | src/SolisCloudProxy/Services/SolisCloudProxyService.cs:170-172 | the signature is 28 characters of Base 64 that decode to the HMAC-SHA1, keyed with the UTF-8 secret, of the UTF-8 string-to-sign; by `Base64.DecodesExactly` it is exactly the Base 64 encoding of that HMAC |
| `Signer.StringToSign` | src/SolisCloudProxy/Services/SolisCloudProxyService.cs:168 | the string-to-sign is the five fields, method, Base 64 digest, content type, date and path, joined by line feeds with no trailing line feed |
| `Signer.Authorization` | src/SolisCloudProxy/Services/SolisCloudProxyService.cs:172-174 | the header has scheme `API`; its value is the AppId, then a colon, then a Base 64 text that decodes to the HMAC-SHA1, keyed with the UTF-8 secret, of the UTF-8 string-to-sign, and so is exactly the Base 64 encoding of that HMAC |
| `Signer.StringToSignFields` | src/SolisCloudProxy/Services/SolisCloudProxyService.cs:168 | when no field holds a line feed, splitting the string-to-sign at line feeds gives back exactly the five fields in order |
| `Signer.SignedContextNewlineFree` | src/SolisCloudProxy/Services/SolisCloudProxyService.cs:168 | the signer's context has no line feed in any field whenever the method, the formatted date and the path have none |
| `Signer.SignedStringDeterminesInputs` | src/SolisCloudProxy/Services/SolisCloudProxyService.cs:168 | when the method, the formatted date and the path hold no line feed (the code signs `POST`, an "R" date and a `PathAndQuery`), two equal strings-to-sign come from the same method, digest bytes, formatted date and path, so changing any of them changes the signed text |
| `Signer.AuthorizationParts` | src/SolisCloudProxy/Services/SolisCloudProxyService.cs:172-174 | for an AppId without a colon, a produced header splits at colons into exactly the AppId and a Base 64 text that decodes to the HMAC-SHA1 of the string-to-sign |
| `Base64.Encode` | src/SolisCloudProxy/Services/SolisCloudProxyService.cs:168 | the output has 4 characters per started group of 3 bytes, and each one is from the RFC 4648 alphabet or is the pad `=` |
| `Base64.RoundTrip` | src/SolisCloudProxy/Services/SolisCloudProxyService.cs:172 | decoding the encoding of any byte sequence gives the sequence back, so encoding loses nothing |
| `Base64.DecodeCanonical` | src/SolisCloudProxy/Services/SolisCloudProxyService.cs:172 | a text that decodes is exactly the encoding of what it decodes to: padding bits must be zero (section 3.5 of RFC 4648), so no other text stands for the same bytes |
| `Base64.DecodesExactly` | src/SolisCloudProxy/Services/SolisCloudProxyService.cs:168-172 | a text decodes to a byte sequence if and only if it is the Base 64 encoding of that sequence |
| `Base64.QuantumRoundTrip` | src/SolisCloudProxy/Services/SolisCloudProxyService.cs:172 | a full 3-byte group decodes back to its bytes |
| `Base64.NoSeparators` | src/SolisCloudProxy/Services/SolisCloudProxyService.cs:168 | encoded text contains neither a line feed nor a colon |
| `Text.Split` | src/SolisCloudProxy/Services/SolisCloudProxyService.cs:168 | splitting yields at least one piece, no piece contains the separator, and there is a single piece exactly when the text has no separator |
| `Text.SplitJoin` | src/SolisCloudProxy/Services/SolisCloudProxyService.cs:168 | splitting a join of separator-free fields gives back exactly those fields |
| `Text.JoinSplit` | src/SolisCloudProxy/Services/SolisCloudProxyService.cs:168 | joining the pieces of a split gives back the original text |

## Left out

- HTTP transport is not modelled. This covers creating `HttpClientHandler` and `HttpClient`, the `PostAsync` call and the response. The model stops at the request `PostAsync` would receive.
- `Streams.Stream.CopyTo` always succeeds. Failures while reading the inbound body at line 120 are not modelled: a client abort, the host's request-size limit, and the `MemoryStream` limit of `int.MaxValue` bytes ("Stream was too long"). The buffer is an unbounded byte sequence.
- The certificate callback that accepts every server certificate (lines 93-96) is not modelled. It is TLS configuration, not request logic.
- Async/await, `CancellationToken` and `Debug.WriteLine` logging are not modelled. Neither is the disposal done by `using`.
- MD5, HMAC-SHA1, UTF-8 encoding, the "R" date format and URI parsing are not computed. They are function parameters, and the model assumes only the digest lengths.
- `MediaTypeHeaderValue.Parse` is not modelled. The model stores the content-type string as given. The real call can reject a malformed value with `FormatException` and can normalise the text.
- `UriBuilder` escaping of the path, and its '/' prefix for an empty path, are not modelled. The path is copied as given.
- The wire text of the `Date` header is not modelled. The model carries the `DateTimeOffset` value that both the header and the signer use.
- `ComputeHashAsync` and `CopyToAsync` read in chunks. The model reads the stream to its end in one step, with the same end state.
- `Streams.Stream.Write` does not model a write at a position past the end of a memory stream. `Valid` keeps the cursor within the contents, and the proxy never seeks past the end.
- `Signer.SignedStringDeterminesInputs` covers only the string-to-sign, not the signature. HMAC-SHA1 is a parameter, so nothing is assumed about its collisions.
- `SolisCloudController` is not part of this model beyond its call into the service (`Forwarder.ProxyIncoming`). It does MVC routing and copies the upstream status, content type and body back to the caller.
- `ISolisCloudProxyService` is not part of this model. It declares the interface and has no behaviour.
- `IConfiguration` is not part of this model. Only the three values it supplies are, as `Settings.Config`.
