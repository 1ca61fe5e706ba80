/** The values the proxy exchanges with the .NET runtime, and the library
    calls whose code is not part of this model. Each library call is a
    field of `Primitives`: the model assumes nothing about it beyond its
    type, so every property proved holds for any MD5, HMAC-SHA1, UTF-8
    encoder, date formatter and URI parser with these signatures. */
module Platform {
  import opened Wrappers

  type byte = x: int | 0 <= x < 256

  /** An MD5 digest (RFC 1321) is 16 bytes long. */
  type Md5Digest = s: seq<byte> | |s| == 16
    witness [0, 0, 0, 0, 0, 0, 0, 0, 0, 0, 0, 0, 0, 0, 0, 0]

  /** An HMAC-SHA1 tag (RFC 2104 over SHA-1) is 20 bytes long. */
  type Sha1Mac = s: seq<byte> | |s| == 20
    witness [0, 0, 0, 0, 0, 0, 0, 0, 0, 0, 0, 0, 0, 0, 0, 0, 0, 0, 0, 0]

  /** A `DateTimeOffset` taken in UTC, as `DateTimeOffset.UtcNow` gives it. */
  datatype Timestamp = Timestamp(utcTicks: int)

  /** The parts of a `System.Uri` the proxy uses. `query` is empty or starts
      with '?', as `Uri.Query` is. */
  datatype Uri = Uri(schemeAndAuthority: string, path: string, query: string, fragment: string)
  {
    /** `Uri.PathAndQuery`: the path followed by the query, without the fragment. */
    function PathAndQuery(): (s: string)
      ensures |s| == |path| + |query| && s[..|path|] == path && s[|path|..] == query
    {
      path + query
    }
  }

  datatype Primitives = Primitives(
    /** `MD5.ComputeHash` over a byte sequence. */
    md5: seq<byte> -> Md5Digest,
    /** `HMACSHA1.HashData(key, data)`. */
    hmacSha1: (seq<byte>, seq<byte>) -> Sha1Mac,
    /** `Encoding.UTF8.GetBytes`. */
    utf8: string -> seq<byte>,
    /** The "R" (RFC 1123) format of a UTC date, as `{date:R}` prints it. */
    formatR: Timestamp -> string,
    /** `new UriBuilder(s)`: the parsed URI, or None where it throws `UriFormatException`. */
    parseUri: string -> Option<Uri>)
}
