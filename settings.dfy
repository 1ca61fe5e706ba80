/** The three values the proxy reads from its configuration, and the
    errors that end a proxied call before anything is sent. */
module Settings {
  import opened Wrappers

  /** `SolisCloud:BaseUrl`, `SolisCloud:AppId` and `SolisCloud:AppSecret`;
      None where the key is absent. */
  datatype Config = Config(baseUrl: Option<string>, appId: Option<string>, appSecret: Option<string>)

  /** The exceptions thrown before the upstream call. */
  datatype Error =
    | MissingBaseUrl    // InvalidOperationException "Missing Solis Cloud base URL."
    | InvalidBaseUrl    // UriFormatException from the UriBuilder
    | MissingAppId      // InvalidOperationException "Missing Solis Cloud AppId"
    | MissingAppSecret  // InvalidOperationException "Missing Solis Cloud AppSecret"
    | NullContentMd5    // ArgumentNullException from Convert.ToBase64String

  /** `string.IsNullOrEmpty`. */
  predicate IsNullOrEmpty(s: Option<string>): (b: bool)
    ensures !b <==> s.Some? && |s.value| > 0
  {
    s.None? || s.value == ""
  }
}
