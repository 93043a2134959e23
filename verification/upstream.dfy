/** The request sent to the prerender service and the response it returns. */
module Upstream {
  import opened Wrappers

  const UserAgentHeader: string := "User-Agent"
  const TokenHeader: string := "X-Prerender-Token"

  /** The header map: the original user agent, plus the prerender token when
      the `PRERENDER_TOKEN` environment variable or the `prerender_token`
      option is set, the option taking precedence. */
  function UpstreamHeaders(userAgent: string, envToken: Option<string>, optionToken: Option<string>)
    : (h: map<string, string>)
    ensures UserAgentHeader in h && h[UserAgentHeader] == userAgent
    ensures TokenHeader in h <==> envToken.Some? || optionToken.Some?
    ensures optionToken.Some? ==> h[TokenHeader] == optionToken.value
    ensures optionToken.None? && envToken.Some? ==> h[TokenHeader] == envToken.value
    ensures h.Keys <= {UserAgentHeader, TokenHeader}
  {
    var h := map[UserAgentHeader := userAgent];
    var h := if envToken.Some? then h[TokenHeader := envToken.value] else h;
    if optionToken.Some? then h[TokenHeader := optionToken.value] else h
  }

  /** A GET to `url` with `headers`. */
  datatype UpstreamRequest = UpstreamRequest(url: string, headers: map<string, string>)

  /** The service's answer: status code, headers and body. */
  datatype UpstreamResponse = UpstreamResponse(code: int, headers: map<string, string>, body: string)
}
