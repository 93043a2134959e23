# prerender_rails, modelled in Dafny

`Rack::Prerender` is a Rack middleware. It decides whether an incoming request
comes from a search-engine crawler or link bot. If it does, the middleware
fetches a rendered copy of the page from a prerender service and returns it.
Every other request goes to the wrapped application unchanged.

This project models that decision and the forwarding step, one module per
concern:

- `Settings`: the options hash and the configuration the constructor builds from it. A single whitelist or blacklist string becomes a one-element list. The extension and crawler lists can be overridden.
- `Query`: the part of Rack's query-string parser that decides which keys a query string carries.
- `Http`: the request and response records, and the URL Rack rebuilds from a request.
- `CfVisitor`: the CF-VISITOR scheme rewrite. It is a leftmost search for `"scheme":"http"` or `"scheme":"https"`.
- `Classifier`: `should_show_prerendered_page`. This is an ordered chain of early returns. `Classify` names the rule that decided.
- `Service`: choosing the service base URL (option, then environment, then default), the round-robin over a URL list, the slash-aware join, and `build_api_url`.
- `Upstream`: the header map sent to the service, and the request and response records.
- `Middleware`: `before_render`, `build_rack_response_from_prerender` and `call`. `Call` is a pure function that threads the round-robin index. A small class `Prerender` holds the index as a field.

Choices about the environment:

- Regular-expression matching for the whitelist and blacklist is a parameter `re(pattern, subject)`.
- The wrapped app is a parameter, and so is the round trip to the service. A service result of `None` covers every failure the original rescues.
- The environment variables are inputs.

Behaviour of the code that is easy to get wrong, modelled as written:

- A query string with an `_escaped_fragment_` key is accepted before the ignored-extension, whitelist and blacklist vetoes are consulted (lib/prerender_rails.rb:99).
- A whitelist configured as an empty list rejects every crawler request (line 108). It is not treated as "no whitelist".
- The default service URL is `http://prerender.herokuapp.com/` (line 168).
- Any String returned by the before-render hook is used, even an empty one (line 205).
- The method check (GET only) always applies. There is no API-host rule and no prerender-agent or buffer-agent header marker.
- The whitelist and blacklist are matched against the request path alone (`request.path`), never the query string. The blacklist is also matched against the referer when one is present.
- The original rewrites the caller's environment in place (`new_env = env`, line 145). So after `build_api_url` has run, the wrapped app sees the CF-VISITOR-rewritten request. `Call` models this.
- A service URL list that is empty yields `nil` at line 180. The string operations at line 154 then raise inside the rescue, so the request falls through to the app. `Select` models this as no URL with the index set to 1.

## Model

| member | source | states |
|---|---|---|
| Settings.NormalisePatterns | lib/prerender_rails.rb:61-62 | an absent option stays absent, a single pattern string becomes the one-element list, a list is kept |
| Settings.Normalise | lib/prerender_rails.rb:10-64 | white- and blacklists are normalised; the extension and crawler lists are the option's when given, else the built-in lists; URL and token options are carried over |
| Settings.OnePatternIsSingletonList | lib/prerender_rails.rb:61-62 | a single pattern string configures exactly the same middleware as a one-element list |
| Text.Lower | lib/prerender_rails.rb:102 | lower-casing keeps the length and lowers each ASCII letter in place |
| Query.Keys | lib/prerender_rails.rb:99 | every parsed key is free of `=`, `&` and `;` |
| Query.KeysOfEncode | lib/prerender_rails.rb:99 | parsing the keys of `k1=v1&k2=v2...` gives back exactly `k1, k2, ...` in order (round trip) |
| Query.HasKeyOfEncode | lib/prerender_rails.rb:99 | a well-formed query string has key `k` if and only if one of its pairs was written with key `k` |
| Query.KeysOfPair | test/lib/prerender_rails.rb:37-42 | a single `key=value` carries only its key, so text after a stray `?` in the value is never a key |
| CfVisitor.FindFrom | lib/prerender_rails.rb:147 | the result is the marker at the leftmost position where either marker occurs, and none exactly when no marker occurs |
| CfVisitor.FindScheme | lib/prerender_rails.rb:147 | the header's announced scheme follows leftmost-match semantics over the whole header |
| CfVisitor.HttpsHeaderIsHttps | lib/prerender_rails.rb:147 | `"scheme":"https"` is read as https, not as its `"scheme":"http` prefix |
| CfVisitor.ApplyCfVisitor | lib/prerender_rails.rb:146-149 | https marker: HTTPS flag true, scheme https, port 443; http marker: only the HTTPS flag becomes false; no header or no marker: unchanged |
| CfVisitor.CfHttpsUrl | lib/prerender_rails.rb:146-152 | after an https marker the rebuilt URL is `https://host` followed by path and query, with no port |
| CfVisitor.CfHttpUrlUnchanged | lib/prerender_rails.rb:146-152 | an http marker leaves the rebuilt request URL exactly as it was |
| Http.Url | lib/prerender_rails.rb:152 | the rebuilt URL starts with `scheme://host`, ends with the path followed by `?query` exactly when the query is non-empty, and between them holds `:` and decimal digits reading back as the port exactly when the port is not the scheme's default (80 for http, 443 for https) |
| Classifier.Classify | lib/prerender_rails.rb:91-125 | for each rule, the rule decides if and only if every earlier rule passed and its own test fires; acceptance is equivalent to the order-free formula `WantsPrerender` |
| Classifier.ShouldShowPrerenderedPage | lib/prerender_rails.rb:91-125 | true exactly when `WantsPrerender` holds, and only for GET requests that carry a user agent |
| Classifier.EarlyRejections | lib/prerender_rails.rb:92-94 | no user agent, or a method other than GET, is rejected |
| Classifier.EscapedFragmentWins | lib/prerender_rails.rb:99 | an eligible request with the `_escaped_fragment_` key is accepted whatever the crawler list, extensions, whitelist and blacklist |
| Classifier.NonCrawlerRejected | lib/prerender_rails.rb:99-102 | a user agent containing no crawler string is accepted if and only if it is an eligible request with the escaped-fragment key |
| Classifier.CrawlerVetoes | lib/prerender_rails.rb:105-124 | a crawler request without the key is accepted if and only if no ignored extension is in the path, the whitelist admits the path, and no blacklist pattern matches the path or referer |
| Classifier.RefererBlacklisted | lib/prerender_rails.rb:111-121 | a referer matching a blacklist pattern rejects a request without the escaped-fragment key |
| Classifier.EmptyWhitelistRejectsCrawlers | lib/prerender_rails.rb:108 | an empty whitelist list rejects every request without the escaped-fragment key |
| Classifier.StrayEscapedFragmentIgnored | test/lib/prerender_rails.rb:37-42 | in `query=...?_escaped_fragment_=` the marker is not a key, so a non-crawler passes through |
| Classifier.EscapedFragmentBeatsIgnoredExtension | lib/prerender_rails.rb:99-105 | `/main.js` with the escaped-fragment key hits the `.js` extension veto yet is accepted, because rule order puts the key first |
| Service.ResolveTarget | lib/prerender_rails.rb:168 | the option wins over the environment variable, which wins over `http://prerender.herokuapp.com/` |
| Service.Select | lib/prerender_rails.rb:165-188 | a single URL is returned and the index kept; a list resets an index at or past its end to 0, returns that entry and stores index+1, so the index stays within `[1, length]`; an empty list gives no URL |
| Service.RoundRobinFrom | lib/prerender_rails.rb:171-184 | from any index within `[0, n]`, the j-th of k calls picks entry `(index + j) mod n` and the index stays within `[0, n]` |
| Service.RoundRobin | lib/prerender_rails.rb:171-184 | from index 0 the j-th call picks entry `j mod n` |
| Service.RoundRobinTwo | lib/prerender_rails.rb:171-184 | with `[A, B]` from index 0, three calls pick A, B, A |
| Service.SingleUrlConstant | lib/prerender_rails.rb:168-186 | a single URL is picked on every call and the index never moves |
| Service.JoinServiceUrl | lib/prerender_rails.rb:154-155 | the result is the base with at most one trailing slash removed, one `/`, then the URL; it starts with the base and ends with the URL |
| Service.JoinHasOneSlash | lib/prerender_rails.rb:154-155 | when the base does not end in `//` and the request URL does not start with `/`, there is exactly one slash at the seam: never a doubled slash and never a missing one |
| Service.BuildApiUrl | lib/prerender_rails.rb:144-156 | the request is CF-rewritten, the base URL is chosen by the round robin, and the upstream URL is the join of that base with the rewritten request's URL |
| Service.BuildApiUrlExample | lib/prerender_rails.rb:144-156 | base `http://svc/` and a request for `https://example.com/a?b=1` give `http://svc/https://example.com/a?b=1` |
| Upstream.UpstreamHeaders | lib/prerender_rails.rb:131-133 | User-Agent is always forwarded; the token header is present if and only if either token is set, with the option overriding the environment; no other header |
| Middleware.BeforeRender | lib/prerender_rails.rb:200-212 | no hook or a declined result gives nothing; a String gives status 200 with that body and no headers; a Response is returned unchanged |
| Middleware.BuildRackResponse | lib/prerender_rails.rb:191-197 | status, headers and body are the service's, unless the response-builder hook transforms the response |
| Middleware.Call | lib/prerender_rails.rb:69-88 | rejection: the app's answer and the same index; cached page: that page, same index, no service request; otherwise the round-robin index moves, the service request carries the built URL and headers, and the answer is the service's when it answers, else the app's on the rewritten request |
| Middleware.RejectedPassesThrough | lib/prerender_rails.rb:70-87 | a rejected request gets exactly the app's answer and leaves the index alone |
| Middleware.CachedIgnoresService | lib/prerender_rails.rb:72-76 | when the before-render hook gives a page, the outcome does not depend on the service at all |
| Middleware.ServiceAnswerRelayed | lib/prerender_rails.rb:78-84 | without a response-builder hook the service's status, headers and body are relayed unchanged (before Rack's `finish`, which is not modelled) |
| Middleware.Prerender.GetPrerenderServiceUrl | lib/prerender_rails.rb:165-188 | returns the selected URL and stores the next index in the object's field |
| Middleware.Prerender.HandleRequest | lib/prerender_rails.rb:69-88 | returns the outcome's response and stores the outcome's index in the object's field |

## Left out

- The HTTP round trip to the service, its `rescue` and the logging (lib/prerender_rails.rb:134-139) are network I/O and logging. The round trip is a parameter `fetch`, and `None` stands for any raised error. The request sets no Accept-Encoding, so Ruby's HTTP library asks for gzip itself and inflates the body; `fetch` returns that already-decoded answer, and gzip decoding is not modelled.
- The `ENV` reads (lines 132 and 168) are inputs (`Environment`), read afresh on every call as in the original.
- Regular expressions in the whitelist and blacklist are a parameter `re`, because Ruby's regex engine is not modelled. A malformed pattern raising an error is not modelled.
- Rack's `Request#url` is reduced to `scheme://host[:port]path[?query]`. The scheme is `rack.url_scheme`; Rack's own reading of `HTTPS=on`, `X-Forwarded-Proto` and forwarded-host headers is not modelled. Nor is the plain Host header (`HTTP_HOST`): when it names a port, Rack shows that port rather than `SERVER_PORT`, so the port 443 written at line 148 is then ignored. The model always shows the `port` field. The HTTPS flag the middleware writes is recorded but not read.
- Rack's query parser: percent-decoding and `+` decoding of keys and values are not modelled. In particular, a malformed %-escape anywhere in the query string (such as `?q=%`) makes Rack's parser raise at line 99, and nothing rescues it, so the original raises out of `call` for a GET request with a user agent and such a query. The model instead goes on classifying and passes the request on.
- `Rack::Response#finish` is not modelled. The status, headers and body are returned as given, although `finish` empties the body and drops Content-Type and Content-Length for statuses 204, 205 and 304.
- The after-render hook is left out: its return value is discarded, and its only effects are the caller's side effects.
- The configuration is a fixed copy taken at construction. The original keeps the caller's own options hash (line 60), writes the normalised whitelist and blacklist back into it (lines 61-62), and re-reads whitelist, blacklist, token, service URL and hooks from it on every request (lines 108, 111, 133, 168, 194, 201). So a later change to that hash changes the original's behaviour, and a frozen hash with a String whitelist or blacklist makes line 61 or 62 raise. Neither is modelled.
- Exceptions raised by the hooks or the app are not modelled.
- Thread safety of the shared round-robin index is out of scope: the model is sequential.
- The service's status code is a String in Ruby's HTTP library and is converted by Rack. Here it is an integer.
- Option values of other Ruby types, such as a Regexp passed as the whitelist, are left out: `PatternOption` covers absent, one string or a list. Such a value is never an Array, so the original ignores it.
- Text.Lower: lowers ASCII letters only, while Ruby's `downcase` also folds non-ASCII letters.
- Behaviour that only the test file expects is not modelled, because the code does not have it: `X-Forwarded-Proto` handling, the `protocol` option, the `X-Prerender` header veto, the `service.prerender.io` default, and whitelist and blacklist vetoes of escaped-fragment requests.
