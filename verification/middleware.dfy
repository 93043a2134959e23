/** The middleware's entry point: classify the request, then answer from the
    before-render hook, from the prerender service, or from the wrapped app. */
module Middleware {
  import opened Wrappers
  import opened Settings
  import opened Http
  import opened Classifier
  import opened Service
  import opened Upstream

  /** The environment variables read on every call. */
  datatype Environment = Environment(serviceUrl: Option<string>, token: Option<string>)

  /** What the before-render hook returned: a String, a Response, or anything
      else (nil included), which counts as no cached page. */
  datatype RenderResult = Declined | Html(body: string) | Ready(response: Response)

  /** The user-supplied callables. The after-render hook is not here: its
      result is discarded and it cannot change the response. */
  datatype Hooks = Hooks(
    beforeRender: Option<Request -> RenderResult>,
    responseBuilder: Option<(Response, UpstreamResponse) -> Response>)

  /** A cached page from the before-render hook, if it gives one. A String
      becomes a 200 response with no headers; a Response is used unchanged. */
  function BeforeRender(hooks: Hooks, req: Request): (r: Option<Response>)
    ensures hooks.beforeRender.None? ==> r.None?
    ensures hooks.beforeRender.Some? && hooks.beforeRender.value(req).Declined? ==> r.None?
    ensures hooks.beforeRender.Some? && hooks.beforeRender.value(req).Html? ==>
              r == Some(Response(200, map[], hooks.beforeRender.value(req).body))
    ensures hooks.beforeRender.Some? && hooks.beforeRender.value(req).Ready? ==>
              r == Some(hooks.beforeRender.value(req).response)
  {
    match hooks.beforeRender
    case None => None
    case Some(hook) =>
      match hook(req)
      case Html(body) => Some(Response(200, map[], body))
      case Ready(response) => Some(response)
      case Declined => None
  }

  /** The response built from the service's answer: its status, headers and
      body, then handed to the response-builder hook when one is configured. */
  function BuildRackResponse(hooks: Hooks, up: UpstreamResponse): (r: Response)
    ensures hooks.responseBuilder.None? ==>
              r.status == up.code && r.headers == up.headers && r.body == up.body
    ensures hooks.responseBuilder.Some? ==>
              r == hooks.responseBuilder.value(Response(up.code, up.headers, up.body), up)
  {
    var response := Response(up.code, up.headers, up.body);
    match hooks.responseBuilder
    case None => response
    case Some(builder) => builder(response, up)
  }

  /** The answer to one request, the stored round-robin index afterwards, and
      the request sent to the service, if one was sent. */
  datatype Outcome = Outcome(response: Response, next: nat, upstream: Option<UpstreamRequest>)

  /** One call of the middleware. `app` is the wrapped application; `fetch`
      is the service round trip, None standing for any failure the original
      rescues. After the URL builder has run, the app sees the request with
      the CF-VISITOR rewrite applied, because the original rewrites the
      caller's environment in place. */
  function Call(cfg: Config, env: Environment, hooks: Hooks, re: Matcher,
                app: Request -> Response, fetch: UpstreamRequest -> Option<UpstreamResponse>,
                req: Request, index: nat): (o: Outcome)
    ensures !ShouldShowPrerenderedPage(cfg, re, req) ==> o == Outcome(app(req), index, None)
    ensures ShouldShowPrerenderedPage(cfg, re, req) && BeforeRender(hooks, req).Some? ==>
              o == Outcome(BeforeRender(hooks, req).value, index, None)
    ensures ShouldShowPrerenderedPage(cfg, re, req) && BeforeRender(hooks, req).None? ==>
              var a := BuildApiUrl(cfg, env.serviceUrl, req, index);
              && o.next == a.next
              && (a.url.None? <==> o.upstream.None?)
              && (a.url.Some? ==> o.upstream == Some(UpstreamRequest(a.url.value,
                    UpstreamHeaders(req.userAgent.value, env.token, cfg.prerenderToken))))
              && (o.upstream.None? || fetch(o.upstream.value).None? ==> o.response == app(a.request))
              && (o.upstream.Some? && fetch(o.upstream.value).Some? ==>
                    o.response == BuildRackResponse(hooks, fetch(o.upstream.value).value))
  {
    if !ShouldShowPrerenderedPage(cfg, re, req) then Outcome(app(req), index, None)
    else
      match BeforeRender(hooks, req)
      case Some(cached) => Outcome(cached, index, None)
      case None =>
        var a := BuildApiUrl(cfg, env.serviceUrl, req, index);
        match a.url
        case None => Outcome(app(a.request), a.next, None)
        case Some(url) =>
          var upstream := UpstreamRequest(url, UpstreamHeaders(req.userAgent.value, env.token, cfg.prerenderToken));
          match fetch(upstream)
          case None => Outcome(app(a.request), a.next, Some(upstream))
          case Some(up) => Outcome(BuildRackResponse(hooks, up), a.next, Some(upstream))
  }

  /** A request the classifier rejects is the app's business alone: neither
      the service nor the round-robin index is touched. */
  lemma RejectedPassesThrough(cfg: Config, env: Environment, hooks: Hooks, re: Matcher,
                              app: Request -> Response, fetch: UpstreamRequest -> Option<UpstreamResponse>,
                              req: Request, index: nat)
    requires !ShouldShowPrerenderedPage(cfg, re, req)
    ensures Call(cfg, env, hooks, re, app, fetch, req, index).response == app(req)
    ensures Call(cfg, env, hooks, re, app, fetch, req, index).next == index
  {
  }

  /** A cached page is returned whatever the service would have answered. */
  lemma CachedIgnoresService(cfg: Config, env: Environment, hooks: Hooks, re: Matcher,
                             app: Request -> Response,
                             fetch1: UpstreamRequest -> Option<UpstreamResponse>,
                             fetch2: UpstreamRequest -> Option<UpstreamResponse>,
                             req: Request, index: nat)
    requires ShouldShowPrerenderedPage(cfg, re, req) && BeforeRender(hooks, req).Some?
    ensures Call(cfg, env, hooks, re, app, fetch1, req, index) == Call(cfg, env, hooks, re, app, fetch2, req, index)
  {
  }

  /** Without a response-builder hook, the service's status, headers and body
      are relayed unchanged. */
  lemma ServiceAnswerRelayed(cfg: Config, env: Environment, hooks: Hooks, re: Matcher,
                             app: Request -> Response, fetch: UpstreamRequest -> Option<UpstreamResponse>,
                             req: Request, index: nat)
    requires ShouldShowPrerenderedPage(cfg, re, req) && BeforeRender(hooks, req).None?
    requires hooks.responseBuilder.None?
    ensures var o := Call(cfg, env, hooks, re, app, fetch, req, index);
            o.upstream.Some? && fetch(o.upstream.value).Some? ==>
              var up := fetch(o.upstream.value).value;
              o.response == Response(up.code, up.headers, up.body)
  {
  }

  /** The middleware object: the normalised configuration, the hooks, and the
      round-robin index shared by all requests it handles. */
  class Prerender {
    const config: Config
    const hooks: Hooks
    var serviceIndex: nat

    constructor(options: Options, hooks: Hooks)
      ensures config == Normalise(options) && this.hooks == hooks && serviceIndex == 0
    {
      config := Normalise(options);
      this.hooks := hooks;
      serviceIndex := 0;
    }

    /** `get_prerender_service_url` on its own: picks a base URL and moves
        the index on. `HandleRequest` performs the same step through `Call`. */
    method GetPrerenderServiceUrl(envUrl: Option<string>) returns (url: Option<string>)
      modifies this
      ensures var s := Select(ResolveTarget(config.prerenderServiceUrl, envUrl), old(serviceIndex));
              url == s.url && serviceIndex == s.next
    {
      var s := Select(ResolveTarget(config.prerenderServiceUrl, envUrl), serviceIndex);
      url := s.url;
      serviceIndex := s.next;
    }

    /** `call`: answers one request and stores the index it leaves behind. */
    method HandleRequest(env: Environment, re: Matcher, app: Request -> Response,
                         fetch: UpstreamRequest -> Option<UpstreamResponse>, req: Request)
      returns (response: Response)
      modifies this
      ensures var o := Call(config, env, hooks, re, app, fetch, req, old(serviceIndex));
              response == o.response && serviceIndex == o.next
    {
      var o := Call(config, env, hooks, re, app, fetch, req, serviceIndex);
      response := o.response;
      serviceIndex := o.next;
    }
  }
}
