/** The decision whether a request is served a prerendered page: an ordered
    chain of early returns over the request and the configuration. */
module Classifier {
  import opened Wrappers
  import opened Text
  import opened Settings
  import opened Http
  import Query

  /** A regular-expression test `Regexp.new(pattern).match(subject)`,
      left uninterpreted. */
  type Matcher = (string, string) -> bool

  const EscapedFragmentKey: string := "_escaped_fragment_"

  /** The rule of the chain that decided, in source order. */
  datatype Verdict =
    | NoUserAgent
    | NotGet
    | EscapedFragment
    | NotCrawler
    | IgnoredExtension
    | NotWhitelisted
    | Blacklisted
    | Crawler
  {
    predicate Accepts() {
      this == EscapedFragment || this == Crawler
    }
  }

  /** The query string carries the `_escaped_fragment_` key. */
  predicate HasEscapedFragment(req: Request) {
    Query.HasKey(req.queryString, EscapedFragmentKey)
  }

  /** Some crawler string occurs in the user agent, ignoring case. */
  predicate IsCrawler(cfg: Config, ua: string) {
    exists i :: 0 <= i < |cfg.crawlerUserAgents| &&
      Contains(Lower(ua), Lower(cfg.crawlerUserAgents[i]))
  }

  /** Some ignored extension occurs anywhere in the path. */
  predicate HasIgnoredExtension(cfg: Config, req: Request) {
    exists i :: 0 <= i < |cfg.extensionsToIgnore| && Contains(req.path, cfg.extensionsToIgnore[i])
  }

  /** No whitelist is configured, or some whitelist pattern matches the path. */
  predicate Whitelisted(cfg: Config, re: Matcher, req: Request) {
    match cfg.whitelist
    case None => true
    case Some(ws) => exists i :: 0 <= i < |ws| && re(ws[i], req.path)
  }

  /** Some blacklist pattern matches the path, or the referer when present. */
  predicate BlacklistHit(cfg: Config, re: Matcher, req: Request) {
    match cfg.blacklist
    case None => false
    case Some(bs) =>
      exists i :: 0 <= i < |bs| &&
        (re(bs[i], req.path) || (req.referer.Some? && re(bs[i], req.referer.value)))
  }

  /** A GET request that has a user agent: the only kind the chain goes past its first two rules for. */
  predicate Eligible(req: Request) {
    req.userAgent.Some? && req.requestMethod == "GET"
  }

  /** The whole decision stated in one formula, without rule order. */
  predicate WantsPrerender(cfg: Config, re: Matcher, req: Request) {
    && Eligible(req)
    && (|| HasEscapedFragment(req)
        || (&& IsCrawler(cfg, req.userAgent.value)
            && !HasIgnoredExtension(cfg, req)
            && Whitelisted(cfg, re, req)
            && !BlacklistHit(cfg, re, req)))
  }

  /** The rule chain, returning the rule that decided. */
  function Classify(cfg: Config, re: Matcher, req: Request): (v: Verdict)
    ensures v == NoUserAgent <==> req.userAgent.None?
    ensures v == NotGet <==> req.userAgent.Some? && req.requestMethod != "GET"
    ensures v == EscapedFragment <==> Eligible(req) && HasEscapedFragment(req)
    ensures v == NotCrawler <==>
              Eligible(req) && !HasEscapedFragment(req) && !IsCrawler(cfg, req.userAgent.value)
    ensures v == IgnoredExtension <==>
              Eligible(req) && !HasEscapedFragment(req) && IsCrawler(cfg, req.userAgent.value)
              && HasIgnoredExtension(cfg, req)
    ensures v == NotWhitelisted <==>
              Eligible(req) && !HasEscapedFragment(req) && IsCrawler(cfg, req.userAgent.value)
              && !HasIgnoredExtension(cfg, req) && !Whitelisted(cfg, re, req)
    ensures v == Blacklisted <==>
              Eligible(req) && !HasEscapedFragment(req) && IsCrawler(cfg, req.userAgent.value)
              && !HasIgnoredExtension(cfg, req) && Whitelisted(cfg, re, req)
              && BlacklistHit(cfg, re, req)
    ensures v.Accepts() <==> WantsPrerender(cfg, re, req)
  {
    match req.userAgent
    case None => NoUserAgent
    case Some(ua) =>
      if req.requestMethod != "GET" then NotGet
      else if HasEscapedFragment(req) then EscapedFragment
      else if !IsCrawler(cfg, ua) then NotCrawler
      else if HasIgnoredExtension(cfg, req) then IgnoredExtension
      else if !Whitelisted(cfg, re, req) then NotWhitelisted
      else if BlacklistHit(cfg, re, req) then Blacklisted
      else Crawler
  }

  /** `should_show_prerendered_page`. */
  function ShouldShowPrerenderedPage(cfg: Config, re: Matcher, req: Request): (b: bool)
    ensures b <==> WantsPrerender(cfg, re, req)
    ensures b ==> req.userAgent.Some? && req.requestMethod == "GET"
  {
    Classify(cfg, re, req).Accepts()
  }

  /** A request without a user agent, or with a method other than GET, passes through. */
  lemma EarlyRejections(cfg: Config, re: Matcher, req: Request)
    requires req.userAgent.None? || req.requestMethod != "GET"
    ensures !ShouldShowPrerenderedPage(cfg, re, req)
  {
  }

  /** The escaped-fragment rule decides before every veto: no extension,
      whitelist or blacklist, and no crawler test, is consulted. */
  lemma EscapedFragmentWins(cfg: Config, re: Matcher, req: Request)
    requires Eligible(req) && HasEscapedFragment(req)
    ensures Classify(cfg, re, req) == EscapedFragment
    ensures ShouldShowPrerenderedPage(cfg, re, req)
  {
  }

  /** A user agent that contains no crawler string passes through unless the
      escaped-fragment key is present. */
  lemma NonCrawlerRejected(cfg: Config, re: Matcher, req: Request)
    requires req.userAgent.Some? && !IsCrawler(cfg, req.userAgent.value)
    ensures ShouldShowPrerenderedPage(cfg, re, req) <==> Eligible(req) && HasEscapedFragment(req)
  {
  }

  /** For a crawler request without the escaped-fragment key, each veto rejects
      and the request is accepted exactly when none applies. */
  lemma CrawlerVetoes(cfg: Config, re: Matcher, req: Request)
    requires Eligible(req) && !HasEscapedFragment(req) && IsCrawler(cfg, req.userAgent.value)
    ensures ShouldShowPrerenderedPage(cfg, re, req) <==>
              !HasIgnoredExtension(cfg, req) && Whitelisted(cfg, re, req) && !BlacklistHit(cfg, re, req)
  {
  }

  /** A referer that matches a blacklist pattern vetoes the request even when
      the path matches none. */
  lemma RefererBlacklisted(cfg: Config, re: Matcher, req: Request, i: nat)
    requires !HasEscapedFragment(req)
    requires cfg.blacklist.Some? && i < |cfg.blacklist.value|
    requires req.referer.Some? && re(cfg.blacklist.value[i], req.referer.value)
    ensures !ShouldShowPrerenderedPage(cfg, re, req)
  {
  }

  /** A configured whitelist with no entries rejects every crawler request. */
  lemma EmptyWhitelistRejectsCrawlers(cfg: Config, re: Matcher, req: Request)
    requires cfg.whitelist == Some([]) && !HasEscapedFragment(req)
    ensures !ShouldShowPrerenderedPage(cfg, re, req)
  {
  }

  /** A `_escaped_fragment_` that follows a stray second `?`, as in
      `query=string?_escaped_fragment_=`, is part of the value of `query`,
      not a key, so a non-crawler user agent passes through. */
  lemma StrayEscapedFragmentIgnored(cfg: Config, re: Matcher, req: Request, v: string)
    requires req.queryString == "query=" + v && Query.NoSeparator(v)
    requires req.userAgent.Some? && !IsCrawler(cfg, req.userAgent.value)
    ensures !HasEscapedFragment(req)
    ensures !ShouldShowPrerenderedPage(cfg, re, req)
  {
    assert req.queryString == "query" + "=" + v;
    Query.KeysOfPair("query", v);
    assert "query" != EscapedFragmentKey;
  }

  /** Rule order matters: a crawler asking for `/main.js?_escaped_fragment_=...`
      is accepted although `.js` is an ignored extension. */
  lemma EscapedFragmentBeatsIgnoredExtension(re: Matcher, req: Request, v: string)
    requires Eligible(req)
    requires req.path == "/main.js" && req.queryString == EscapedFragmentKey + "=" + v
    requires Query.NoSeparator(v)
    ensures HasIgnoredExtension(Normalise(Options(Unset, Unset, None, None, None, None)), req)
    ensures ShouldShowPrerenderedPage(Normalise(Options(Unset, Unset, None, None, None, None)), re, req)
  {
    var cfg := Normalise(Options(Unset, Unset, None, None, None, None));
    assert OccursAt(".js", req.path, 5);
    assert cfg.extensionsToIgnore[0] == ".js";
    Query.KeysOfPair(EscapedFragmentKey, v);
  }
}
