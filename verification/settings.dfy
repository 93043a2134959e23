/** Middleware options as passed to the constructor, and the configuration
    the constructor builds from them. */
module Settings {
  import opened Wrappers

  /** The prerender service: one base URL, or a list used round-robin. */
  datatype ServiceTarget = SingleUrl(url: string) | UrlList(urls: seq<string>)

  /** A whitelist or blacklist option: absent, one pattern string, or a list. */
  datatype PatternOption = Unset | OnePattern(pattern: string) | PatternList(patterns: seq<string>)

  /** The options hash given to the constructor. */
  datatype Options = Options(
    whitelist: PatternOption,
    blacklist: PatternOption,
    extensionsToIgnore: Option<seq<string>>,
    crawlerUserAgents: Option<seq<string>>,
    prerenderServiceUrl: Option<ServiceTarget>,
    prerenderToken: Option<string>)

  /** The configuration after normalisation: a pattern option is either absent
      or a list, and the extension and crawler lists are always present. */
  datatype Config = Config(
    whitelist: Option<seq<string>>,
    blacklist: Option<seq<string>>,
    extensionsToIgnore: seq<string>,
    crawlerUserAgents: seq<string>,
    prerenderServiceUrl: Option<ServiceTarget>,
    prerenderToken: Option<string>)

  const DefaultCrawlerUserAgents: seq<string> :=
    ["googlebot", "yahoo", "bingbot", "baiduspider", "facebookexternalhit", "twitterbot"]

  /** The built-in extension list; `.doc` appears twice in the original. */
  const DefaultExtensionsToIgnore: seq<string> :=
    [".js", ".css", ".xml", ".less", ".png", ".jpg", ".jpeg", ".gif", ".pdf",
     ".doc", ".txt", ".ico", ".rss", ".zip", ".mp3", ".rar", ".exe", ".wmv",
     ".doc", ".avi", ".ppt", ".mpg", ".mpeg", ".tif", ".wav", ".mov", ".psd",
     ".ai", ".xls", ".mp4", ".m4a", ".swf", ".dat", ".dmg", ".iso", ".flv",
     ".m4v", ".torrent"]

  /** A single pattern string becomes a one-element list. */
  function NormalisePatterns(p: PatternOption): (r: Option<seq<string>>)
    ensures p.Unset? <==> r.None?
    ensures p.OnePattern? ==> r == Some([p.pattern])
    ensures p.PatternList? ==> r == Some(p.patterns)
  {
    match p
    case Unset => None
    case OnePattern(s) => Some([s])
    case PatternList(ps) => Some(ps)
  }

  /** The constructor's option handling. */
  function Normalise(o: Options): (c: Config)
    ensures c.whitelist == NormalisePatterns(o.whitelist)
    ensures c.blacklist == NormalisePatterns(o.blacklist)
    ensures o.extensionsToIgnore.Some? ==> c.extensionsToIgnore == o.extensionsToIgnore.value
    ensures o.extensionsToIgnore.None? ==> c.extensionsToIgnore == DefaultExtensionsToIgnore
    ensures o.crawlerUserAgents.Some? ==> c.crawlerUserAgents == o.crawlerUserAgents.value
    ensures o.crawlerUserAgents.None? ==> c.crawlerUserAgents == DefaultCrawlerUserAgents
    ensures c.prerenderServiceUrl == o.prerenderServiceUrl && c.prerenderToken == o.prerenderToken
  {
    Config(
      NormalisePatterns(o.whitelist),
      NormalisePatterns(o.blacklist),
      o.extensionsToIgnore.GetOr(DefaultExtensionsToIgnore),
      o.crawlerUserAgents.GetOr(DefaultCrawlerUserAgents),
      o.prerenderServiceUrl,
      o.prerenderToken)
  }

  /** Passing one pattern string configures the same as a one-element list. */
  lemma OnePatternIsSingletonList(o: Options, w: string, b: string)
    ensures Normalise(o.(whitelist := OnePattern(w))) == Normalise(o.(whitelist := PatternList([w])))
    ensures Normalise(o.(blacklist := OnePattern(b))) == Normalise(o.(blacklist := PatternList([b])))
  {
  }
}
