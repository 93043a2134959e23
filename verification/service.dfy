/** Choosing the prerender service base URL (round-robin over a list) and
    joining it with the request URL into the upstream URL. */
module Service {
  import opened Wrappers
  import opened Text
  import opened Settings
  import opened Http
  import opened CfVisitor

  const DefaultServiceUrl: string := "http://prerender.herokuapp.com/"

  /** The option wins over the `PRERENDER_SERVICE_URL` environment variable,
      which wins over the built-in default. */
  function ResolveTarget(option: Option<ServiceTarget>, envUrl: Option<string>): (t: ServiceTarget)
    ensures option.Some? ==> t == option.value
    ensures option.None? && envUrl.Some? ==> t == SingleUrl(envUrl.value)
    ensures option.None? && envUrl.None? ==> t == SingleUrl(DefaultServiceUrl)
  {
    match option
    case Some(target) => target
    case None => SingleUrl(envUrl.GetOr(DefaultServiceUrl))
  }

  /** The URL chosen (None when a list is empty: indexing it yields nil) and
      the stored index afterwards. */
  datatype Selection = Selection(url: Option<string>, next: nat)

  /** One call of the service-URL getter with stored index `index`. A list
      resets an out-of-range index to 0, picks that entry and moves on by one;
      a single URL is returned as is and the index stays. */
  function Select(target: ServiceTarget, index: nat): (s: Selection)
    ensures target.SingleUrl? ==> s == Selection(Some(target.url), index)
    ensures target.UrlList? && index < |target.urls| ==>
              s == Selection(Some(target.urls[index]), index + 1)
    ensures target.UrlList? && index >= |target.urls| > 0 ==>
              s == Selection(Some(target.urls[0]), 1)
    ensures target.UrlList? && |target.urls| > 0 ==>
              1 <= s.next <= |target.urls| && s.url == Some(target.urls[s.next - 1])
    ensures target.UrlList? && |target.urls| == 0 ==> s == Selection(None, 1)
  {
    match target
    case SingleUrl(u) => Selection(Some(u), index)
    case UrlList(us) =>
      var i := if index >= |us| then 0 else index;
      Selection(if i < |us| then Some(us[i]) else None, i + 1)
  }

  /** The URLs chosen by `k` consecutive calls starting from stored index `index`. */
  function Picks(target: ServiceTarget, index: nat, k: nat): (ps: seq<Option<string>>)
    ensures |ps| == k
    decreases k
  {
    if k == 0 then []
    else
      var s := Select(target, index);
      [s.url] + Picks(target, s.next, k - 1)
  }

  /** The stored index after `k` consecutive calls starting from `index`. */
  function IndexAfter(target: ServiceTarget, index: nat, k: nat): nat
    decreases k
  {
    if k == 0 then index else IndexAfter(target, Select(target, index).next, k - 1)
  }

  /** Starting anywhere within `[0, n]`, the list is walked in order,
      wrapping at the end, and the index never leaves `[0, n]`. */
  lemma {:induction false} RoundRobinFrom(urls: seq<string>, index: nat, k: nat)
    requires |urls| > 0 && index <= |urls|
    ensures forall j :: 0 <= j < k ==>
              Picks(UrlList(urls), index, k)[j] == Some(urls[(index + j) % |urls|])
    ensures IndexAfter(UrlList(urls), index, k) <= |urls|
    decreases k
  {
    if k > 0 {
      var next := Select(UrlList(urls), index).next;
      RoundRobinFrom(urls, next, k - 1);
      forall j | 0 <= j < k
        ensures Picks(UrlList(urls), index, k)[j] == Some(urls[(index + j) % |urls|])
      {
        PickAt(urls, index, k, j);
      }
    }
  }

  /** One step of the walk: the first pick is entry `index mod n`, and later
      picks continue from the next stored index. */
  lemma PickAt(urls: seq<string>, index: nat, k: nat, j: nat)
    requires |urls| > 0 && index <= |urls| && j < k
    requires var next := Select(UrlList(urls), index).next;
             j > 0 ==> Picks(UrlList(urls), next, k - 1)[j - 1] == Some(urls[(next + j - 1) % |urls|])
    ensures Picks(UrlList(urls), index, k)[j] == Some(urls[(index + j) % |urls|])
  {
    var n := |urls|;
    if j == 0 {
      if index == n {
        ModUnique(index, n, 1, 0);
      } else {
        ModUnique(index, n, 0, index);
      }
    } else {
      ShiftMod(index, j, n);
    }
  }

  /** Moving to the next stored index keeps the walk's position modulo `n`. */
  lemma ShiftMod(index: nat, j: nat, n: nat)
    requires 0 < n && index <= n && j > 0
    ensures ((if index == n then 0 else index) + 1 + (j - 1)) % n == (index + j) % n
  {
    if index == n {
      AddModulus(j, n);
    }
  }

  lemma {:induction false} MulAtLeast(d: nat, n: nat)
    requires d >= 1
    ensures d * n >= n
    decreases d
  {
    if d > 1 {
      MulAtLeast(d - 1, n);
      assert d * n == (d - 1) * n + n;
    }
  }

  /** Quotient and remainder are unique. */
  lemma ModUnique(x: int, n: nat, q: int, r: int)
    requires n > 0 && 0 <= r < n && x == q * n + r
    ensures x % n == r
  {
    var q2, r2 := x / n, x % n;
    assert x == q2 * n + r2;
    if q2 > q {
      assert (q2 - q) * n == q2 * n - q * n;
      MulAtLeast(q2 - q, n);
    } else if q2 < q {
      assert (q - q2) * n == q * n - q2 * n;
      MulAtLeast(q - q2, n);
    }
  }

  lemma AddModulus(j: nat, n: nat)
    requires n > 0
    ensures (n + j) % n == j % n
  {
    var q, r := j / n, j % n;
    assert j == q * n + r;
    assert n + j == (q + 1) * n + r;
    ModUnique(n + j, n, q + 1, r);
  }

  /** From a fresh index the k-th call picks entry `k mod n`. */
  lemma RoundRobin(urls: seq<string>, k: nat)
    requires |urls| > 0
    ensures forall j :: 0 <= j < k ==> Picks(UrlList(urls), 0, k)[j] == Some(urls[j % |urls|])
    ensures IndexAfter(UrlList(urls), 0, k) <= |urls|
  {
    RoundRobinFrom(urls, 0, k);
  }

  /** Two URLs A and B, index 0: three calls pick A, B, A. */
  lemma RoundRobinTwo(a: string, b: string)
    ensures Picks(UrlList([a, b]), 0, 3) == [Some(a), Some(b), Some(a)]
  {
    RoundRobin([a, b], 3);
  }

  /** A single URL is picked on every call and never moves the index. */
  lemma {:induction false} SingleUrlConstant(u: string, index: nat, k: nat)
    ensures forall j :: 0 <= j < k ==> Picks(SingleUrl(u), index, k)[j] == Some(u)
    ensures IndexAfter(SingleUrl(u), index, k) == index
    decreases k
  {
    if k > 0 {
      SingleUrlConstant(u, index, k - 1);
    }
  }

  /** A base URL with one trailing slash removed, if it has one. */
  function WithoutTrailingSlash(base: string): string {
    if EndsWith(base, '/') then base[..|base| - 1] else base
  }

  /** Base URL, a `/` only when the base does not already end in one, then the URL. */
  function JoinServiceUrl(base: string, url: string): (r: string)
    ensures r == WithoutTrailingSlash(base) + "/" + url
    ensures r[..|base|] == base && r[|r| - |url|..] == url
    ensures |r| == |base| + |url| + (if EndsWith(base, '/') then 0 else 1)
  {
    var slash := if EndsWith(base, '/') then "" else "/";
    base + slash + url
  }

  /** The URL never starts with a doubled slash at the seam when the base
      ends in at most one slash, and never lacks the slash. */
  lemma JoinHasOneSlash(base: string, url: string)
    requires !(|base| >= 2 && base[|base| - 2] == '/' && base[|base| - 1] == '/')
    requires |url| == 0 || url[0] != '/'
    ensures var r := JoinServiceUrl(base, url);
            var seam := |r| - |url| - 1;
            0 <= seam && r[seam] == '/' && (seam == 0 || r[seam - 1] != '/')
            && (seam + 1 == |r| || r[seam + 1] != '/')
  {
    var r := JoinServiceUrl(base, url);
    var w := WithoutTrailingSlash(base);
    assert r == w + "/" + url;
    assert |w| == 0 || w[|w| - 1] != '/' || !EndsWith(base, '/');
  }

  /** What `build_api_url` produces: the request after the CF-VISITOR
      rewrite (which the original applies to the caller's environment in
      place), the upstream URL (None when no base URL could be chosen), and
      the stored index afterwards. */
  datatype ApiUrl = ApiUrl(request: Request, url: Option<string>, next: nat)

  function BuildApiUrl(cfg: Config, envUrl: Option<string>, req: Request, index: nat): (a: ApiUrl)
    ensures a.request == ApplyCfVisitor(req)
    ensures var s := Select(ResolveTarget(cfg.prerenderServiceUrl, envUrl), index);
            a.next == s.next
            && (s.url.None? <==> a.url.None?)
            && (s.url.Some? ==> a.url == Some(JoinServiceUrl(s.url.value, Url(a.request))))
  {
    var request := ApplyCfVisitor(req);
    var s := Select(ResolveTarget(cfg.prerenderServiceUrl, envUrl), index);
    match s.url
    case None => ApiUrl(request, None, s.next)
    case Some(base) => ApiUrl(request, Some(JoinServiceUrl(base, Url(request))), s.next)
  }

  /** Base `http://svc/` and a request for `https://example.com/a?b=1` give
      `http://svc/https://example.com/a?b=1`. */
  lemma BuildApiUrlExample(cfg: Config, req: Request)
    requires cfg.prerenderServiceUrl == Some(SingleUrl("http://svc/"))
    requires req.scheme == "https" && req.host == "example.com" && req.port == 443
    requires req.path == "/a" && req.queryString == "b=1" && req.cfVisitor.None?
    ensures BuildApiUrl(cfg, None, req, 0).url == Some("http://svc/https://example.com/a?b=1")
  {
    var url := Url(req);
    ExampleRequestUrl(req);
    assert Select(ResolveTarget(cfg.prerenderServiceUrl, None), 0).url == Some("http://svc/");
    assert BuildApiUrl(cfg, None, req, 0).url == Some(JoinServiceUrl("http://svc/", url));
    ExampleJoin("http://svc/", url);
  }

  lemma ExampleRequestUrl(req: Request)
    requires req.scheme == "https" && req.host == "example.com" && req.port == 443
    requires req.path == "/a" && req.queryString == "b=1"
    ensures Url(req) == "https://example.com/a?b=1"
  {
    assert DefaultPort("https") == Some(443);
    assert HostWithPort(req) == "example.com";
    assert FullPath(req) == "/a" + "?" + "b=1";
  }

  lemma ExampleJoin(base: string, url: string)
    requires base == "http://svc/" && url == "https://example.com/a?b=1"
    ensures JoinServiceUrl(base, url) == "http://svc/https://example.com/a?b=1"
  {
    assert EndsWith(base, '/');
    assert JoinServiceUrl(base, url) == base + url;
  }
}
