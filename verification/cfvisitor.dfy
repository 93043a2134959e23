/** The CF-VISITOR scheme rewrite done before the request URL is rebuilt.
    The header is searched for the first `"scheme":"http"` or
    `"scheme":"https"`, as the regular expression `"scheme":"(http|https)"`
    finds its leftmost match. */
module CfVisitor {
  import opened Wrappers
  import opened Text
  import opened Http

  datatype Scheme = HttpScheme | HttpsScheme

  const HttpMarker: string := "\"scheme\":\"http\""
  const HttpsMarker: string := "\"scheme\":\"https\""

  /** Which marker, if any, starts at position `p`. */
  function MarkerAt(s: string, p: nat): Option<Scheme> {
    if OccursAt(HttpMarker, s, p) then Some(HttpScheme)
    else if OccursAt(HttpsMarker, s, p) then Some(HttpsScheme)
    else None
  }

  /** The leftmost marker at or after position `p`. */
  function FindFrom(s: string, p: nat): (r: Option<Scheme>)
    requires p <= |s|
    ensures r.None? <==> forall q :: p <= q <= |s| ==> MarkerAt(s, q).None?
    ensures r.Some? ==> exists q :: p <= q <= |s| && MarkerAt(s, q) == r
                          && forall q' :: p <= q' < q ==> MarkerAt(s, q').None?
    decreases |s| - p
  {
    if MarkerAt(s, p).Some? then MarkerAt(s, p)
    else if p == |s| then None
    else FindFrom(s, p + 1)
  }

  /** The scheme the header announces, by leftmost match. */
  function FindScheme(header: string): (r: Option<Scheme>)
    ensures r.None? <==> forall q :: 0 <= q <= |header| ==> MarkerAt(header, q).None?
    ensures r.Some? ==> exists q :: 0 <= q <= |header| && MarkerAt(header, q) == r
                          && forall q' :: 0 <= q' < q ==> MarkerAt(header, q').None?
  {
    FindFrom(header, 0)
  }

  /** The environment rewrite. An https marker sets the HTTPS flag, the scheme
      and port 443. An http marker sets only the HTTPS flag to false: the
      `and` chain stops at the false assignment, so scheme and port stay. */
  function ApplyCfVisitor(req: Request): (r: Request)
    ensures req.cfVisitor.None? ==> r == req
    ensures req.cfVisitor.Some? && FindScheme(req.cfVisitor.value).None? ==> r == req
    ensures req.cfVisitor.Some? && FindScheme(req.cfVisitor.value) == Some(HttpsScheme) ==>
              r == req.(httpsFlag := Some(true), scheme := "https", port := 443)
    ensures req.cfVisitor.Some? && FindScheme(req.cfVisitor.value) == Some(HttpScheme) ==>
              r == req.(httpsFlag := Some(false))
  {
    match req.cfVisitor
    case None => req
    case Some(header) =>
      match FindScheme(header)
      case Some(HttpsScheme) => req.(httpsFlag := Some(true), scheme := "https", port := 443)
      case Some(HttpScheme) => req.(httpsFlag := Some(false))
      case None => req
  }

  /** After an https marker the rebuilt URL is `https://host` plus the full path. */
  lemma CfHttpsUrl(req: Request)
    requires req.cfVisitor.Some? && FindScheme(req.cfVisitor.value) == Some(HttpsScheme)
    ensures Url(ApplyCfVisitor(req)) == "https://" + req.host + FullPath(req)
  {
  }

  /** An http marker leaves the rebuilt URL exactly as it was. */
  lemma CfHttpUrlUnchanged(req: Request)
    requires req.cfVisitor.Some? && FindScheme(req.cfVisitor.value) == Some(HttpScheme)
    ensures Url(ApplyCfVisitor(req)) == Url(req)
  {
  }

  /** The header `"scheme":"https"` is read as https, not as its http prefix. */
  lemma HttpsHeaderIsHttps()
    ensures FindScheme(HttpsMarker) == Some(HttpsScheme)
  {
    assert HttpsMarker[0..|HttpsMarker|] == HttpsMarker;
    assert HttpsMarker[0..|HttpMarker|][14] == 's' != HttpMarker[14];
    assert MarkerAt(HttpsMarker, 0) == Some(HttpsScheme);
  }
}
