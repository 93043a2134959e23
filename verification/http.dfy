/** The request and response records the middleware sees, and the URL that
    Rack rebuilds from a request. */
module Http {
  import opened Wrappers
  import opened Text

  /** The parts of the Rack environment the middleware reads or writes.
      `scheme` is `rack.url_scheme`, `port` is `SERVER_PORT`, and `httpsFlag`
      is the value the middleware writes into `HTTPS` (None while untouched). */
  datatype Request = Request(
    requestMethod: string,
    userAgent: Option<string>,
    scheme: string,
    host: string,
    port: nat,
    path: string,
    queryString: string,
    referer: Option<string>,
    cfVisitor: Option<string>,
    httpsFlag: Option<bool>)

  /** A Rack response triple: status, headers, body. */
  datatype Response = Response(status: int, headers: map<string, string>, body: string)

  function DefaultPort(scheme: string): Option<nat> {
    if scheme == "http" then Some(80)
    else if scheme == "https" then Some(443)
    else None
  }

  /** The host, followed by `:port` unless the port is the scheme's default. */
  function HostWithPort(req: Request): string {
    if DefaultPort(req.scheme) == Some(req.port) then req.host
    else req.host + ":" + NatToString(req.port)
  }

  /** The path, followed by `?query` when the query string is not empty. */
  function FullPath(req: Request): (r: string)
    ensures req.path <= r
    ensures req.queryString == "" <==> |r| == |req.path|
    ensures req.queryString != "" ==> r[|req.path|] == '?' && r[|req.path| + 1..] == req.queryString
  {
    if req.queryString == "" then req.path else req.path + "?" + req.queryString
  }

  /** Rack's `Request#url`: scheme, `://`, host and port, path and query. The
      port appears, as `:` and decimal digits reading back as the port,
      exactly when it is not the scheme's default. */
  function Url(req: Request): (r: string)
    ensures req.scheme + "://" + req.host <= r
    ensures |r| >= |req.scheme| + 3 + |req.host| + |FullPath(req)|
    ensures r[|r| - |FullPath(req)|..] == FullPath(req)
    ensures DefaultPort(req.scheme) == Some(req.port) ==>
              r == req.scheme + "://" + req.host + FullPath(req)
    ensures DefaultPort(req.scheme) != Some(req.port) ==>
              var k := |req.scheme| + 3 + |req.host|;
              var j := |r| - |FullPath(req)|;
              && k + 1 < j && r[k] == ':'
              && (forall i :: k < i < j ==> IsDigit(r[i]))
              && DigitsValue(r[k + 1..j]) == req.port
  {
    var r := req.scheme + "://" + HostWithPort(req) + FullPath(req);
    if DefaultPort(req.scheme) == Some(req.port) then r
    else
      var digits := NatToString(req.port);
      var k := |req.scheme| + 3 + |req.host|;
      assert r == req.scheme + "://" + req.host + ":" + digits + FullPath(req);
      assert r[k + 1..|r| - |FullPath(req)|] == digits;
      NatToStringRoundTrip(req.port);
      r
  }
}
