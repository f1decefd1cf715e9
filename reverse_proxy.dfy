/** The reverse proxy in front of everything: it answers CORS preflights,
    sends the bare `localhost` root to the interface, `/api/` to the API
    server, `/socket.io/` to the socket server, and everything else to the
    deployment's directory in the S3 bucket, chosen by the first label of
    the host name. */
module ReverseProxy {

  import opened Wrappers
  import opened Text

  /** The S3 endpoint of the deployment bucket, as the proxy spells it. The
      literals are split only to keep the verifier's work on them small. */
  const S3BaseUrl: string := "https://uploadserviceforskywalker" + ".s3.ap-south-1.amazonaws.com"
  const S3Host: string := "uploadserviceforskywalker" + ".s3.ap-south-1.amazonaws.com"

  const InterfaceUrl: string := "http://localhost:3000"
  const SocketServerUrl: string := "http://localhost:9001"

  /** What the proxy reads of an incoming request: `req.method`,
      `req.hostname` (the Host header without its port) and `req.url`. */
  datatype Request = Request(httpMethod: string, hostname: string, url: string)

  /** Where the request handler sends a request. */
  datatype Route =
    | Preflight                     // answered here with 200
    | Interface                     // the landing page server
    | ApiServer                     // the deployment API
    | SocketServer                  // the socket.io log server
    | Static(subdomain: string)     // the deployment's S3 directory

  predicate IsApiUrl(url: string)
  {
    StartsWith(url, "/api/")
  }

  predicate IsSocketUrl(url: string)
  {
    StartsWith(url, "/socket.io/")
  }

  /** The URLs the proxy treats as requests for deployed files: the test the
      `proxyReq` and `proxyRes` handlers make. */
  predicate IsStaticUrl(url: string)
  {
    !IsApiUrl(url) && !IsSocketUrl(url)
  }

  /** `hostname.split('.')[0]`. */
  function Subdomain(hostname: string): (first: string)
    ensures StartsWith(hostname, first) && '.' !in first
    ensures |first| < |hostname| ==> hostname[|first|] == '.'
    ensures '.' !in hostname ==> first == hostname
  {
    Before(hostname, '.')
  }

  /** The routing decision of the request handler: the first rule that
      applies, in the order preflight, interface root, API, socket.io, S3. */
  function RouteOf(req: Request): (route: Route)
    ensures route == Preflight <==> req.httpMethod == "OPTIONS"
    ensures route == Interface <==>
      req.httpMethod != "OPTIONS" && req.hostname == "localhost" && req.url == "/"
    ensures route == ApiServer <==>
      req.httpMethod != "OPTIONS" && !(req.hostname == "localhost" && req.url == "/") && IsApiUrl(req.url)
    ensures route == SocketServer <==>
      req.httpMethod != "OPTIONS" && !(req.hostname == "localhost" && req.url == "/")
      && !IsApiUrl(req.url) && IsSocketUrl(req.url)
    ensures route.Static? <==>
      req.httpMethod != "OPTIONS" && !(req.hostname == "localhost" && req.url == "/") && IsStaticUrl(req.url)
    ensures route.Static? ==> route.subdomain == Subdomain(req.hostname)
  {
    if req.httpMethod == "OPTIONS" then Preflight
    else if req.hostname == "localhost" && req.url == "/" then Interface
    else if IsApiUrl(req.url) then ApiServer
    else if IsSocketUrl(req.url) then SocketServer
    else Static(Subdomain(req.hostname))
  }

  /** `process.env.API_SERVER_PORT || 9000`: the configured port when it is
      set and not empty. */
  function ApiServerPort(configured: Option<string>): (port: string)
    ensures configured.Some? && configured.value != "" ==> port == configured.value
    ensures configured.None? || configured.value == "" ==> port == "9000"
  {
    if configured.Some? && configured.value != "" then configured.value else "9000"
  }

  /** The options of a `proxy.web` call: target, `changeOrigin`, `ws`,
      `secure` and the Host header given in `headers`, if any. */
  datatype ProxyOptions = ProxyOptions(target: string, changeOrigin: bool, ws: bool, secure: bool, host: Option<string>)

  /** The S3 directory a static request is served from. */
  function StaticTarget(subdomain: string): (target: string)
    ensures StartsWith(target, S3BaseUrl + "/__outputs/")
    ensures target[|S3BaseUrl + "/__outputs/"|..] == subdomain
  {
    assert (S3BaseUrl + "/__outputs/" + subdomain)[..|S3BaseUrl + "/__outputs/"|] == S3BaseUrl + "/__outputs/";
    S3BaseUrl + "/__outputs/" + subdomain
  }

  /** The `proxy.web` call the handler makes for a route; none for a
      preflight, which is answered without forwarding. */
  function ForwardOptions(route: Route, apiPort: string): (options: Option<ProxyOptions>)
    ensures options.None? <==> route.Preflight?
    ensures options.Some? ==> options.value.changeOrigin
    ensures options.Some? ==> (options.value.ws <==> route.SocketServer?)
    ensures options.Some? ==> (options.value.host.Some? <==> route.Static?)
    ensures route.Static? ==>
      options == Some(ProxyOptions(StaticTarget(route.subdomain), true, false, true, Some(S3Host)))
    ensures route.ApiServer? ==> options.value.target == "http://localhost:" + apiPort
    ensures route.Interface? ==> options.value.target == InterfaceUrl
    ensures route.SocketServer? ==> options.value.target == SocketServerUrl
  {
    match route
    case Preflight => None
    case Interface => Some(ProxyOptions(InterfaceUrl, true, false, false, None))
    case ApiServer => Some(ProxyOptions("http://localhost:" + apiPort, true, false, false, None))
    case SocketServer => Some(ProxyOptions(SocketServerUrl, true, true, false, None))
    case Static(subdomain) => Some(ProxyOptions(StaticTarget(subdomain), true, false, true, Some(S3Host)))
  }

  /** The `upgrade` handler: a WebSocket upgrade is handed to the socket
      server when its URL is under `/socket.io/`; any other upgrade is left
      alone. The result is the target of the `proxy.ws` call, if one is
      made. */
  function UpgradeTarget(url: string): (target: Option<string>)
    ensures target.Some? <==> IsSocketUrl(url)
    ensures target.Some? ==> target.value == SocketServerUrl
  {
    if IsSocketUrl(url) then Some(SocketServerUrl) else None
  }

  /** The CORS response headers of section 3.2 of the WHATWG Fetch Standard
      that the proxy sets on every request it handles: any origin, and fixed
      lists of methods and request headers. Header names are lower case, as
      Node.js keeps them. */
  const CorsHeaders: map<string, string> := map[
    "access-control-allow-origin" := "*",
    "access-control-allow-methods" := "GET, POST, PUT, DELETE, OPTIONS",
    "access-control-allow-headers" := "Origin, X-Requested-With, Content-Type, Accept, Authorization"
  ]

  /** The outgoing request to the upstream: its path and its headers. */
  datatype Outbound = Outbound(path: string, headers: map<string, string>)

  /** What the `proxyReq` handler does to the outgoing request of an
      incoming request with URL `url`: a static request gets the bucket's
      Host header, and the root `/` gets `index.html` appended to its path.
      The test is on the URL alone, whatever the route. */
  function OutboundRewrite(url: string, out: Outbound): (result: Outbound)
    ensures IsStaticUrl(url) ==> result.headers == out.headers["host" := S3Host]
    ensures !IsStaticUrl(url) ==> result.headers == out.headers
    ensures url == "/" ==> result.path == out.path + "index.html"
    ensures url != "/" ==> result.path == out.path
  {
    if IsStaticUrl(url) then
      Outbound(if url == "/" then out.path + "index.html" else out.path, out.headers["host" := S3Host])
    else
      out
  }

  /** The upstream response headers the `proxyRes` handler copies to the
      client for static requests. */
  const AllowedHeaders: seq<string> := ["content-type", "cache-control", "etag"]

  /** A header with a value JavaScript treats as true: present and not
      empty. */
  predicate Truthy(headers: map<string, string>, name: string)
  {
    name in headers && headers[name] != ""
  }

  /** The client response headers after the `proxyRes` handler: for a static
      request each allowed header the upstream sent is copied with its value;
      every other header stays as it was. */
  function CopiedHeaders(url: string, upstream: map<string, string>, headers: map<string, string>)
    : (result: map<string, string>)
    ensures forall name | name in AllowedHeaders && IsStaticUrl(url) && Truthy(upstream, name) ::
      name in result && result[name] == upstream[name]
    ensures forall name | !(name in AllowedHeaders && IsStaticUrl(url) && Truthy(upstream, name)) ::
      (name in result <==> name in headers) && (name in headers ==> result[name] == headers[name])
  {
    if !IsStaticUrl(url) then headers
    else
      var h1 := if Truthy(upstream, "content-type") then headers["content-type" := upstream["content-type"]] else headers;
      var h2 := if Truthy(upstream, "cache-control") then h1["cache-control" := upstream["cache-control"]] else h1;
      if Truthy(upstream, "etag") then h2["etag" := upstream["etag"]] else h2
  }

  /** The outgoing request while `proxy.web` prepares it. */
  class ProxyRequest {
    var path: string
    var headers: map<string, string>

    constructor (path: string, headers: map<string, string>)
      ensures this.path == path && this.headers == headers
    {
      this.path := path;
      this.headers := headers;
    }

    /** The `proxyReq` handler, for an incoming request with URL `url`. */
    method OnProxyReq(url: string)
      modifies this
      ensures Outbound(path, headers) == OutboundRewrite(url, Outbound(old(path), old(headers)))
    {
      if !IsApiUrl(url) && !IsSocketUrl(url) {
        headers := headers["host" := S3Host];
        if url == "/" {
          path := path + "index.html";
        }
      }
    }
  }

  /** The response to the client: headers set so far, status, and the body
      once one has been sent. */
  class ServerResponse {
    var headers: map<string, string>
    var status: int
    var body: Option<string>

    constructor ()
      ensures headers == map[] && status == 200 && body == None
    {
      headers := map[];
      status := 200;
      body := None;
    }

    /** The `proxyRes` handler: copies the allowed upstream headers for a
        static request with URL `url`. */
    method OnProxyRes(url: string, upstream: map<string, string>)
      modifies this
      ensures headers == CopiedHeaders(url, upstream, old(headers))
      ensures status == old(status) && body == old(body)
    {
      if !IsApiUrl(url) && !IsSocketUrl(url) {
        if Truthy(upstream, "content-type") {
          headers := headers["content-type" := upstream["content-type"]];
        }
        if Truthy(upstream, "cache-control") {
          headers := headers["cache-control" := upstream["cache-control"]];
        }
        if Truthy(upstream, "etag") {
          headers := headers["etag" := upstream["etag"]];
        }
      }
    }

    /** The `error` handler of a failed `proxy.web` call: answers 500 with a
        fixed message through `res.send`, which also sets the body's type,
        length and tag. `etag` is the weak tag Express derives from the body;
        `withUtf8` is what Express makes of a content type already set when
        it adds `charset=utf-8` to it. */
    method OnProxyError(etag: string, withUtf8: string -> string)
      modifies this
      ensures status == 500 && body == Some("proxy error occurred")
      ensures headers == SendHeaders(old(headers),
                                     if "content-type" in old(headers) then withUtf8(old(headers)["content-type"])
                                     else "text/html; charset=utf-8",
                                     20, etag)
    {
      status := 500;
      var contentType := if "content-type" in headers then withUtf8(headers["content-type"]) else "text/html; charset=utf-8";
      headers := SendHeaders(headers, contentType, 20, etag);
      body := Some("proxy error occurred");
    }
  }

  /** The decimal digits of `n`. */
  function Decimal(n: nat): (digits: string)
    ensures digits != [] && forall c | c in digits :: '0' <= c <= '9'
  {
    if n < 10 then ["0123456789"[n]] else Decimal(n / 10) + ["0123456789"[n % 10]]
  }

  /** The lengths `res.send` reports for the two fixed bodies. */
  lemma FixedBodyLengths()
    ensures |"proxy error occurred"| == 20 && Decimal(20) == "20"
    ensures |"OK"| == 2 && Decimal(2) == "2"
  {
    assert Decimal(20) == Decimal(2) + ["0123456789"[0]];
  }

  /** The headers `res.send` leaves with a body of `length` bytes: the
      content type it settles on, the length, and `etag` unless a tag is
      already set; every other header stays as it was. */
  function SendHeaders(headers: map<string, string>, contentType: string, length: nat, etag: string): (sent: map<string, string>)
    ensures sent.Keys == headers.Keys + {"content-type", "content-length", "etag"}
    ensures sent["content-type"] == contentType && sent["content-length"] == Decimal(length)
    ensures sent["etag"] == if "etag" in headers then headers["etag"] else etag
    ensures forall name | name in headers && name !in {"content-type", "content-length", "etag"} :: sent[name] == headers[name]
  {
    var typed := headers["content-type" := contentType]["content-length" := Decimal(length)];
    if "etag" in headers then typed else typed["etag" := etag]
  }

  /** Setting the three CORS headers one after the other adds `CorsHeaders`. */
  lemma SetCorsHeaders(headers: map<string, string>)
    ensures headers["access-control-allow-origin" := "*"]
                   ["access-control-allow-methods" := "GET, POST, PUT, DELETE, OPTIONS"]
                   ["access-control-allow-headers" := "Origin, X-Requested-With, Content-Type, Accept, Authorization"]
         == headers + CorsHeaders
  {
  }

  /** The request handler: sets the CORS headers, then either answers a
      preflight itself with `sendStatus(200)` (status 200 and the plain-text
      body `OK`; `etag` is the weak tag Express derives from that body) or
      returns the `proxy.web` call it makes. */
  method HandleRequest(req: Request, res: ServerResponse, apiPort: string, etag: string) returns (forward: Option<ProxyOptions>)
    modifies res
    ensures req.httpMethod == "OPTIONS" ==>
      res.headers == SendHeaders(old(res.headers) + CorsHeaders, "text/plain; charset=utf-8", 2, etag)
    ensures req.httpMethod != "OPTIONS" ==> res.headers == old(res.headers) + CorsHeaders
    ensures forward == ForwardOptions(RouteOf(req), apiPort)
    ensures req.httpMethod == "OPTIONS" ==> res.status == 200 && res.body == Some("OK")
    ensures req.httpMethod != "OPTIONS" ==> res.status == old(res.status) && res.body == old(res.body)
  {
    SetCorsHeaders(res.headers);
    res.headers := res.headers["access-control-allow-origin" := "*"];
    res.headers := res.headers["access-control-allow-methods" := "GET, POST, PUT, DELETE, OPTIONS"];
    res.headers := res.headers["access-control-allow-headers" :=
                                 "Origin, X-Requested-With, Content-Type, Accept, Authorization"];
    if req.httpMethod == "OPTIONS" {
      res.status := 200;
      res.headers := SendHeaders(res.headers, "text/plain; charset=utf-8", 2, etag);
      res.body := Some("OK");
      return None;
    }
    var route := RouteOf(req);
    forward := ForwardOptions(route, apiPort);
  }

  /** Every request whose URL is outside `/api/` and `/socket.io/`, the
      interface root included, leaves with the bucket's Host header. */
  lemma InterfaceRootIsRewrittenToo(out: Outbound)
    ensures RouteOf(Request("GET", "localhost", "/")) == Interface
    ensures OutboundRewrite("/", out) == Outbound(out.path + "index.html", out.headers["host" := S3Host])
  {
  }
}
