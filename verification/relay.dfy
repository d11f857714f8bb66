/** The relay ("fetcher") hop of the proxy: the `fetch` handler of
    server.js. It reads the target from the `q` query parameter, rejects a
    missing or unparsable target, rewrites the outbound headers so the request
    looks as if it came from a page on the target site, forwards the request
    with redirects left unfollowed, and returns the upstream answer with CORS
    opened. The network call and the URL parser are external and appear here
    as function parameters. */
module Relay {
  import opened Wrappers
  import opened HeaderMaps
  import SearchParams

  /** The parts of a parsed WHATWG URL object that the relay reads. */
  datatype Url = Url(href: string, hostname: string, origin: string)

  /** `new URL(text)`: an external parser that yields a URL or throws
      (`None`). */
  type UrlParser = string -> Option<Url>

  /** A body: an opaque stream passed along untouched, or text the relay
      writes itself. */
  datatype Body = NoBody | Stream(token: nat) | Text(content: string)

  /** The inbound request: its method, the decoded query of its URL, its
      headers and its body. */
  datatype Request = Request(httpMethod: string, search: seq<SearchParams.Param>, headers: HeaderMap, body: Body)

  /** The `redirect` option of `fetch`. */
  datatype RedirectMode = Follow | Error | Manual

  /** The arguments the relay hands to `fetch`. */
  datatype Outbound = Outbound(target: Url, httpMethod: string, headers: HeaderMap, body: Body, redirect: RedirectMode)

  datatype Response = Response(status: int, statusText: string, headers: HeaderMap, body: Body)

  /** What the external `fetch` call does: resolves to a response or throws
      an error carrying a message. */
  datatype FetchOutcome = Fetched(response: Response) | Threw(message: string)

  /** The external network call. */
  type Upstream = Outbound -> FetchOutcome

  /** The handler's decision before any network call: answer at once, or
      forward this request. */
  datatype Decision = Reject(response: Response) | Forward(outbound: Outbound)

  /** One run of the handler: the response it returns and the outbound
      requests it issued, in order. */
  datatype Exchange = Exchange(response: Response, sent: seq<Outbound>)

  const NoTargetMessage := "Middleman: No target specified"
  const InvalidUrlMessage := "Middleman: Invalid URL"
  const ErrorPrefix := "Middleman Error: "

  /** The content type a `Response` built from a string body receives. */
  const TextContentType := "text/plain;charset=UTF-8"

  /** Platform and proxy headers deleted from every outbound request, in the
      order the handler deletes them. */
  const ProxyHeaders: seq<string> :=
    ["cf-connecting-ip", "cf-worker", "cf-ray", "cf-visitor", "x-real-ip", "x-forwarded-proto", "x-forwarded-for"]

  /** A header the relay forces to a value derived from the target. */
  predicate IsForced(name: string) {
    SameName(name, "Host") || SameName(name, "Referer") || SameName(name, "Origin")
  }

  /** A header that never leaves the relay, under any spelling. */
  predicate IsProxyHeader(name: string) {
    Lower(name) in ProxyHeaders
  }

  /** A CORS header the relay adds to every forwarded response. */
  predicate IsCorsHeader(name: string) {
    SameName(name, "Access-Control-Allow-Origin") || SameName(name, "Access-Control-Expose-Headers")
  }

  // The name lemmas below model nothing in the handler. Each states the
  // lower-cased form of one literal header name (or that a literal is not a
  // proxy header) in a lemma of its own, so that proofs can call it
  // instead of lower-casing the literal in a larger context, which is costly.

  /** The forced names, as `Headers` stores them. */
  lemma ForcedNames()
    ensures Lower("Host") == "host" && Lower("Referer") == "referer" && Lower("Origin") == "origin"
  {
  }

  lemma AllowOriginName()
    ensures Lower("Access-Control-Allow-Origin") == "access-control-allow-origin"
  {
  }

  lemma ExposeHeadersName()
    ensures Lower("Access-Control-Expose-Headers") == "access-control-expose-headers"
  {
  }

  /** No proxy header is one of the forced headers, so deleting the proxy
      headers never undoes the forcing. */
  lemma ForcedNotProxy()
    ensures "host" !in ProxyHeaders && "referer" !in ProxyHeaders && "origin" !in ProxyHeaders
  {
  }

  lemma ContentTypeName()
    ensures Lower("Content-Type") == "content-type"
  {
  }

  /** The proxy headers are spelled in lower case, so each is its own key. */
  lemma ProxyHeadersLower()
    ensures forall d :: d in ProxyHeaders ==> Lower(d) == d
  {
    assert IsLowerName("cf-connecting-ip");
    assert IsLowerName("cf-worker");
    assert IsLowerName("cf-ray");
    assert IsLowerName("cf-visitor");
    assert IsLowerName("x-real-ip");
    assert IsLowerName("x-forwarded-proto");
    assert IsLowerName("x-forwarded-for");
  }

  /** JavaScript truthiness of `searchParams.get("q")`: `null` and `""` are
      falsy. */
  predicate Falsy(q: Option<string>) {
    q.None? || q.value == ""
  }

  /** `new Response(text, { status })`: an empty status text and a plain-text
      content type. */
  function TextResponse(status: int, text: string): (r: Response)
    ensures r.status == status && r.body == Text(text) && r.statusText == ""
    ensures Get(r.headers, "Content-Type") == Some(TextContentType)
    ensures forall n :: !SameName(n, "Content-Type") ==> Get(r.headers, n) == None
  {
    ContentTypeName();
    Response(status, "", map["content-type" := TextContentType], Text(text))
  }

  /** The keys a list of header names denotes. */
  function LowerSet(names: seq<string>): set<string> {
    set n | n in names :: Lower(n)
  }

  /** `names.forEach(h => headers.delete(h))`: deleting the names one after
      another removes exactly the headers they denote and nothing else. */
  function DeleteAll(h: HeaderMap, names: seq<string>): (r: HeaderMap)
    ensures r.Keys == h.Keys - LowerSet(names)
    ensures forall k :: k in r ==> r[k] == h[k]
    decreases |names|
  {
    if |names| == 0 then h
    else
      var r := DeleteAll(Delete(h, names[0]), names[1..]);
      assert LowerSet(names) == {Lower(names[0])} + LowerSet(names[1..]) by {
        assert names == [names[0]] + names[1..];
      }
      r
  }

  /** `get` after the deletions: absent for every spelling of a deleted name,
      unchanged for every other name. */
  lemma GetAfterDeleteAll(h: HeaderMap, names: seq<string>, n: string)
    ensures Get(DeleteAll(h, names), n) == if Lower(n) in LowerSet(names) then None else Get(h, n)
  {
  }

  /** The header set just before the proxy headers are deleted. */
  function ForceTargetHeaders(h: HeaderMap, target: Url): HeaderMap {
    var noHost := Delete(h, "Host");
    var withHost := Set(noHost, "Host", target.hostname);
    var withReferer := Set(withHost, "Referer", target.origin + "/");
    Set(withReferer, "Origin", target.origin)
  }

  /** The outbound header set: a copy of the inbound headers with `Host`,
      `Referer` and `Origin` forced from the target, then the proxy headers
      deleted. */
  function Sanitize(inbound: HeaderMap, target: Url): (out: HeaderMap)
    ensures Get(out, "Host") == Some(target.hostname)
    ensures Get(out, "Referer") == Some(target.origin + "/")
    ensures Get(out, "Origin") == Some(target.origin)
    ensures forall n :: IsProxyHeader(n) ==> Get(out, n) == None
    ensures forall n :: !IsForced(n) && !IsProxyHeader(n) ==> Get(out, n) == Get(inbound, n)
  {
    var out := DeleteAll(ForceTargetHeaders(inbound, target), ProxyHeaders);
    SanitizeGets(inbound, target);
    out
  }

  /** What the outbound `get(n)` answers, name by name: the reference
      definition of the sanitisation policy. */
  function OutboundValue(inbound: HeaderMap, target: Url, n: string): Option<string> {
    if Lower(n) in ProxyHeaders then None
    else if Lower(n) == "host" then Some(target.hostname)
    else if Lower(n) == "referer" then Some(target.origin + "/")
    else if Lower(n) == "origin" then Some(target.origin)
    else Get(inbound, n)
  }

  /** `get` on the header set after the three forced headers are written. */
  lemma GetAfterForce(h: HeaderMap, target: Url, n: string)
    ensures Get(ForceTargetHeaders(h, target), n)
         == if Lower(n) == "host" then Some(target.hostname)
            else if Lower(n) == "referer" then Some(target.origin + "/")
            else if Lower(n) == "origin" then Some(target.origin)
            else Get(h, n)
  {
    ForcedNames();
  }

  /** Every outbound `get` agrees with the reference policy. */
  lemma SanitizeGet(inbound: HeaderMap, target: Url, n: string)
    ensures Get(DeleteAll(ForceTargetHeaders(inbound, target), ProxyHeaders), n) == OutboundValue(inbound, target, n)
  {
    ProxyHeadersLower();
    var forced := ForceTargetHeaders(inbound, target);
    assert Lower(n) in LowerSet(ProxyHeaders) <==> Lower(n) in ProxyHeaders;
    GetAfterDeleteAll(forced, ProxyHeaders, n);
    GetAfterForce(inbound, target, n);
  }

  /** The proof obligations of `Sanitize`, gathered from `SanitizeGet`. */
  lemma SanitizeGets(inbound: HeaderMap, target: Url)
    ensures var out := DeleteAll(ForceTargetHeaders(inbound, target), ProxyHeaders);
      && Get(out, "Host") == Some(target.hostname)
      && Get(out, "Referer") == Some(target.origin + "/")
      && Get(out, "Origin") == Some(target.origin)
      && (forall n :: IsProxyHeader(n) ==> Get(out, n) == None)
      && (forall n :: !IsForced(n) && !IsProxyHeader(n) ==> Get(out, n) == Get(inbound, n))
  {
    var out := DeleteAll(ForceTargetHeaders(inbound, target), ProxyHeaders);
    ForcedNames();
    ForcedNotProxy();
    SanitizeGet(inbound, target, "Host");
    SanitizeGet(inbound, target, "Referer");
    SanitizeGet(inbound, target, "Origin");
    forall n | IsProxyHeader(n)
      ensures Get(out, n) == None
    {
      SanitizeGet(inbound, target, n);
    }
    forall n | !IsForced(n) && !IsProxyHeader(n)
      ensures Get(out, n) == Get(inbound, n)
    {
      SanitizeGet(inbound, target, n);
    }
  }

  /** The response header set: a copy of the upstream headers with CORS
      opened to every origin and `Location` exposed to scripts. */
  function Decorate(upstream: HeaderMap): (r: HeaderMap)
    ensures Get(r, "Access-Control-Allow-Origin") == Some("*")
    ensures Get(r, "Access-Control-Expose-Headers") == Some("Location")
    ensures forall n :: !IsCorsHeader(n) ==> Get(r, n) == Get(upstream, n)
  {
    AllowOriginName();
    ExposeHeadersName();
    var copied := upstream;
    var allowed := Set(copied, "Access-Control-Allow-Origin", "*");
    Set(allowed, "Access-Control-Expose-Headers", "Location")
  }

  /** The `fetch(targetUrl, { method, headers, body, redirect })` call. */
  function BuildOutbound(req: Request, target: Url): (o: Outbound)
    ensures o.target == target && o.httpMethod == req.httpMethod && o.body == req.body
    ensures o.redirect == Manual
    ensures Get(o.headers, "Host") == Some(target.hostname)
    ensures forall n :: IsProxyHeader(n) ==> Get(o.headers, n) == None
  {
    Outbound(target, req.httpMethod, Sanitize(req.headers, target), req.body, Manual)
  }

  /** Target extraction and validation, then outbound request construction. */
  function Gate(req: Request, parse: UrlParser): (d: Decision)
    ensures Falsy(SearchParams.Get(req.search, "q")) ==>
              d == Reject(TextResponse(400, NoTargetMessage))
    ensures !Falsy(SearchParams.Get(req.search, "q")) && parse(SearchParams.Get(req.search, "q").value).None? ==>
              d == Reject(TextResponse(400, InvalidUrlMessage))
    ensures d.Forward? <==> !Falsy(SearchParams.Get(req.search, "q")) && parse(SearchParams.Get(req.search, "q").value).Some?
    ensures d.Forward? ==> d.outbound.target == parse(SearchParams.Get(req.search, "q").value).value
  {
    var q := SearchParams.Get(req.search, "q");
    if q.None? || q.value == "" then Reject(TextResponse(400, NoTargetMessage))
    else
      match parse(q.value)
      case None => Reject(TextResponse(400, InvalidUrlMessage))
      case Some(target) => Forward(BuildOutbound(req, target))
  }

  /** What the handler returns once `fetch` has resolved or thrown. */
  function Complete(outcome: FetchOutcome): (r: Response)
    ensures outcome.Fetched? ==>
              r.status == outcome.response.status && r.statusText == outcome.response.statusText
              && r.body == outcome.response.body
    ensures outcome.Fetched? ==> Get(r.headers, "Access-Control-Allow-Origin") == Some("*")
    ensures outcome.Fetched? ==> Get(r.headers, "Access-Control-Expose-Headers") == Some("Location")
    ensures outcome.Fetched? ==> forall n :: !IsCorsHeader(n) ==> Get(r.headers, n) == Get(outcome.response.headers, n)
    ensures outcome.Threw? ==> r == TextResponse(500, ErrorPrefix + outcome.message)
  {
    match outcome
    case Fetched(upstream) => Response(upstream.status, upstream.statusText, Decorate(upstream.headers), upstream.body)
    case Threw(message) => TextResponse(500, ErrorPrefix + message)
  }

  /** The whole `fetch` handler, given the URL parser and the network. */
  function Handle(req: Request, parse: UrlParser, upstream: Upstream): (x: Exchange)
    ensures |x.sent| <= 1
    ensures Falsy(SearchParams.Get(req.search, "q")) ==>
              x == Exchange(TextResponse(400, NoTargetMessage), [])
    ensures !Falsy(SearchParams.Get(req.search, "q")) && parse(SearchParams.Get(req.search, "q").value).None? ==>
              x == Exchange(TextResponse(400, InvalidUrlMessage), [])
    ensures !Falsy(SearchParams.Get(req.search, "q")) && parse(SearchParams.Get(req.search, "q").value).Some? ==>
              && |x.sent| == 1
              && x.sent[0].target == parse(SearchParams.Get(req.search, "q").value).value
              && x.sent[0].httpMethod == req.httpMethod
              && x.sent[0].body == req.body
              && x.sent[0].redirect == Manual
              && x.sent[0].headers == Sanitize(req.headers, x.sent[0].target)
              && x.response == Complete(upstream(x.sent[0]))
  {
    match Gate(req, parse)
    case Reject(response) => Exchange(response, [])
    case Forward(outbound) => Exchange(Complete(upstream(outbound)), [outbound])
  }
}
