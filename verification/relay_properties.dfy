/** Properties of the relay hop that relate several calls or hold for every
    input: the sanitisation policy stated independently, its idempotence
    under a second relay hop, the absence of any outbound call on rejection,
    and what the error responses carry. */
module RelayProperties {
  import opened Wrappers
  import opened HeaderMaps
  import SearchParams
  import opened Relay

  /** The outbound headers answer every `get` exactly as the name-by-name
      policy says: forced value, absent, or the inbound value. */
  lemma SanitizeMatchesPolicy(inbound: HeaderMap, target: Url, n: string)
    ensures Get(Sanitize(inbound, target), n) == OutboundValue(inbound, target, n)
  {
    SanitizeGet(inbound, target, n);
  }

  /** Deleting the proxy headers first and forcing `Host`, `Referer` and
      `Origin` afterwards gives the same header set as the handler's order. */
  lemma {:induction false} SanitizeOrderIrrelevant(inbound: HeaderMap, target: Url)
    ensures Sanitize(inbound, target) == ForceTargetHeaders(DeleteAll(inbound, ProxyHeaders), target)
  {
    var a := Sanitize(inbound, target);
    var b := ForceTargetHeaders(DeleteAll(inbound, ProxyHeaders), target);
    ProxyHeadersLower();
    ForcedNotProxy();
    forall n
      ensures Get(a, n) == Get(b, n)
    {
      SanitizeGet(inbound, target, n);
      GetAfterForce(DeleteAll(inbound, ProxyHeaders), target, n);
      GetAfterDeleteAll(inbound, ProxyHeaders, n);
      assert Lower(n) in LowerSet(ProxyHeaders) <==> Lower(n) in ProxyHeaders;
    }
    GetExtensional(a, b);
  }

  /** The delete of `Host` before it is set changes nothing: `set` alone
      already replaces any inbound value. */
  lemma HostDeleteRedundant(h: HeaderMap, hostname: string)
    ensures Set(Delete(h, "Host"), "Host", hostname) == Set(h, "Host", hostname)
  {
    ForcedNames();
  }

  /** A second relay hop that re-sanitises for the same target changes
      nothing. */
  lemma {:induction false} SanitizeIdempotent(inbound: HeaderMap, target: Url)
    ensures Sanitize(Sanitize(inbound, target), target) == Sanitize(inbound, target)
  {
    var once := Sanitize(inbound, target);
    var twice := Sanitize(once, target);
    forall n
      ensures Get(twice, n) == Get(once, n)
    {
      SanitizeGet(once, target, n);
      SanitizeGet(inbound, target, n);
      var k := Lower(n);
      if k in ProxyHeaders || k == "host" || k == "referer" || k == "origin" {
        assert OutboundValue(once, target, n) == OutboundValue(inbound, target, n);
      } else {
        assert OutboundValue(once, target, n) == Get(once, n);
      }
    }
    GetExtensional(twice, once);
  }

  /** One name at a time: a header whose key is forced or removed can only
      influence outbound names with that same key, and those do not look at
      the inbound value. */
  lemma OverriddenGet(inbound: HeaderMap, target: Url, name: string, value: string, n: string)
    requires Lower(name) in ProxyHeaders || Lower(name) in {"host", "referer", "origin"}
    ensures OutboundValue(Set(inbound, name, value), target, n) == OutboundValue(inbound, target, n)
    ensures OutboundValue(Delete(inbound, name), target, n) == OutboundValue(inbound, target, n)
  {
    var k := Lower(n);
    if !(k in ProxyHeaders || k == "host" || k == "referer" || k == "origin") {
      assert k != Lower(name);
      assert !SameName(n, name);
    }
  }

  /** Whatever the client sends under a forced or a proxy header name, in
      any spelling, has no effect on the outbound headers: setting or
      deleting such a header inbound leaves the outbound set unchanged. */
  lemma SanitizeIgnoresOverridden(inbound: HeaderMap, target: Url, name: string, value: string)
    requires IsForced(name) || IsProxyHeader(name)
    ensures Sanitize(Set(inbound, name, value), target) == Sanitize(inbound, target)
    ensures Sanitize(Delete(inbound, name), target) == Sanitize(inbound, target)
  {
    ForcedNames();
    assert Lower(name) in ProxyHeaders || Lower(name) in {"host", "referer", "origin"};
    forall n
      ensures Get(Sanitize(Set(inbound, name, value), target), n) == Get(Sanitize(inbound, target), n)
      ensures Get(Sanitize(Delete(inbound, name), target), n) == Get(Sanitize(inbound, target), n)
    {
      OverriddenGet(inbound, target, name, value, n);
      SanitizeGet(inbound, target, n);
      SanitizeGet(Set(inbound, name, value), target, n);
      SanitizeGet(Delete(inbound, name), target, n);
    }
    GetExtensional(Sanitize(Set(inbound, name, value), target), Sanitize(inbound, target));
    GetExtensional(Sanitize(Delete(inbound, name), target), Sanitize(inbound, target));
  }

  // Literal-name facts used by the User-Agent proof. Like the name lemmas
  // in the relay module, they model nothing and only keep that proof cheap.

  lemma UserAgentName()
    ensures Lower("User-Agent") == "user-agent"
  {
  }

  lemma UserAgentNotRemoved()
    ensures "user-agent" !in ProxyHeaders
    ensures "user-agent" != "host" && "user-agent" != "referer" && "user-agent" != "origin"
  {
  }

  /** The client's `User-Agent` reaches the target unchanged. */
  lemma UserAgentPassesThrough(inbound: HeaderMap, target: Url)
    ensures Get(Sanitize(inbound, target), "User-Agent") == Get(inbound, "User-Agent")
  {
    UserAgentName();
    UserAgentNotRemoved();
    SanitizeGet(inbound, target, "User-Agent");
  }

  /** Decorating an already decorated header set changes nothing. */
  lemma DecorateIdempotent(h: HeaderMap)
    ensures Decorate(Decorate(h)) == Decorate(h)
  {
  }

  /** A rejected request never reaches the network: the response and the
      (empty) record of outbound calls are the same whatever the network
      would have done. */
  lemma RejectNeverCallsUpstream(req: Request, parse: UrlParser, u1: Upstream, u2: Upstream)
    requires Gate(req, parse).Reject?
    ensures Handle(req, parse, u1) == Handle(req, parse, u2)
    ensures Handle(req, parse, u1).sent == []
    ensures Handle(req, parse, u1).response.status == 400
  {
  }

  /** Every request the handler sends targets the URL parsed from a
      non-empty `q` and carries none of the proxy headers. */
  lemma SentRequestsAreValidated(req: Request, parse: UrlParser, upstream: Upstream)
    ensures forall o :: o in Handle(req, parse, upstream).sent ==>
              && !Falsy(SearchParams.Get(req.search, "q"))
              && parse(SearchParams.Get(req.search, "q").value) == Some(o.target)
              && (forall n :: IsProxyHeader(n) ==> Get(o.headers, n) == None)
              && o.redirect == Manual
  {
    var x := Handle(req, parse, upstream);
    forall o | o in x.sent
      ensures forall n :: IsProxyHeader(n) ==> Get(o.headers, n) == None
    {
      assert o == x.sent[0];
      assert o.headers == Sanitize(req.headers, o.target);
    }
  }

  /** The responses the relay writes itself (400 and 500) carry no CORS
      headers; only forwarded upstream responses are opened. */
  lemma OwnResponsesCarryNoCors(req: Request, parse: UrlParser, upstream: Upstream)
    requires Gate(req, parse).Reject? || upstream(Gate(req, parse).outbound).Threw?
    ensures Get(Handle(req, parse, upstream).response.headers, "Access-Control-Allow-Origin") == None
  {
    AllowOriginName();
    ContentTypeName();
  }
}
