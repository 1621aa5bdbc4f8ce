/** Proxy.Handle: the two request kinds, the reverse proxy behind them, and its error hooks. */
module Handle {
  import opened Wrappers
  import opened Http
  import opened Storage
  import opened Incoming
  import opened Jenkins
  import opened Lookup
  import opened CookieUtil
  import opened Buffer
  import opened ProxyState
  import opened ReverseProxy
  import opened UIRequests
  import opened UIOutcomes
  import opened GitHub

  /** The clock and the database's answers when a forwarded request is recorded. */
  datatype VisitAnswers = VisitAnswers(now: int, stat: StatAnswers)

  function Values(cookies: seq<Cookie>): set<string> {
    set c | c in cookies :: c.value
  }

  function ExpiredAll(cookies: seq<Cookie>): seq<SetCookie> {
    seq(|cookies|, i requires 0 <= i < |cookies| => Expired(cookies[i]))
  }

  method InvalidateSession(p: Proxy, w: ResponseWriter, sessionCookies: seq<Cookie>)
    modifies p`proxyCache, w
    ensures p.proxyCache == old(p.proxyCache) - Values(sessionCookies)
    ensures w.sent == WithCookies(old(w.sent), ExpiredAll(sessionCookies))
  {
    assert Values(sessionCookies[..0]) == {};
    assert ExpiredAll(sessionCookies[..0]) == [];
    for i := 0 to |sessionCookies|
      invariant p.proxyCache == old(p.proxyCache) - Values(sessionCookies[..i])
      invariant w.sent == WithCookies(old(w.sent), ExpiredAll(sessionCookies[..i]))
    {
      var cookie := sessionCookies[i];
      if cookie.value in p.proxyCache {
        p.proxyCache := p.proxyCache - {cookie.value};
      }
      ExpireCookie(w, cookie);
      assert sessionCookies[..i + 1] == sessionCookies[..i] + [cookie];
      assert Values(sessionCookies[..i + 1]) == Values(sessionCookies[..i]) + {cookie.value};
      assert ExpiredAll(sessionCookies[..i + 1]) == ExpiredAll(sessionCookies[..i]) + [Expired(cookie)];
    }
    assert sessionCookies[..|sessionCookies|] == sessionCookies;
  }

  /** The check of a single session cookie against Jenkins: 200 is valid, 403 is not, and
      anything else (None: no answer) is an error. */
  method CheckSessionValidity(reply: Option<int>) returns (valid: bool, err: bool)
    ensures valid <==> reply == Some(200)
    ensures err <==> reply != Some(200) && reply != Some(403)
  {
    if reply.None? {
      return false, true;
    }
    if reply.value == 200 {
      return true, false;
    }
    if reply.value == 403 {
      return false, false;
    }
    return false, true;
  }

  /** The sessions of a forbidden request are dropped if it has several session cookies, whose
      validity is not checked, or one that Jenkins calls invalid. */
  predicate Drops(cookies: seq<Cookie>, code: int, reply: Option<int>) {
    code == 403 && (|Filter(cookies, IsSession)| > 1 || reply == Some(403))
  }

  /** The source indexes the first session cookie: a caller must bring one. */
  method OnErrorUIRequest(p: Proxy, w: ResponseWriter, cookies: seq<Cookie>, code: int, reply: Option<int>)
    returns (err: bool)
    requires code == 403 ==> exists c :: c in cookies && IsSession(c.name)
    modifies p`proxyCache, w
    ensures code != 403 ==> p.proxyCache == old(p.proxyCache) && w.sent == old(w.sent)
    ensures code == 403 ==> p.proxyCache == if |Filter(cookies, IsSession)| > 1 || reply == Some(403)
                                            then old(p.proxyCache) - Values(Filter(cookies, IsSession)) else old(p.proxyCache)
    ensures p.proxyCache == if Drops(cookies, code, reply) then old(p.proxyCache) - Values(Filter(cookies, IsSession))
                            else old(p.proxyCache)
    ensures w.sent == if Drops(cookies, code, reply) then WithCookies(old(w.sent), ExpiredAll(Filter(cookies, IsSession)))
                      else old(w.sent)
    ensures err <==> code == 403 && |Filter(cookies, IsSession)| <= 1 && reply != Some(200) && reply != Some(403)
  {
    if code != 403 {
      return false;
    }
    var sessionCookies := FilterCookies(cookies, IsSession);
    ghost var at := FilterMeaning(cookies, IsSession);
    if |sessionCookies| > 1 {
      InvalidateSession(p, w, sessionCookies);
      return false;
    }
    var first := sessionCookies[0];
    var valid, failed := CheckSessionValidity(reply);
    if failed {
      return true;
    }
    if !valid {
      InvalidateSession(p, w, sessionCookies);
    }
    return false;
  }

  /** What a forwarded request whose response is still open comes to, by the upstream's status: after
      403, 502, 503 or 504 the browser is redirected to where it is, and only after 403 are sessions
      dropped: all of several, or the only one if Jenkins calls it invalid. */
  ghost predicate SeesUpstream(sent: Response, cache: SessionCache, before: SessionCache, cookies: seq<Cookie>,
                               self: string, upstream: seq<Call>, k: nat, reply: Option<int>)
    requires StatusFirst(upstream, k)
  {
    var code := upstream[k].code;
    if code == 403 || code == 502 || code == 503 || code == 504 then
      && sent.status == Some(302) && sent.location == Some(Here(self)) && sent.body == []
      && if code == 403 && (|Filter(cookies, IsSession)| > 1 || reply == Some(403)) then
        && cache == before - Values(Filter(cookies, IsSession))
        && forall c :: c in cookies && IsSession(c.name) ==> Expired(c) in sent.cookies
      else cache == before
    else
      sent.status == Some(code) && sent.body == Written(upstream) && cache == before
  }

  lemma ExpiredAllMeaning(cookies: seq<Cookie>)
    ensures forall c :: c in cookies ==> Expired(c) in ExpiredAll(cookies)
  {
    forall c | c in cookies ensures Expired(c) in ExpiredAll(cookies) {
      var i :| 0 <= i < |cookies| && cookies[i] == c;
      assert ExpiredAll(cookies)[i] == Expired(c);
    }
  }

  /** The response and the cache after the recorder has played the upstream's calls. */
  function Served(played: Recording, cookies: seq<Cookie>, self: string, reply: Option<int>, cache: SessionCache)
    : (Response, SessionCache)
  {
    if !played.err then (played.inner, cache)
    else
      var drops := Drops(cookies, played.statusCode, reply);
      var sessions := Filter(cookies, IsSession);
      ((if drops then WithCookies(played.inner, ExpiredAll(sessions)) else played.inner).Redirect(Here(self), 302),
       if drops then cache - Values(sessions) else cache)
  }

  lemma UpstreamSeen(before: Response, upstream: seq<Call>, k: nat, cookies: seq<Cookie>, self: string, reply: Option<int>,
                     cache: SessionCache)
    requires before.status.None? && before.body == [] && StatusFirst(upstream, k)
    ensures var (sent, cache') := Served(Play(Begin(before), upstream), cookies, self, reply, cache);
            SeesUpstream(sent, cache', cache, cookies, self, upstream, k, reply)
  {
    RecorderAllOrNothing(before, upstream, k, self);
    assert [] + Written(upstream) == Written(upstream);
    var at := FilterMeaning(cookies, IsSession);
    ExpiredAllMeaning(Filter(cookies, IsSession));
  }

  /** ServeHTTP for a UI request: the upstream's answer through the recorder, then the error hook
      and the redirect if the recorder held something back. */
  method ServeUI(p: Proxy, w: ResponseWriter, cookies: seq<Cookie>, self: string, upstream: seq<Call>, reply: Option<int>)
    requires exists c :: c in cookies && IsSession(c.name)
    modifies p`proxyCache, w
    ensures var played := Play(Begin(old(w.sent)), upstream);
            && (!played.err ==> w.sent == played.inner && p.proxyCache == old(p.proxyCache))
            && (played.err ==>
                  && (played.inner.status.None? ==> w.sent.status == Some(302) && w.sent.location == Some(Here(self)))
                  && w.sent.body == played.inner.body
                  && p.proxyCache == (if played.statusCode == 403 && (|Filter(cookies, IsSession)| > 1 || reply == Some(403))
                                      then old(p.proxyCache) - Values(Filter(cookies, IsSession)) else old(p.proxyCache))
                  && (played.statusCode == 403 ==>
                        || (forall c :: c in cookies && IsSession(c.name) ==>
                              && c.value !in p.proxyCache
                              && (played.inner.status.None? ==> Expired(c) in w.sent.cookies))
                        || (|Filter(cookies, IsSession)| == 1 && reply != Some(403))))
    ensures old(w.sent).status.None? && old(w.sent).body == [] ==>
              forall k: nat :: StatusFirst(upstream, k) ==>
                SeesUpstream(w.sent, p.proxyCache, old(p.proxyCache), cookies, self, upstream, k, reply)
  {
    ghost var before, cache := w.sent, p.proxyCache;
    var err, code := ReverseProxy.Forward(w, upstream);
    ghost var at := FilterMeaning(cookies, IsSession);
    ExpiredAllMeaning(Filter(cookies, IsSession));
    if err {
      var _ := OnErrorUIRequest(p, w, cookies, code, reply);
      w.Redirect(Here(self), 302);
    }
    forall k: nat | before.status.None? && before.body == [] && StatusFirst(upstream, k)
      ensures SeesUpstream(w.sent, p.proxyCache, cache, cookies, self, upstream, k, reply)
    {
      UpstreamSeen(before, upstream, k, cookies, self, reply, cache);
    }
  }

  /** A UI request from start to end. If it is forwarded it has a session cookie; and if Jenkins
      then calls it forbidden, either all its sessions are forgotten and, unless the response is
      already under way, their cookies expired, or it had one session cookie which the check did
      not find invalid. A blocked answer becomes a redirect to the address asked for. */
  method HandleUIRequest(p: Proxy, w: ResponseWriter, r: HttpRequest, self: string, a: UIAnswers, visit: VisitAnswers,
                         upstream: seq<Call>, reply: Option<int>)
    returns (forwarded: bool)
    requires NamedStats(p.store.statistics)
    requires w.sent == EMPTY
    modifies p`proxyCache, p.store`statistics, p.idler, w, r
    ensures var result := HandleUI(SiteOf(p), old(StateOf(p, w)), UIRequests.RequestOf(r), a);
            var played := Play(Begin(result.state.resp), upstream);
            && forwarded == result.target.Some?
            && (!forwarded ==> StateOf(p, w) == result.state)
            && (forwarded ==>
                  && (exists c :: c in r.cookies && IsSession(c.name))
                  && p.idler.unidled == old(p.idler.unidled)
                  && Recorded(old(p.store.statistics), p.store.statistics, result.target.value.ns, visit.now, 0, visit.stat)
                  && r.host == result.target.value.route && r.scheme == result.target.value.scheme)
            && (forwarded && !played.err ==> w.sent == played.inner && p.proxyCache == result.state.cache)
            && (forwarded && played.err ==>
                  && (played.inner.status.None? ==> w.sent.status == Some(302) && w.sent.location == Some(Here(self)))
                  && w.sent.body == played.inner.body
                  && p.proxyCache == (if played.statusCode == 403 && (|Filter(r.cookies, IsSession)| > 1 || reply == Some(403))
                                      then result.state.cache - Values(Filter(r.cookies, IsSession)) else result.state.cache))
            && (forwarded && played.err && played.statusCode == 403 ==>
                  || (forall c :: c in r.cookies && IsSession(c.name) ==>
                        && c.value !in p.proxyCache
                        && (played.inner.status.None? ==> Expired(c) in w.sent.cookies))
                  || (|Filter(r.cookies, IsSession)| == 1 && reply != Some(403)))
    ensures var result := HandleUI(SiteOf(p), old(StateOf(p, w)), UIRequests.RequestOf(r), a);
            forwarded && result.state.resp.status.None? ==>
              forall k: nat :: StatusFirst(upstream, k) ==>
                SeesUpstream(w.sent, p.proxyCache, result.state.cache, r.cookies, self, upstream, k, reply)
    ensures NamedStats(p.store.statistics)
  {
    ghost var result := HandleUI(SiteOf(p), StateOf(p, w), UIRequests.RequestOf(r), a);
    ghost var before := StateOf(p, w);
    var _, ns, ok := HandleJenkinsUIRequest(p, w, r, a);
    if !ok {
      return false;
    }
    ghost var k := ForwardedUntouchedIff(SiteOf(p), before, UIRequests.RequestOf(r), a);
    assert r.cookies[k] in r.cookies;
    RecordStatsMeaning(p.store.statistics, ns, visit.now, 0, visit.stat);
    var _ := RecordStatistics(p.store, ns, visit.now, 0, visit.stat);
    ServeUI(p, w, r.cookies, self, upstream, reply);
    return true;
  }

  /** ServeHTTP for a webhook, whose error hook does nothing: the status is already on its way. */
  method ServeHook(w: ResponseWriter, self: string, upstream: seq<Call>)
    requires w.sent.status.Some?
    modifies w
    ensures w.sent.status == old(w.sent.status)
  {
    CommittedStays(Begin(w.sent), upstream);
    var err, _ := ReverseProxy.Forward(w, upstream);
    if err {
      w.Redirect(Here(self), 302);
    }
  }

  /** A webhook from start to end. If its repository cannot be served, its sender sees 500 and nothing
      changes. If its pod runs, it is readdressed, handed to the reverse proxy and its sender told 200,
      whatever Jenkins answers. Else it is buffered. */
  method HandleWebhook(p: Proxy, cfg: Settings, w: ResponseWriter, r: HttpRequest, self: string, a: HookAnswers,
                       visit: VisitAnswers, upstream: seq<Call>)
    returns (forwarded: bool)
    requires NamedStats(p.store.statistics)
    requires w.sent == EMPTY
    modifies p`tenantCache, p.store, p.idler, w, r
    ensures w.sent.status == Some(old(SenderStatus(cfg, p.clusters, p.tenantCache, r.headers, p.store.requests, a)))
    ensures p.store.requests == old(RowsAfter(cfg, p.clusters, p.tenantCache, r.Message([]), p.store.requests, a))
    ensures w.sent.status in {Some(200), Some(202), Some(500)}
    ensures forwarded <==> w.sent.status == Some(200)
    ensures w.sent.status == Some(202) ==>
              && a.id !in old(p.store.requests) && a.id in p.store.requests
              && var ns := p.store.requests[a.id].namespace;
                 ns in p.store.statistics && (a.now != 0 ==> p.store.statistics[ns].lastBuffered == a.now)
    ensures w.sent.status == Some(500) ==>
              && p.store.statistics == old(p.store.statistics)
              && (p.store.requests == old(p.store.requests) || !(a.stat.read && a.stat.write))
    ensures p.tenantCache == if a.body.Some? && cfg.hook(a.body.value).Some?
                             then CachedLookup(old(p.tenantCache), cfg.hook(a.body.value).value, a.backend, 15).1
                             else old(p.tenantCache)
    ensures (forall n :: !Serves(cfg, p.clusters, old(p.tenantCache), a, n)) ==>
              w.sent.status == Some(500) && HookStateOf(p) == old(HookStateOf(p))
    ensures forall n :: Serves(cfg, p.clusters, old(p.tenantCache), a, n) && a.state == Some(Running) ==>
              && forwarded
              && r.host == "jenkins-" + n.name + "." + p.clusters[n.clusterURL] && r.urlHost == r.host && r.scheme == "https"
              && p.store.requests == old(p.store.requests) && p.idler.unidled == old(p.idler.unidled)
              && Recorded(old(p.store.statistics), p.store.statistics, n.name, visit.now, 0, visit.stat)
    ensures forall n :: Serves(cfg, p.clusters, old(p.tenantCache), a, n) && a.state != Some(Running) ==>
              && !forwarded
              && w.sent.status.Some?
              && Buffers(cfg, p.clusters, n, old(r.Message([])), a, old(HookStateOf(p)), w.sent.status.value, HookStateOf(p))
    ensures NamedStats(p.store.statistics)
  {
    ghost var tenants, s, m := p.tenantCache, HookStateOf(p), r.Message([]);
    DecideMeaning(cfg, p.clusters, tenants, a);
    BuffersWebhook(cfg, p.clusters, tenants, m, a, s);
    var ns, ok := HandleGitHubRequest(p, cfg, w, r, a);
    if !ok {
      return false;
    }
    var _ := RecordStatistics(p.store, ns, visit.now, 0, visit.stat);
    RecordStatsMeaning(s.stats, ns, visit.now, 0, visit.stat);
    ServeHook(w, self, upstream);
    return true;
  }
}
