/** Series of UI requests: where cached sessions come from and where requests are forwarded. */
module UIRuns {
  import opened Wrappers
  import opened Http
  import opened Storage
  import opened Jenkins
  import opened CookieUtil
  import opened UIRequests
  import opened UIOutcomes
  import Tenant

  /** What changes the session cache: a request, the expiry of an entry, or the invalidation of
      sessions that Jenkins calls forbidden. */
  datatype Event = Serve(req: UIRequest, a: UIAnswers) | Expiry(key: string) | Invalidate(keys: set<string>)

  datatype World = World(cache: SessionCache, stats: map<string, Statistics>)

  const FRESH := World(map[], map[])

  function Respond(site: Site, w: World, req: UIRequest, a: UIAnswers): UIResult {
    HandleUI(site, UIState(w.cache, w.stats, EMPTY, []), req, a)
  }

  function AfterEvent(site: Site, w: World, e: Event): World {
    match e
    case Serve(req, a) => var s := Respond(site, w, req, a).state; World(s.cache, s.stats)
    case Expiry(key) => w.(cache := w.cache - {key})
    case Invalidate(keys) => w.(cache := w.cache - keys)
  }

  function After(site: Site, events: seq<Event>): World {
    if events == [] then FRESH
    else AfterEvent(site, After(site, events[..|events| - 1]), events[|events| - 1])
  }

  lemma {:induction false} ScanShrinksCache(cookies: seq<Cookie>, i: nat, s: Scan, a: nat -> CookieAnswers)
    requires i <= |cookies|
    ensures var cache := ScanFrom(cookies, i, s, a).0.state.cache;
            forall key :: key in cache ==> key in s.state.cache && cache[key] == s.state.cache[key]
    decreases |cookies| - i
  {
    if i < |cookies| {
      var (s', flow) := ScanOne(cookies, cookies[i], s, a(i));
      if flow.Next? {
        ScanShrinksCache(cookies, i + 1, s', a);
      }
    }
  }

  /** The event is a token request that stores a session under this key: the fresh uuid of the
      idled cookie while the pod is not up, and the value of Jenkins' last session cookie after a
      login with status 200. */
  predicate StoresUnder(site: Site, e: Event, key: string) {
    && e.Serve? && e.a.redirectParses && e.req.tokenJSON.Some? && e.req.tokenJSON.value != []
    && var t := e.a.token;
       && ResolveToken(site.clusters, e.a.authClient, t).Some?
       && t.openshiftToken && CanStart(t.start)
       && if !t.start.state.value.Running? then key == t.uuid
          else
            && t.login.Some? && t.login.value.status == 200
            && LastSession(t.login.value.cookies).Some?
            && LastSession(t.login.value.cookies).value.value == key
  }

  /** ... and this is the session: that of the first Jenkins namespace of the token's user. */
  ghost predicate Stores(site: Site, e: Event, key: string, item: CacheItem) {
    StoresUnder(site, e, key) && LeadsTo(site.clusters, e.a.authClient, e.a.token, item)
  }

  predicate Holds(w: World, key: string, item: CacheItem) {
    key in w.cache && w.cache[key] == item
  }

  lemma StoringEvent(site: Site, w: World, e: Event, key: string, item: CacheItem)
    requires Stores(site, e, key, item)
    ensures AfterEvent(site, w, e).cache == w.cache[key := item]
  {
    TokenLeads(site.clusters, e.a.authClient, e.a.token);
  }

  /** An event that stores under a key leaves that session there; any other leaves the key as it
      was or without a session. */
  lemma EventEntries(site: Site, w: World, e: Event, key: string, item: CacheItem)
    ensures StoresUnder(site, e, key) ==> (Holds(AfterEvent(site, w, e), key, item) <==> Stores(site, e, key, item))
    ensures !StoresUnder(site, e, key) && Holds(AfterEvent(site, w, e), key, item) ==> Holds(w, key, item)
  {
    if e.Serve? && e.req.tokenJSON.Some? {
      TokenLeads(site.clusters, e.a.authClient, e.a.token);
    } else if e.Serve? {
      ScanShrinksCache(e.req.cookies, 0, StartScan(UIState(w.cache, w.stats, EMPTY, [])), e.a.cookie);
    }
  }

  lemma StoredIsWellRouted(site: Site, e: Event, key: string, item: CacheItem)
    requires Stores(site, e, key, item)
    ensures WellRouted(site.clusters, item)
  {
  }

  /** The cache holds the session under the key after the first m events. */
  ghost predicate HeldAfter(site: Site, events: seq<Event>, m: nat, key: string, item: CacheItem)
    requires m <= |events|
  {
    Holds(After(site, events[..m]), key, item)
  }

  /** Event j stored the session under the key, no later event stored anything under it, and the
      cache has held it there ever since. */
  ghost predicate StoredAt(site: Site, events: seq<Event>, j: nat, key: string, item: CacheItem) {
    && j < |events| && Stores(site, events[j], key, item)
    && (forall m: nat :: j < m < |events| ==> !StoresUnder(site, events[m], key))
    && (forall m: nat :: j < m <= |events| ==> HeldAfter(site, events, m, key, item))
  }

  /** What is held after event m was stored by it or held before it. */
  lemma HeldBefore(site: Site, events: seq<Event>, m: nat, key: string, item: CacheItem)
    requires m < |events| && HeldAfter(site, events, m + 1, key, item)
    ensures if StoresUnder(site, events[m], key) then Stores(site, events[m], key, item)
            else HeldAfter(site, events, m, key, item)
  {
    var some := events[..m + 1];
    assert some[..|some| - 1] == events[..m] && some[|some| - 1] == events[m];
    EventEntries(site, After(site, events[..m]), events[m], key, item);
  }

  /** Going back from position n to the last one that stores. */
  lemma {:induction false} LastStoring(stores: nat -> bool, held: nat -> bool, n: nat) returns (j: nat)
    requires !held(0) && held(n)
    requires forall m: nat :: m < n && held(m + 1) && !stores(m) ==> held(m)
    ensures j < n && stores(j)
    ensures forall m: nat :: j < m < n ==> !stores(m)
    ensures forall m: nat :: j < m <= n ==> held(m)
    decreases n
  {
    j := n - 1;
    if !stores(n - 1) {
      assert held(n - 1 + 1);
      j := LastStoring(stores, held, n - 1);
    }
  }

  lemma LastStore(site: Site, events: seq<Event>, key: string, item: CacheItem) returns (j: nat)
    requires Holds(After(site, events), key, item)
    ensures StoredAt(site, events, j, key, item)
  {
    var stores := (m: nat) => m < |events| && StoresUnder(site, events[m], key);
    var held := (m: nat) => m <= |events| && HeldAfter(site, events, m, key, item);
    HeldBack(site, events, key, item, stores, held);
    j := LastStoring(stores, held, |events|);
    StoredThere(site, events, j, key, item, stores, held);
  }

  lemma HeldBack(site: Site, events: seq<Event>, key: string, item: CacheItem, stores: nat -> bool, held: nat -> bool)
    requires forall m: nat :: stores(m) == (m < |events| && StoresUnder(site, events[m], key))
    requires forall m: nat :: held(m) == (m <= |events| && HeldAfter(site, events, m, key, item))
    ensures forall m: nat :: m < |events| && held(m + 1) && !stores(m) ==> held(m)
    ensures !held(0) && held(|events|) == Holds(After(site, events), key, item)
  {
    assert events[..|events|] == events;
    forall m: nat | m < |events| && held(m + 1) && !stores(m) ensures held(m) {
      HeldBefore(site, events, m, key, item);
    }
  }

  lemma StoredThere(site: Site, events: seq<Event>, j: nat, key: string, item: CacheItem,
                    stores: nat -> bool, held: nat -> bool)
    requires forall m: nat :: stores(m) == (m < |events| && StoresUnder(site, events[m], key))
    requires forall m: nat :: held(m) == (m <= |events| && HeldAfter(site, events, m, key, item))
    requires j < |events| && stores(j) && held(j + 1)
    requires forall m: nat :: j < m < |events| ==> !stores(m)
    requires forall m: nat :: j < m <= |events| ==> held(m)
    ensures StoredAt(site, events, j, key, item)
  {
    HeldBefore(site, events, j, key, item);
    forall m: nat | j < m <= |events| ensures HeldAfter(site, events, m, key, item) {
      assert held(m);
    }
    forall m: nat | j < m < |events| ensures !StoresUnder(site, events[m], key) {
      assert !stores(m);
    }
  }

  /** After any series of events, the cache holds a session under a key exactly if some token
      request stored it there and it has stayed there since. */
  lemma EntriesAreStored(site: Site, events: seq<Event>, key: string, item: CacheItem)
    ensures Holds(After(site, events), key, item) <==> exists j: nat :: StoredAt(site, events, j, key, item)
  {
    assert events[..|events|] == events;
    if Holds(After(site, events), key, item) {
      var j := LastStore(site, events, key, item);
    }
    if j: nat :| StoredAt(site, events, j, key, item) {
      assert HeldAfter(site, events, |events|, key, item);
    }
  }

  /** Every cached session leads over https to the Jenkins route of its own namespace. */
  lemma EntriesAreWellRouted(site: Site, events: seq<Event>, key: string)
    requires key in After(site, events).cache
    ensures WellRouted(site.clusters, After(site, events).cache[key])
  {
    var item := After(site, events).cache[key];
    var j := LastStore(site, events, key, item);
    StoredIsWellRouted(site, events[j], key, item);
  }

  /** After any series of events, a forwarded request goes to the well-formed route that a token
      request last stored under one of the request's session cookies, and that has stayed there. */
  lemma ForwardTarget(site: Site, events: seq<Event>, req: UIRequest, a: UIAnswers) returns (c: Cookie, j: nat)
    requires Respond(site, After(site, events), req, a).target.Some?
    ensures var target := Respond(site, After(site, events), req, a).target.value;
            && c in req.cookies && IsSession(c.name)
            && StoredAt(site, events, j, c.value, target)
            && WellRouted(site.clusters, target)
  {
    var w := After(site, events);
    var target := Respond(site, w, req, a).target.value;
    var k := ForwardedUntouchedIff(site, UIState(w.cache, w.stats, EMPTY, []), req, a);
    c := req.cookies[k];
    j := LastStore(site, events, c.value, target);
    StoredIsWellRouted(site, events[j], c.value, target);
  }

  lemma {:induction false} ScanKeepsUnusable(cookies: seq<Cookie>, i: nat, s: Scan, a: nat -> CookieAnswers, key: string)
    requires i <= |cookies| && key in s.state.cache && !Usable(s.state.cache[key])
    ensures key in ScanFrom(cookies, i, s, a).0.state.cache
    decreases |cookies| - i
  {
    if i < |cookies| {
      var (s', flow) := ScanOne(cookies, cookies[i], s, a(i));
      if flow.Next? {
        ScanKeepsUnusable(cookies, i + 1, s', a, key);
      }
    }
  }

  /** No request removes a session without namespace or cluster: it stays until it expires, is
      invalidated, or another one is stored under its key. */
  lemma UnusableStays(site: Site, w: World, req: UIRequest, a: UIAnswers, key: string)
    requires key in w.cache && !Usable(w.cache[key]) && !StoresUnder(site, Serve(req, a), key)
    ensures Holds(AfterEvent(site, w, Serve(req, a)), key, w.cache[key])
  {
    if req.tokenJSON.None? {
      var start := StartScan(UIState(w.cache, w.stats, EMPTY, []));
      ScanKeepsUnusable(req.cookies, 0, start, a.cookie, key);
      ScanShrinksCache(req.cookies, 0, start, a.cookie);
    }
  }

  const SOME_SITE := Site("https://proxy", map["https://cluster" := "apps.example"])

  function AnswersWith(namespace: string, state: PodState, check: int, uuid: string, session: string): UIAnswers {
    var start := StartAnswers(Some(state), Some(200));
    UIAnswers(true, true,
              TokenAnswers(true, true, Some([Tenant.Namespace(namespace, "https://cluster", Tenant.JENKINS)]), true, start,
                           Some(Login(200, [SetCookie(SESSION, session, false)])), uuid),
              _ => CookieAnswers(start, Some(check), 1, StatAnswers(true, true)))
  }

  /** A user comes while Jenkins is idled, and again when it runs ... */
  function TwoLogins(): seq<Event> {
    var login := UIRequest("/", Some(["token"]), []);
    [Serve(login, AnswersWith("ns-jenkins", Idled, 200, "u", "s")),
     Serve(login, AnswersWith("ns-jenkins", Running, 200, "v", "s"))]
  }

  lemma LastOf(cookies: seq<SetCookie>)
    requires cookies != [] && IsSession(cookies[|cookies| - 1].name)
    ensures LastSession(cookies) == Some(cookies[|cookies| - 1])
  {
  }

  function SomeItem(): CacheItem {
    CacheItem("https://cluster", "ns-jenkins", "jenkins-" + "ns-jenkins" + "." + "apps.example", "https")
  }

  lemma AfterSnoc(site: Site, events: seq<Event>, e: Event)
    ensures After(site, events + [e]) == AfterEvent(site, After(site, events), e)
  {
    assert (events + [e])[..|events|] == events;
  }

  lemma BothAreKnown()
    ensures After(SOME_SITE, TwoLogins()).cache == map["u" := SomeItem(), "s" := SomeItem()]
  {
    var events := TwoLogins();
    var first := AfterEvent(SOME_SITE, FRESH, events[0]);
    assert events == [] + [events[0]] + [events[1]];
    AfterSnoc(SOME_SITE, [], events[0]);
    AfterSnoc(SOME_SITE, [] + [events[0]], events[1]);
    LastOf(events[1].a.token.login.value.cookies);
    TokenLeads(SOME_SITE.clusters, true, events[0].a.token);
    TokenLeads(SOME_SITE.clusters, true, events[1].a.token);
    StoringEvent(SOME_SITE, FRESH, events[0], "u", SomeItem());
    StoringEvent(SOME_SITE, first, events[1], "s", SomeItem());
  }

  /** ... and then with the cookies of both logins, while the route does not answer yet: the
      request is forwarded although 202 has been sent. */
  lemma ForwardedAfter202() returns (req: UIRequest, a: UIAnswers)
    ensures var r := Respond(SOME_SITE, After(SOME_SITE, TwoLogins()), req, a);
            r.target.Some? && r.state.resp.status == Some(202)
  {
    BothAreKnown();
    var w := After(SOME_SITE, TwoLogins());
    req := UIRequest("/", None, [Cookie(JENKINS_IDLED, "u"), Cookie(SESSION, "s")]);
    a := AnswersWith("ns-jenkins", Running, 404, "", "");
    IdledIsNotSession(JENKINS_IDLED);
    var start := StartScan(UIState(w.cache, w.stats, EMPTY, []));
    var (s1, flow) := ScanOne(req.cookies, req.cookies[0], start, a.cookie(0));
    assert flow.Next? && s1.state.resp.status == Some(202) && s1.state.cache == w.cache;
    assert ScanOne(req.cookies, req.cookies[1], s1, a.cookie(1)).1 == Forward(SomeItem());
    assert ScanFrom(req.cookies, 0, start, a.cookie) == ScanFrom(req.cookies, 1, s1, a.cookie);
  }
}
