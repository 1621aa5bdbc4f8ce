/** The webhook handler: forward to a running Jenkins, or buffer and start it. */
module GitHub {
  import opened Wrappers
  import opened Http
  import opened Storage
  import opened RequestCodec
  import opened Incoming
  import opened Jenkins
  import opened Lookup
  import opened Buffer
  import opened ProxyState
  import Tenant

  /** The answers of the outside world to one webhook: its body, the lookups, the pod state,
      the fresh row id, the database and clock, and the attempt to start the pod. */
  datatype HookAnswers = HookAnswers(
    body: Option<Bytes>,
    backend: nat -> Backends,
    state: Option<PodState>,
    id: ID,
    create: bool,
    now: int,
    stat: StatAnswers,
    start: StartAnswers)

  /** What is decided about a webhook before anything is written. */
  datatype Triage = Failed | Forwarded(item: CacheItem) | Buffered(item: CacheItem)

  /** The namespace to serve and the route of its Jenkins. */
  function Located(clusters: map<string, string>, found: Option<Tenant.Namespace>): Option<CacheItem> {
    if found.None? || !UsableNamespace(found.value) then None
    else
      var n := found.value;
      match ConstructRoute(clusters, n.clusterURL, n.name)
      case None => None
      case Some((route, scheme)) => Some(CacheItem(n.clusterURL, n.name, route, scheme))
  }

  function Decide(cfg: Settings, clusters: map<string, string>, tenants: Cache, a: HookAnswers): Triage {
    if a.body.None? || cfg.hook(a.body.value).None? then Failed
    else match Located(clusters, CachedLookup(tenants, cfg.hook(a.body.value).value, a.backend, DEFAULT_RETRY).0)
      case None => Failed
      case Some(item) =>
        if a.state.None? then Failed
        else if a.state.value.Running? then Forwarded(item)
        else Buffered(item)
  }

  /** The tenant cache after the webhook. */
  function TenantsAfter(cfg: Settings, tenants: Cache, a: HookAnswers): Cache {
    if a.body.None? || cfg.hook(a.body.value).None? then tenants
    else CachedLookup(tenants, cfg.hook(a.body.value).value, a.backend, DEFAULT_RETRY).1
  }

  /** The row is created: the webhook is to be buffered, its headers encode, and the database obeys. */
  predicate StoresRow(cfg: Settings, clusters: map<string, string>, tenants: Cache, headers: Headers, rows: Table, a: HookAnswers) {
    && Decide(cfg, clusters, tenants, a).Buffered?
    && cfg.codec.encode(headers).Some?
    && a.create && a.id !in rows
  }

  /** The row that a webhook leaves in the store. */
  function BufferedRow(cfg: Settings, clusters: map<string, string>, tenants: Cache, m: Message, rows: Table, a: HookAnswers): Request
    requires StoresRow(cfg, clusters, tenants, m.headers, rows, a)
  {
    var item := Decide(cfg, clusters, tenants, a).item;
    RowOf(cfg.codec, m.(scheme := item.scheme, host := item.route, body := a.body.value), item.ns, a.body.value, a.id)
  }

  /** The stored rows after the webhook. */
  function RowsAfter(cfg: Settings, clusters: map<string, string>, tenants: Cache, m: Message, rows: Table, a: HookAnswers): Table {
    if StoresRow(cfg, clusters, tenants, m.headers, rows, a)
    then rows[a.id := BufferedRow(cfg, clusters, tenants, m, rows, a)]
    else rows
  }

  /** The status the sender of a webhook gets. */
  function SenderStatus(cfg: Settings, clusters: map<string, string>, tenants: Cache, headers: Headers, rows: Table, a: HookAnswers): int {
    if Decide(cfg, clusters, tenants, a).Forwarded? then 200
    else if StoresRow(cfg, clusters, tenants, headers, rows, a) && a.stat.read && a.stat.write then 202
    else 500
  }

  /** The webhook reads as a hook, its repository belongs to namespace n, whose Jenkins has a route,
      and the state of its pod is known. */
  ghost predicate Serves(cfg: Settings, clusters: map<string, string>, tenants: Cache, a: HookAnswers, n: Tenant.Namespace) {
    && a.body.Some? && cfg.hook(a.body.value).Some?
    && CachedLookup(tenants, cfg.hook(a.body.value).value, a.backend, 15).0 == Some(n)
    && n.name != "" && n.clusterURL != ""
    && n.clusterURL in clusters && clusters[n.clusterURL] != ""
    && a.state.Some?
  }

  /** What a webhook may change besides the tenant cache. */
  datatype HookState = HookState(rows: Table, stats: map<string, Statistics>, unidled: seq<Pod>)

  function HookStateOf(p: Proxy): HookState
    reads p.store, p.idler
  {
    HookState(p.store.requests, p.store.statistics, p.idler.unidled)
  }

  /** A webhook for a pod that is not running: it is stored, readdressed, under its fresh id if its
      headers encode and the database obeys; then its buffering is recorded; 202 says that all of this
      succeeded, and 500 that something did not. The pod is unidled in any case, if it is idled. */
  ghost predicate Buffers(cfg: Settings, clusters: map<string, string>, n: Tenant.Namespace, m: Message, a: HookAnswers,
                          s: HookState, status: int, t: HookState)
    requires n.clusterURL in clusters && a.body.Some?
  {
    && t.unidled == (if a.start.state == Some(Idled) then s.unidled + [Pod(n.name, n.clusterURL)] else s.unidled)
    && if cfg.codec.encode(m.headers).Some? && a.create && a.id !in s.rows then
      && t.rows == s.rows[a.id := Request(a.id, m.verb, cfg.codec.encode(m.headers).value, a.body.value,
                                          "jenkins-" + n.name + "." + clusters[n.clusterURL], "https", m.path, n.name, 0)]
      && Recorded(s.stats, t.stats, n.name, 0, a.now, a.stat)
      && status == (if a.stat.read && a.stat.write then 202 else 500)
    else
      status == 500 && t.rows == s.rows && t.stats == s.stats
  }

  lemma DecideMeaning(cfg: Settings, clusters: map<string, string>, tenants: Cache, a: HookAnswers)
    ensures forall n :: Serves(cfg, clusters, tenants, a, n) ==>
              var item := CacheItem(n.clusterURL, n.name, "jenkins-" + n.name + "." + clusters[n.clusterURL], "https");
              Decide(cfg, clusters, tenants, a) == if a.state.value.Running? then Forwarded(item) else Buffered(item)
    ensures (forall n :: !Serves(cfg, clusters, tenants, a, n)) <==> Decide(cfg, clusters, tenants, a).Failed?
  {
    if !Decide(cfg, clusters, tenants, a).Failed? {
      var n := CachedLookup(tenants, cfg.hook(a.body.value).value, a.backend, 15).0.value;
      assert Serves(cfg, clusters, tenants, a, n);
    }
  }

  /** What the functions above make of it. */
  function AfterHook(cfg: Settings, clusters: map<string, string>, tenants: Cache, m: Message, a: HookAnswers, s: HookState): HookState {
    var d := Decide(cfg, clusters, tenants, a);
    HookState(RowsAfter(cfg, clusters, tenants, m, s.rows, a),
              if StoresRow(cfg, clusters, tenants, m.headers, s.rows, a) then RecordStats(s.stats, d.item.ns, 0, a.now, a.stat) else s.stats,
              if d.Buffered? then AfterStart(s.unidled, Pod(d.item.ns, d.item.clusterURL), a.start) else s.unidled)
  }

  /** They say just this. */
  lemma BuffersWebhook(cfg: Settings, clusters: map<string, string>, tenants: Cache, m: Message, a: HookAnswers, s: HookState)
    ensures forall n :: Serves(cfg, clusters, tenants, a, n) && a.state != Some(Running) ==>
              Buffers(cfg, clusters, n, m, a, s, SenderStatus(cfg, clusters, tenants, m.headers, s.rows, a),
                      AfterHook(cfg, clusters, tenants, m, a, s))
    ensures (forall n :: !Serves(cfg, clusters, tenants, a, n)) || a.state == Some(Running) ==>
              AfterHook(cfg, clusters, tenants, m, a, s) == s
  {
    DecideMeaning(cfg, clusters, tenants, a);
    forall n | Serves(cfg, clusters, tenants, a, n) && a.state != Some(Running)
      ensures Buffers(cfg, clusters, n, m, a, s, SenderStatus(cfg, clusters, tenants, m.headers, s.rows, a),
                      AfterHook(cfg, clusters, tenants, m, a, s))
    {
      RecordStatsMeaning(s.stats, n.name, 0, a.now, a.stat);
    }
  }

  method HandleGitHubRequest(p: Proxy, cfg: Settings, w: ResponseWriter, r: HttpRequest, a: HookAnswers)
    returns (ns: string, okToForward: bool)
    requires NamedStats(p.store.statistics)
    modifies p`tenantCache, p.store, p.idler, w, r
    ensures var d := old(Decide(cfg, p.clusters, p.tenantCache, a));
            && p.tenantCache == TenantsAfter(cfg, old(p.tenantCache), a)
            && okToForward == d.Forwarded?
            && w.sent == old(w.sent).WriteHeader(
                 old(SenderStatus(cfg, p.clusters, p.tenantCache, r.headers, p.store.requests, a)))
            && (d.Failed? || (ns == d.item.ns && r.host == d.item.route && r.urlHost == r.host && r.scheme == d.item.scheme))
            && HookStateOf(p) == old(AfterHook(cfg, p.clusters, p.tenantCache, r.Message([]), a, HookStateOf(p)))
    ensures NamedStats(p.store.statistics)
  {
    ns, okToForward := "", false;
    if a.body.None? {
      w.HandleError();
      return;
    }
    var body := a.body.value;
    var gh := cfg.hook(body);
    if gh.None? {
      w.HandleError();
      return;
    }
    ghost var m := r.Message([]);
    var pod, located := Locate(p, r, gh.value, a.backend);
    ns := pod.ns;
    if !located || a.state.None? {
      w.HandleError();
      return;
    }
    if !a.state.value.Running? {
      assert r.Message(body) == m.(scheme := r.scheme, host := r.host, body := body);
      StoreGHRequest(p, cfg, w, r, ns, body, a);
      ghost var sent := w.sent;
      var _, _, err := Start(p.idler, pod, a.start);
      if err {
        w.HandleError();
        assert w.sent == sent;
      }
      return;
    }
    okToForward := true;
    w.WriteHeader(200);
  }

  /** The stretch of the handler that looks up the repository's namespace and readdresses the
      request to its Jenkins. */
  method Locate(p: Proxy, r: HttpRequest, url: string, backend: nat -> Backends) returns (pod: Pod, located: bool)
    modifies p`tenantCache, r
    ensures var (found, tenants) := CachedLookup(old(p.tenantCache), url, backend, DEFAULT_RETRY);
            && p.tenantCache == tenants
            && located == Located(p.clusters, found).Some?
            && (located ==> Located(p.clusters, found).value == CacheItem(pod.clusterURL, pod.ns, r.host, r.scheme) && r.urlHost == r.host)
  {
    var namespace, _ := GetUserWithRetry(p, url, backend, DEFAULT_RETRY);
    if namespace.None? {
      return Pod("", ""), false;
    }
    pod := Pod(namespace.value.name, namespace.value.clusterURL);
    if !UsableNamespace(namespace.value) {
      return pod, false;
    }
    var route := ConstructRoute(p.clusters, pod.clusterURL, pod.ns);
    if route.None? {
      return pod, false;
    }
    r.Readdress(route.value.0, route.value.1);
    return pod, true;
  }

  method StoreGHRequest(p: Proxy, cfg: Settings, w: ResponseWriter, r: HttpRequest, ns: string, body: Bytes, a: HookAnswers)
    requires NamedStats(p.store.statistics)
    modifies p.store, w
    ensures var stores := cfg.codec.encode(r.headers).Some? && a.create && a.id !in old(p.store.requests);
            && w.sent == old(w.sent).WriteHeader(if stores && a.stat.read && a.stat.write then 202 else 500)
            && p.store.requests == (if stores then old(p.store.requests)[a.id := RowOf(cfg.codec, r.Message(body), ns, body, a.id)]
                                    else old(p.store.requests))
            && p.store.statistics == (if stores then RecordStats(old(p.store.statistics), ns, 0, a.now, a.stat)
                                      else old(p.store.statistics))
    ensures NamedStats(p.store.statistics)
  {
    var sr := NewRequest(cfg.codec, r.Message(body), ns, body, a.id);
    if sr.None? {
      w.HandleError();
      return;
    }
    var err := p.store.CreateRequest(sr.value, a.create);
    if err {
      w.HandleError();
      return;
    }
    err := RecordStatistics(p.store, ns, 0, a.now, a.stat);
    if err {
      w.HandleError();
      return;
    }
    w.WriteHeader(202);
    w.Write([]);
  }
}
