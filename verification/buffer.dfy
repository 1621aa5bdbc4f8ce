/** The consumer of the webhook buffer: replay, retry counting and deletion. */
module Buffer {
  import opened Wrappers
  import opened Http
  import opened Storage
  import opened RequestCodec
  import opened Jenkins
  import opened Lookup
  import opened ProxyState
  import Tenant

  /** The retry limit, the codecs, and how a payload reads as a hook with a repository URL. */
  datatype Settings = Settings(max: int, codec: Codec, hook: Bytes -> Option<string>)

  /** The answers of the outside world while one row is visited: lookups, pod state, clock,
      statistics calls, the HTTP status of the replay (None if it got no answer), and whether
      saving and deleting the row succeed. */
  datatype RowAnswers = RowAnswers(
    backend: nat -> Backends,
    state: Option<PodState>,
    now: int,
    stat: StatAnswers,
    send: Option<int>,
    save: bool,
    delete: bool)

  /** The answers during one pass. A pass visits a row at most once, so giving them per row
      leaves the outside world free to answer anything at any time. */
  datatype PassAnswers = PassAnswers(
    users: Table -> Option<seq<string>>,
    fetch: (string, Table) -> Option<seq<ID>>,
    row: ID -> RowAnswers)

  /** The database's contract: an answer lists what is stored, in any order. */
  ghost predicate Honest(a: PassAnswers) {
    && (forall m: Table :: a.users(m).Some? ==> ListsNamespaces(a.users(m).value, m))
    && (forall ns: string, m: Table :: a.fetch(ns, m).Some? ==> Lists(a.fetch(ns, m).value, m, ns))
  }

  datatype Stores = Stores(requests: Table, statistics: map<string, Statistics>, tenants: Cache)

  function Current(p: Proxy): Stores
    reads p, p.store
  {
    Stores(p.store.requests, p.store.statistics, p.tenantCache)
  }

  /** What happens to a visited row. */
  datatype Fate = Kept | Bumped | Removed

  datatype Verdict = Verdict(fate: Fate, stop: bool)

  /** Jenkins took the webhook (200) or refused it for good (400, 404). */
  predicate Settled(send: Option<int>) {
    send == Some(200) || send == Some(400) || send == Some(404)
  }

  predicate SeesState(found: Option<Tenant.Namespace>, a: RowAnswers) {
    found.Some? && UsableNamespace(found.value) && a.state.Some?
  }

  predicate SeesRunning(found: Option<Tenant.Namespace>, a: RowAnswers) {
    SeesState(found, a) && a.state.value.Running?
  }

  function Judge(cfg: Settings, r: Request, found: Option<Tenant.Namespace>, a: RowAnswers): Verdict {
    if !SeesRunning(found, a) then Verdict(Kept, true) else JudgeRunning(cfg, r, a)
  }

  /** ... when its Jenkins runs. */
  function JudgeRunning(cfg: Settings, r: Request, a: RowAnswers): Verdict {
    if !Formats(cfg.codec, r) then Verdict(if a.delete then Removed else Kept, true)
    else if r.retries >= cfg.max || Settled(a.send) then Verdict(if a.delete then Removed else Kept, false)
    else Verdict(if a.save then Bumped else if a.delete then Removed else Kept, true)
  }

  function Apply(m: Table, r: Request, fate: Fate): Table {
    match fate
    case Kept => m
    case Bumped => m[r.id := r.(retries := r.retries + 1)]
    case Removed => m - {r.id}
  }

  function VisitRow(cfg: Settings, s: Stores, r: Request, a: RowAnswers): (Stores, bool) {
    match cfg.hook(r.payload)
    case None => (s, true)
    case Some(url) =>
      var (found, tenants) := CachedLookup(s.tenants, url, a.backend, DEFAULT_RETRY);
      var v := Judge(cfg, r, found, a);
      var statistics := if SeesState(found, a) then RecordStats(s.statistics, r.namespace, 0, a.now, a.stat)
                        else s.statistics;
      (Stores(Apply(s.requests, r, v.fate), statistics, tenants), v.stop)
  }

  function VisitRows(cfg: Settings, s: Stores, pending: seq<Request>, a: PassAnswers): Stores
    decreases |pending|
  {
    if pending == [] then s
    else
      var (s', stop) := VisitRow(cfg, s, pending[0], a.row(pending[0].id));
      if stop then s' else VisitRows(cfg, s', pending[1..], a)
  }

  function VisitNamespace(cfg: Settings, s: Stores, ns: string, a: PassAnswers): Stores
    requires Honest(a)
  {
    match a.fetch(ns, s.requests)
    case None => s
    case Some(order) => VisitRows(cfg, s, Snapshot(s.requests, order), a)
  }

  function VisitNamespaces(cfg: Settings, s: Stores, names: seq<string>, a: PassAnswers): Stores
    requires Honest(a)
    decreases |names|
  {
    if names == [] then s
    else VisitNamespaces(cfg, VisitNamespace(cfg, s, names[0], a), names[1..], a)
  }

  function Pass(cfg: Settings, s: Stores, a: PassAnswers): Stores
    requires Honest(a)
  {
    match a.users(s.requests)
    case None => s
    case Some(names) => VisitNamespaces(cfg, s, names, a)
  }

  function Passes(cfg: Settings, s: Stores, passes: seq<PassAnswers>): Stores
    requires forall a :: a in passes ==> Honest(a)
    decreases |passes|
  {
    if passes == [] then s else Passes(cfg, Pass(cfg, s, passes[0]), passes[1..])
  }

  /** Any number of turns of the endless buffer loop. */
  method ProcessBuffer(p: Proxy, cfg: Settings, passes: seq<PassAnswers>)
    requires cfg.max == p.maxRequestRetry
    requires forall a :: a in passes ==> Honest(a)
    requires NamedStats(p.store.statistics)
    modifies p`tenantCache, p.store`requests, p.store`statistics
    ensures Current(p) == Passes(cfg, old(Current(p)), passes)
    ensures NamedStats(p.store.statistics)
  {
    var t := 0;
    while t < |passes|
      invariant 0 <= t <= |passes|
      invariant NamedStats(p.store.statistics)
      invariant Passes(cfg, old(Current(p)), passes) == Passes(cfg, Current(p), passes[t..])
    {
      var a := passes[t];
      assert Honest(a) by {
        assert a in passes;
      }
      ghost var before := Current(p);
      var namespaces := p.store.GetUsers(a.users(p.store.requests));
      if namespaces.Some? {
        var names := namespaces.value;
        var n := 0;
        while n < |names|
          invariant 0 <= n <= |names|
          invariant NamedStats(p.store.statistics)
          invariant VisitNamespaces(cfg, before, names, a) == VisitNamespaces(cfg, Current(p), names[n..], a)
        {
          n := n + 1;
          ghost var start := Current(p);
          var requests := p.store.GetRequests(names[n - 1], a.fetch(names[n - 1], p.store.requests));
          if requests.None? {
            continue;
          }
          ReplayRows(p, cfg, names[n - 1], requests.value, a);
        }
      }
      t := t + 1;
    }
  }

  /** The loop over the rows of one namespace. */
  method ReplayRows(p: Proxy, cfg: Settings, ns: string, requests: seq<Request>, a: PassAnswers)
    requires cfg.max == p.maxRequestRetry
    requires forall r :: r in requests ==> r.namespace == ns
    requires NamedStats(p.store.statistics)
    modifies p`tenantCache, p.store`requests, p.store`statistics
    ensures Current(p) == VisitRows(cfg, old(Current(p)), requests, a)
    ensures NamedStats(p.store.statistics)
  {
    var j := 0;
    while j < |requests|
      invariant 0 <= j <= |requests|
      invariant NamedStats(p.store.statistics)
      invariant VisitRows(cfg, old(Current(p)), requests, a) == VisitRows(cfg, Current(p), requests[j..], a)
    {
      var r := requests[j];
      assert requests[j..][0] == r && requests[j..][1..] == requests[j + 1..];
      var stop := ReplayRow(p, cfg, ns, r, a.row(r.id));
      if stop {
        break;
      }
      j := j + 1;
    }
  }

  /** The body of that loop; `stop` stands for the loop's break. */
  method ReplayRow(p: Proxy, cfg: Settings, ns: string, r: Request, a: RowAnswers) returns (stop: bool)
    requires cfg.max == p.maxRequestRetry
    requires r.namespace == ns
    requires NamedStats(p.store.statistics)
    modifies p`tenantCache, p.store`requests, p.store`statistics
    ensures (Current(p), stop) == VisitRow(cfg, old(Current(p)), r, a)
    ensures NamedStats(p.store.statistics)
  {
    var gh := cfg.hook(r.payload);
    if gh.None? {
      return true;
    }
    var namespace, _ := GetUserWithRetry(p, gh.value, a.backend, DEFAULT_RETRY);
    if namespace.None? || !UsableNamespace(namespace.value) || a.state.None? {
      return true;
    }
    var _ := RecordStatistics(p.store, ns, 0, a.now, a.stat);
    if a.state.value.Running? {
      stop := Send(p, cfg, r, a);
    } else {
      // No other row of this namespace is tried while its Jenkins is not running.
      stop := true;
    }
  }

  /** ... its part for a running Jenkins. */
  method Send(p: Proxy, cfg: Settings, r: Request, a: RowAnswers) returns (stop: bool)
    requires cfg.max == p.maxRequestRetry
    modifies p.store`requests
    ensures var v := JudgeRunning(cfg, r, a);
            p.store.requests == Apply(old(p.store.requests), r, v.fate) && stop == v.stop
  {
    var req := GetHTTPRequest(cfg.codec, r);
    if req.None? {
      var _ := p.store.DeleteRequest(r, a.delete);
      return true;
    }
    if r.retries < p.maxRequestRetry {
      if a.send.None? {
        var _ := p.store.IncrementRequestRetry(r, a.save, a.delete);
        return true;
      }
      var status := a.send.value;
      if !(status == 200 || status == 404 || status == 400) {
        var _ := p.store.IncrementRequestRetry(r, a.save, a.delete);
        return true;
      }
    }
    // Tried too many times, answered with 200, or refused with 404 or 400.
    var _ := p.store.DeleteRequest(r, a.delete);
    return false;
  }
}
