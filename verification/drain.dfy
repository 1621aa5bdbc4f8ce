/** With working services and no arrivals, every backlog empties in a bounded number of passes. */
module Drain {
  import opened Wrappers
  import opened Storage
  import opened Jenkins
  import opened Lookup
  import opened Buffer
  import opened Isolation
  import Tenant

  /** How often a row can still be visited: once per remaining attempt and once to delete it. */
  function Weight(max: int, r: Request, ns: string): nat {
    if r.namespace != ns then 0
    else (if max > r.retries then max - r.retries else 0) + 1
  }

  ghost function Backlog(max: int, m: Table, ns: string): nat
    decreases |m|
  {
    if m == map[] then 0
    else
      var id :| id in m;
      Weight(max, m[id], ns) + Backlog(max, m - {id}, ns)
  }

  lemma {:induction false} BacklogWithout(max: int, m: Table, ns: string, id: ID)
    requires id in m
    ensures Backlog(max, m, ns) == Weight(max, m[id], ns) + Backlog(max, m - {id}, ns)
    decreases |m|
  {
    var k :| k in m && Backlog(max, m, ns) == Weight(max, m[k], ns) + Backlog(max, m - {k}, ns);
    if k != id {
      BacklogWithout(max, m - {k}, ns, id);
      BacklogWithout(max, m - {id}, ns, k);
      assert m - {k} - {id} == m - {id} - {k};
    }
  }

  lemma BacklogWith(max: int, m: Table, ns: string, r: Request)
    requires r.id in m
    ensures Backlog(max, m[r.id := r], ns)
            == Backlog(max, m, ns) - Weight(max, m[r.id], ns) + Weight(max, r, ns)
  {
    var m': Table := m[r.id := r];
    BacklogWithout(max, m, ns, r.id);
    BacklogWithout(max, m', ns, r.id);
    assert m' - {r.id} == m - {r.id};
  }

  lemma SliceWithout(m: Table, ns: string, k: ID)
    requires k in m && m[k].namespace != ns
    ensures Slice(m - {k}, ns) == Slice(m, ns)
  {
  }

  /** The backlog of a namespace is zero exactly when it has no rows. */
  lemma {:induction false} BacklogZero(max: int, m: Table, ns: string)
    ensures Backlog(max, m, ns) == 0 <==> Slice(m, ns) == map[]
    decreases |m|
  {
    if m != map[] {
      var k :| k in m && Backlog(max, m, ns) == Weight(max, m[k], ns) + Backlog(max, m - {k}, ns);
      BacklogZero(max, m - {k}, ns);
      if m[k].namespace == ns {
        assert k in Slice(m, ns);
        assert Slice(m, ns) != map[];
        assert Weight(max, m[k], ns) > 0;
      } else {
        SliceWithout(m, ns, k);
        assert Weight(max, m[k], ns) == 0;
        assert Slice(m - {k}, ns) == Slice(m, ns);
        assert Backlog(max, m, ns) == Backlog(max, m - {k}, ns);
        assert Backlog(max, m, ns) == 0 <==> Slice(m - {k}, ns) == map[];
      }
    }
  }

  /** The snapshot's rows are stored as they were read. */
  ghost predicate UpToDate(m: Table, pending: seq<Request>) {
    && (forall i :: 0 <= i < |pending| ==> pending[i].id in m && m[pending[i].id] == pending[i])
    && (forall i, j :: 0 <= i < j < |pending| ==> pending[i].id != pending[j].id)
  }

  lemma ApplyLowers(max: int, m: Table, r: Request, fate: Fate, ns: string)
    requires r.id in m && m[r.id] == r
    requires fate.Bumped? ==> r.retries < max
    ensures Backlog(max, Apply(m, r, fate), ns) <= Backlog(max, m, ns)
    ensures r.namespace == ns && !fate.Kept? ==> Backlog(max, Apply(m, r, fate), ns) < Backlog(max, m, ns)
  {
    match fate
    case Kept =>
    case Bumped => BacklogWith(max, m, ns, r.(retries := r.retries + 1));
    case Removed => BacklogWithout(max, m, ns, r.id);
  }

  lemma {:induction false} RowsNeverRaise(cfg: Settings, s: Stores, pending: seq<Request>, a: PassAnswers, ns: string)
    requires UpToDate(s.requests, pending)
    ensures Backlog(cfg.max, VisitRows(cfg, s, pending, a).requests, ns) <= Backlog(cfg.max, s.requests, ns)
    decreases |pending|
  {
    if pending != [] && cfg.hook(pending[0].payload).Some? {
      var r := pending[0];
      var ra := a.row(r.id);
      var found := CachedLookup(s.tenants, cfg.hook(r.payload).value, ra.backend, DEFAULT_RETRY).0;
      ApplyLowers(cfg.max, s.requests, r, Judge(cfg, r, found, ra).fate, ns);
      RowsNeverRaise(cfg, VisitRow(cfg, s, r, ra).0, pending[1..], a, ns);
    }
  }

  lemma SnapshotUpToDate(m: Table, order: seq<ID>, ns: string)
    requires Lists(order, m, ns)
    ensures UpToDate(m, Snapshot(m, order))
  {
    assert forall i :: 0 <= i < |order| ==> order[i] in order;
  }

  lemma {:induction false} VisitsNeverRaise(cfg: Settings, s: Stores, names: seq<string>, a: PassAnswers, ns: string)
    requires Honest(a)
    ensures Backlog(cfg.max, VisitNamespaces(cfg, s, names, a).requests, ns) <= Backlog(cfg.max, s.requests, ns)
    decreases |names|
  {
    if names != [] {
      var answer := a.fetch(names[0], s.requests);
      if answer.Some? {
        SnapshotUpToDate(s.requests, answer.value, names[0]);
        RowsNeverRaise(cfg, s, Snapshot(s.requests, answer.value), a, ns);
      }
      VisitsNeverRaise(cfg, VisitNamespace(cfg, s, names[0], a), names[1..], a, ns);
    }
  }

  /** Every cached namespace has a name and a cluster. */
  ghost predicate UsableCache(cache: Cache) {
    forall url :: url in cache ==> UsableNamespace(cache[url])
  }

  /** No lookup answers a namespace without name or cluster. */
  ghost predicate UsableAnswers(a: PassAnswers) {
    forall id: ID, url: string, k: nat ::
      NamespaceOf(url, a.row(id).backend(k)).Some? ==> UsableNamespace(NamespaceOf(url, a.row(id).backend(k)).value)
  }

  /** The services work for a row: its repository is found, its Jenkins runs, and the database
      saves and deletes. The replay itself may be answered in any way. */
  ghost predicate Serves(cfg: Settings, r: Request, a: RowAnswers) {
    && cfg.hook(r.payload).Some?
    && NamespaceOf(cfg.hook(r.payload).value, a.backend(0)).Some?
    && a.state == Some(Running)
    && a.save && a.delete
  }

  /** The services work for the rows of a namespace in a pass over these rows. */
  ghost predicate ServesNamespace(cfg: Settings, m: Table, a: PassAnswers, ns: string) {
    && Honest(a) && UsableAnswers(a)
    && (forall t: Table :: a.fetch(ns, t).Some?)
    && (forall id :: id in m && m[id].namespace == ns ==> Serves(cfg, m[id], a.row(id)))
  }

  /** ... and in each of a series of passes. */
  ghost predicate ServesAll(cfg: Settings, s: Stores, passes: seq<PassAnswers>, ns: string)
    requires forall a :: a in passes ==> Honest(a)
    decreases |passes|
  {
    passes == [] ||
    (ServesNamespace(cfg, s.requests, passes[0], ns) && passes[0].users(s.requests).Some?
     && ServesAll(cfg, Pass(cfg, s, passes[0]), passes[1..], ns))
  }

  lemma LookupUsable(cache: Cache, url: string, a: PassAnswers, id: ID)
    requires UsableCache(cache) && UsableAnswers(a)
    ensures var (found, cache') := CachedLookup(cache, url, a.row(id).backend, DEFAULT_RETRY);
            UsableCache(cache') && (found.Some? ==> UsableNamespace(found.value))
  {
    var j := FirstSuccessMeaning(url, a.row(id).backend, 0, Attempts(DEFAULT_RETRY));
  }

  lemma {:induction false} RowsKeepCacheUsable(cfg: Settings, s: Stores, pending: seq<Request>, a: PassAnswers)
    requires UsableCache(s.tenants) && UsableAnswers(a)
    ensures UsableCache(VisitRows(cfg, s, pending, a).tenants)
    decreases |pending|
  {
    if pending != [] && cfg.hook(pending[0].payload).Some? {
      var r := pending[0];
      LookupUsable(s.tenants, cfg.hook(r.payload).value, a, r.id);
      RowsKeepCacheUsable(cfg, VisitRow(cfg, s, r, a.row(r.id)).0, pending[1..], a);
    }
  }

  lemma VisitKeepsUsable(cfg: Settings, s: Stores, ns: string, a: PassAnswers)
    requires Honest(a) && UsableAnswers(a) && UsableCache(s.tenants)
    ensures UsableCache(VisitNamespace(cfg, s, ns, a).tenants)
  {
    if a.fetch(ns, s.requests).Some? {
      RowsKeepCacheUsable(cfg, s, Snapshot(s.requests, a.fetch(ns, s.requests).value), a);
    }
  }

  /** The first row visited in a served namespace is deleted or loses an attempt. */
  lemma FirstRowLowers(cfg: Settings, s: Stores, r: Request, a: PassAnswers)
    requires UsableAnswers(a) && UsableCache(s.tenants)
    requires r.id in s.requests && s.requests[r.id] == r && Serves(cfg, r, a.row(r.id))
    ensures Backlog(cfg.max, VisitRow(cfg, s, r, a.row(r.id)).0.requests, r.namespace)
            < Backlog(cfg.max, s.requests, r.namespace)
  {
    var ra := a.row(r.id);
    var url := cfg.hook(r.payload).value;
    LookupUsable(s.tenants, url, a, r.id);
    var j := FirstSuccessMeaning(url, ra.backend, 0, Attempts(DEFAULT_RETRY));
    var found := CachedLookup(s.tenants, url, ra.backend, DEFAULT_RETRY).0;
    ApplyLowers(cfg.max, s.requests, r, Judge(cfg, r, found, ra).fate, r.namespace);
  }

  lemma RowKeepsUpToDate(cfg: Settings, s: Stores, pending: seq<Request>, a: PassAnswers)
    requires pending != [] && UpToDate(s.requests, pending)
    ensures UpToDate(VisitRow(cfg, s, pending[0], a.row(pending[0].id)).0.requests, pending[1..])
  {
  }

  lemma VisitLowers(cfg: Settings, s: Stores, ns: string, a: PassAnswers)
    requires ServesNamespace(cfg, s.requests, a, ns) && UsableCache(s.tenants)
    requires Slice(s.requests, ns) != map[]
    ensures Backlog(cfg.max, VisitNamespace(cfg, s, ns, a).requests, ns) < Backlog(cfg.max, s.requests, ns)
  {
    var order := a.fetch(ns, s.requests).value;
    var pending := Snapshot(s.requests, order);
    var id :| id in Slice(s.requests, ns);
    assert id in order;
    SnapshotUpToDate(s.requests, order, ns);
    assert order[0] in order;
    FirstRowLowers(cfg, s, pending[0], a);
    RowKeepsUpToDate(cfg, s, pending, a);
    RowsNeverRaise(cfg, VisitRow(cfg, s, pending[0], a.row(pending[0].id)).0, pending[1..], a, ns);
  }

  lemma SliceServed(cfg: Settings, m: Table, m': Table, a: PassAnswers, ns: string)
    requires ServesNamespace(cfg, m, a, ns) && Slice(m, ns) == Slice(m', ns)
    ensures ServesNamespace(cfg, m', a, ns)
  {
    forall id | id in m' && m'[id].namespace == ns ensures Serves(cfg, m'[id], a.row(id)) {
      assert id in Slice(m', ns);
      assert Slice(m, ns)[id] == m[id];
    }
  }

  lemma {:induction false} VisitsLower(cfg: Settings, s: Stores, names: seq<string>, a: PassAnswers, ns: string)
    requires ServesNamespace(cfg, s.requests, a, ns) && UsableCache(s.tenants)
    requires ns in names && Slice(s.requests, ns) != map[]
    ensures Backlog(cfg.max, VisitNamespaces(cfg, s, names, a).requests, ns) < Backlog(cfg.max, s.requests, ns)
    decreases |names|
  {
    var s' := VisitNamespace(cfg, s, names[0], a);
    if names[0] == ns {
      VisitLowers(cfg, s, ns, a);
      VisitsNeverRaise(cfg, s', names[1..], a, ns);
    } else {
      VisitKeepsUsable(cfg, s, names[0], a);
      VisitKeepsOthers(cfg, s, names[0], a, ns);
      SliceServed(cfg, s.requests, s'.requests, a, ns);
      VisitsNeverRaise(cfg, s, [names[0]], a, ns);
      assert VisitNamespaces(cfg, s, [names[0]], a) == s';
      VisitsLower(cfg, s', names[1..], a, ns);
    }
  }

  lemma {:induction false} VisitsKeepUsable(cfg: Settings, s: Stores, names: seq<string>, a: PassAnswers)
    requires Honest(a) && UsableAnswers(a) && UsableCache(s.tenants)
    ensures UsableCache(VisitNamespaces(cfg, s, names, a).tenants)
    decreases |names|
  {
    if names != [] {
      VisitKeepsUsable(cfg, s, names[0], a);
      VisitsKeepUsable(cfg, VisitNamespace(cfg, s, names[0], a), names[1..], a);
    }
  }

  /** A pass strictly lowers the backlog of a served namespace that has rows; whatever the
      answers are, no pass raises any backlog. */
  lemma PassLowers(cfg: Settings, s: Stores, a: PassAnswers, ns: string)
    requires Honest(a)
    ensures Backlog(cfg.max, Pass(cfg, s, a).requests, ns) <= Backlog(cfg.max, s.requests, ns)
    ensures ServesNamespace(cfg, s.requests, a, ns) && a.users(s.requests).Some? && UsableCache(s.tenants)
            && Slice(s.requests, ns) != map[] ==>
              Backlog(cfg.max, Pass(cfg, s, a).requests, ns) < Backlog(cfg.max, s.requests, ns)
  {
    if a.users(s.requests).Some? {
      var names := a.users(s.requests).value;
      VisitsNeverRaise(cfg, s, names, a, ns);
      if ServesNamespace(cfg, s.requests, a, ns) && UsableCache(s.tenants) && Slice(s.requests, ns) != map[] {
        var id :| id in Slice(s.requests, ns);
        assert ns in names;
        VisitsLower(cfg, s, names, a, ns);
      }
    }
  }

  /** Without arrivals, a served namespace has no rows left after as many passes as its backlog,
      for any row order, any namespace order and any answers to the replays. */
  lemma {:induction false} BacklogDrains(cfg: Settings, s: Stores, passes: seq<PassAnswers>, ns: string)
    requires forall a :: a in passes ==> Honest(a)
    requires ServesAll(cfg, s, passes, ns) && UsableCache(s.tenants)
    requires |passes| >= Backlog(cfg.max, s.requests, ns)
    ensures Slice(Passes(cfg, s, passes).requests, ns) == map[]
    decreases |passes|
  {
    BacklogZero(cfg.max, s.requests, ns);
    if passes != [] {
      PassLowers(cfg, s, passes[0], ns);
      VisitsKeepUsable(cfg, s, passes[0].users(s.requests).value, passes[0]);
      BacklogDrains(cfg, Pass(cfg, s, passes[0]), passes[1..], ns);
    }
  }
}
