/** Passes treat namespaces independently of each other and of their order. */
module Isolation {
  import opened Wrappers
  import opened Storage
  import opened Lookup
  import opened Buffer
  import Tenant

  /** The rows of one namespace. */
  function Slice(m: Table, ns: string): Table {
    map id | id in m && m[id].namespace == ns :: m[id]
  }

  ghost predicate Owned(m: Table, pending: seq<Request>, ns: string) {
    forall r :: r in pending ==> r.namespace == ns && (r.id in m ==> m[r.id].namespace == ns)
  }

  /** In a pass the backends answer every lookup of a URL alike. */
  ghost predicate StablePass(a: PassAnswers, look: string -> Option<Tenant.Namespace>) {
    forall id: ID :: Stable(a.row(id).backend, look)
  }

  /** The rows of a namespace are listed in an order that other namespaces' rows do not affect. */
  ghost predicate LocalFetch(a: PassAnswers) {
    forall ns: string, m: Table :: a.fetch(ns, m) == a.fetch(ns, Slice(m, ns))
  }

  lemma SlicesDetermine(m: Table, m': Table)
    requires forall ns :: Slice(m, ns) == Slice(m', ns)
    ensures m == m'
  {
    forall id | id in m ensures id in m' && m'[id] == m[id] {
      assert id in Slice(m, m[id].namespace);
      assert id in Slice(m', m[id].namespace);
      assert m[id] == Slice(m, m[id].namespace)[id];
    }
    forall id | id in m' ensures id in m {
      assert id in Slice(m', m'[id].namespace);
      assert id in Slice(m, m'[id].namespace);
    }
  }

  lemma SnapshotOwned(m: Table, order: seq<ID>, ns: string)
    requires Lists(order, m, ns)
    ensures Owned(m, Snapshot(m, order), ns)
  {
    forall r | r in Snapshot(m, order) ensures r.namespace == ns && m[r.id].namespace == ns {
      var i :| 0 <= i < |order| && Snapshot(m, order)[i] == r;
      assert order[i] in order;
    }
  }

  lemma ApplyKeepsOthers(m: Table, r: Request, fate: Fate, other: string)
    requires r.namespace != other && (r.id in m ==> m[r.id].namespace != other)
    ensures Slice(Apply(m, r, fate), other) == Slice(m, other)
  {
  }

  lemma ApplyKeepsOwned(m: Table, r: Request, fate: Fate, pending: seq<Request>, ns: string)
    requires Owned(m, pending, ns) && r.namespace == ns
    ensures Owned(Apply(m, r, fate), pending, ns)
  {
  }

  lemma {:induction false} RowsKeepOthers(cfg: Settings, s: Stores, pending: seq<Request>, a: PassAnswers, ns: string, other: string)
    requires Owned(s.requests, pending, ns) && ns != other
    ensures Slice(VisitRows(cfg, s, pending, a).requests, other) == Slice(s.requests, other)
    decreases |pending|
  {
    if pending != [] && cfg.hook(pending[0].payload).Some? {
      var r := pending[0];
      var ra := a.row(r.id);
      assert r in pending;
      var v := Judge(cfg, r, CachedLookup(s.tenants, cfg.hook(r.payload).value, ra.backend, DEFAULT_RETRY).0, ra);
      ApplyKeepsOthers(s.requests, r, v.fate, other);
      ApplyKeepsOwned(s.requests, r, v.fate, pending, ns);
      if !v.stop {
        RowsKeepOthers(cfg, VisitRow(cfg, s, r, ra).0, pending[1..], a, ns, other);
      }
    }
  }

  /** Whatever the outside world answers, a namespace's visit leaves all other rows alone. */
  lemma VisitKeepsOthers(cfg: Settings, s: Stores, ns: string, a: PassAnswers, other: string)
    requires Honest(a) && ns != other
    ensures Slice(VisitNamespace(cfg, s, ns, a).requests, other) == Slice(s.requests, other)
  {
    if a.fetch(ns, s.requests).Some? {
      var order := a.fetch(ns, s.requests).value;
      SnapshotOwned(s.requests, order, ns);
      RowsKeepOthers(cfg, s, Snapshot(s.requests, order), a, ns, other);
    }
  }

  lemma ApplySlice(m: Table, m': Table, r: Request, fate: Fate)
    requires Slice(m, r.namespace) == Slice(m', r.namespace)
    ensures Slice(Apply(m, r, fate), r.namespace) == Slice(Apply(m', r, fate), r.namespace)
  {
    var n, n' := Apply(m, r, fate), Apply(m', r, fate);
    forall id
      ensures id in Slice(n, r.namespace) <==> id in Slice(n', r.namespace)
      ensures id in Slice(n, r.namespace) ==> Slice(n, r.namespace)[id] == Slice(n', r.namespace)[id]
    {
      assert id in Slice(m, r.namespace) <==> id in Slice(m', r.namespace);
    }
  }

  lemma {:induction false} RowsDependOnSlice(cfg: Settings, s: Stores, t: Stores, pending: seq<Request>, a: PassAnswers,
                                             look: string -> Option<Tenant.Namespace>, ns: string)
    requires forall r :: r in pending ==> r.namespace == ns
    requires Slice(s.requests, ns) == Slice(t.requests, ns)
    requires StablePass(a, look) && Consistent(s.tenants, look) && Consistent(t.tenants, look)
    ensures Slice(VisitRows(cfg, s, pending, a).requests, ns) == Slice(VisitRows(cfg, t, pending, a).requests, ns)
    ensures Consistent(VisitRows(cfg, s, pending, a).tenants, look)
    decreases |pending|
  {
    if pending != [] && cfg.hook(pending[0].payload).Some? {
      var r := pending[0];
      var url := cfg.hook(r.payload).value;
      var ra := a.row(r.id);
      assert r in pending;
      assert Stable(ra.backend, look);
      CachedLookupRefinesPlain(s.tenants, url, ra.backend, DEFAULT_RETRY, look);
      CachedLookupRefinesPlain(t.tenants, url, ra.backend, DEFAULT_RETRY, look);
      var v := Judge(cfg, r, look(url), ra);
      ApplySlice(s.requests, t.requests, r, v.fate);
      if !v.stop {
        RowsDependOnSlice(cfg, VisitRow(cfg, s, r, ra).0, VisitRow(cfg, t, r, ra).0, pending[1..], a, look, ns);
      }
    }
  }

  lemma VisitDependsOnSlice(cfg: Settings, s: Stores, t: Stores, ns: string, a: PassAnswers, look: string -> Option<Tenant.Namespace>)
    requires Honest(a) && LocalFetch(a) && StablePass(a, look)
    requires Slice(s.requests, ns) == Slice(t.requests, ns)
    requires Consistent(s.tenants, look) && Consistent(t.tenants, look)
    ensures Slice(VisitNamespace(cfg, s, ns, a).requests, ns) == Slice(VisitNamespace(cfg, t, ns, a).requests, ns)
    ensures Consistent(VisitNamespace(cfg, s, ns, a).tenants, look)
  {
    assert a.fetch(ns, s.requests) == a.fetch(ns, Slice(s.requests, ns)) == a.fetch(ns, t.requests);
    if a.fetch(ns, s.requests).Some? {
      var order := a.fetch(ns, s.requests).value;
      SnapshotOwned(s.requests, order, ns);
      assert Snapshot(s.requests, order) == Snapshot(t.requests, order) by {
        forall i | 0 <= i < |order| ensures s.requests[order[i]] == t.requests[order[i]] {
          assert order[i] in order;
          assert Slice(s.requests, ns)[order[i]] == Slice(t.requests, ns)[order[i]];
        }
      }
      RowsDependOnSlice(cfg, s, t, Snapshot(s.requests, order), a, look, ns);
    }
  }

  /** After visiting a list of namespaces, the rows of each are what its own visit alone makes of
      them, and the rows of the others are untouched. */
  lemma {:induction false} VisitsAreIndependent(cfg: Settings, s: Stores, names: seq<string>, a: PassAnswers,
                                                look: string -> Option<Tenant.Namespace>, ns: string)
    requires Honest(a) && LocalFetch(a) && StablePass(a, look) && Consistent(s.tenants, look)
    requires NoDuplicates(names)
    ensures Slice(VisitNamespaces(cfg, s, names, a).requests, ns)
            == Slice(if ns in names then VisitNamespace(cfg, s, ns, a).requests else s.requests, ns)
    decreases |names|
  {
    if names != [] {
      var s' := VisitNamespace(cfg, s, names[0], a);
      VisitDependsOnSlice(cfg, s, s, names[0], a, look);
      VisitsAreIndependent(cfg, s', names[1..], a, look, ns);
      if names[0] != ns {
        VisitKeepsOthers(cfg, s, names[0], a, ns);
        VisitDependsOnSlice(cfg, s, s', ns, a, look);
      } else {
        assert forall i :: 0 < i < |names| ==> names[i] != ns;
      }
    }
  }

  lemma EmptyVisit(cfg: Settings, s: Stores, ns: string, a: PassAnswers)
    requires Honest(a)
    requires forall id :: id in s.requests ==> s.requests[id].namespace != ns
    ensures VisitNamespace(cfg, s, ns, a) == s
  {
    if a.fetch(ns, s.requests).Some? {
      var order := a.fetch(ns, s.requests).value;
      EmptyOrMember(order);
      assert |order| == 0;
    }
  }

  /** Two passes that get the same answers but list the namespaces differently leave the same
      rows, namely those that independent visits of the namespaces leave. */
  lemma NamespaceIsolation(cfg: Settings, s: Stores, a: PassAnswers, b: PassAnswers, look: string -> Option<Tenant.Namespace>)
    requires Honest(a) && Honest(b) && LocalFetch(a) && StablePass(a, look) && Consistent(s.tenants, look)
    requires b == a.(users := b.users)
    requires a.users(s.requests).Some? && b.users(s.requests).Some?
    ensures Pass(cfg, s, a).requests == Pass(cfg, s, b).requests
    ensures forall ns :: Slice(Pass(cfg, s, a).requests, ns) == Slice(VisitNamespace(cfg, s, ns, a).requests, ns)
  {
    var names, names' := a.users(s.requests).value, b.users(s.requests).value;
    assert LocalFetch(b);
    assert StablePass(b, look);
    forall ns
      ensures Slice(Pass(cfg, s, a).requests, ns) == Slice(VisitNamespace(cfg, s, ns, a).requests, ns)
      ensures Slice(Pass(cfg, s, b).requests, ns) == Slice(VisitNamespace(cfg, s, ns, a).requests, ns)
    {
      VisitsAreIndependent(cfg, s, names, a, look, ns);
      VisitsAreIndependent(cfg, s, names', b, look, ns);
      assert ns in names <==> ns in names';
      if ns !in names {
        EmptyVisit(cfg, s, ns, a);
      } else {
        VisitSame(cfg, s, ns, a, b);
      }
    }
    SlicesDetermine(Pass(cfg, s, a).requests, Pass(cfg, s, b).requests);
  }

  lemma VisitSame(cfg: Settings, s: Stores, ns: string, a: PassAnswers, b: PassAnswers)
    requires Honest(a) && Honest(b) && b == a.(users := b.users)
    ensures VisitNamespace(cfg, s, ns, a) == VisitNamespace(cfg, s, ns, b)
  {
    if a.fetch(ns, s.requests).Some? {
      RowsSame(cfg, s, Snapshot(s.requests, a.fetch(ns, s.requests).value), a, b);
    }
  }

  lemma {:induction false} RowsSame(cfg: Settings, s: Stores, pending: seq<Request>, a: PassAnswers, b: PassAnswers)
    requires b == a.(users := b.users)
    ensures VisitRows(cfg, s, pending, a) == VisitRows(cfg, s, pending, b)
    decreases |pending|
  {
    if pending != [] {
      RowsSame(cfg, VisitRow(cfg, s, pending[0], a.row(pending[0].id)).0, pending[1..], a, b);
    }
  }
}
