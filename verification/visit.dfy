/** The shape of one visit to a namespace: a prefix is dealt with, one row may end it, the rest waits. */
module VisitShape {
  import opened Wrappers
  import opened Storage
  import opened RequestCodec
  import opened Jenkins
  import opened Lookup
  import opened Buffer
  import opened Isolation
  import opened Drain
  import Tenant

  /** The repository of a row belongs to namespace n, and the state of its pod is known. */
  ghost predicate Inspects(cfg: Settings, tenants: Cache, r: Request, a: RowAnswers, n: Tenant.Namespace) {
    && cfg.hook(r.payload).Some?
    && CachedLookup(tenants, cfg.hook(r.payload).value, a.backend, 15).0 == Some(n)
    && n.name != "" && n.clusterURL != "" && a.state.Some?
  }

  /** One turn of the loop for a row whose pod cannot be inspected: nothing changes but the tenant
      cache, and the visit ends. */
  lemma RowNotInspected(cfg: Settings, s: Stores, r: Request, a: RowAnswers)
    requires forall n :: !Inspects(cfg, s.tenants, r, a, n)
    ensures var (t, stop) := VisitRow(cfg, s, r, a);
            && stop && t.requests == s.requests && t.statistics == s.statistics
            && t.tenants == if cfg.hook(r.payload).Some?
                            then CachedLookup(s.tenants, cfg.hook(r.payload).value, a.backend, 15).1 else s.tenants
  {
    if cfg.hook(r.payload).Some? {
      var found := CachedLookup(s.tenants, cfg.hook(r.payload).value, a.backend, 15).0;
      if found.Some? {
        assert !Inspects(cfg, s.tenants, r, a, found.value);
      }
    }
  }

  /** ... and for any other: the buffering is recorded. If the pod does not run, the row stays and the
      visit ends. If the row does not format, it is deleted and the visit ends. If its retries are used
      up, or the replay was answered 200, 400 or 404, it is deleted and the visit goes on. Otherwise
      its retry count is saved, or if that fails the row deleted, and the visit ends. */
  lemma RowInspected(cfg: Settings, s: Stores, r: Request, a: RowAnswers, n: Tenant.Namespace)
    requires Inspects(cfg, s.tenants, r, a, n)
    ensures var (t, stop) := VisitRow(cfg, s, r, a);
            var deleted := if a.delete then s.requests - {r.id} else s.requests;
            && t.tenants == CachedLookup(s.tenants, cfg.hook(r.payload).value, a.backend, 15).1
            && Recorded(s.statistics, t.statistics, r.namespace, 0, a.now, a.stat)
            && if a.state != Some(Running) then
              stop && t.requests == s.requests
            else if !Formats(cfg.codec, r) then
              stop && t.requests == deleted
            else if r.retries >= cfg.max || a.send == Some(200) || a.send == Some(400) || a.send == Some(404) then
              !stop && t.requests == deleted
            else
              stop && t.requests == if a.save then s.requests[r.id := r.(retries := r.retries + 1)] else deleted
  {
    RecordStatsMeaning(s.statistics, r.namespace, 0, a.now, a.stat);
  }

  /** The buffer never touches an access time, and forgets no statistics. */
  ghost predicate KeepsAccess(before: map<string, Statistics>, after: map<string, Statistics>) {
    && (forall ns :: ns in before ==> ns in after)
    && forall ns :: ns in after ==> after[ns].lastAccessed == if ns in before then before[ns].lastAccessed else 0
  }

  lemma RowKeepsAccess(cfg: Settings, s: Stores, r: Request, a: RowAnswers)
    ensures KeepsAccess(s.statistics, VisitRow(cfg, s, r, a).0.statistics)
  {
    RecordStatsMeaning(s.statistics, r.namespace, 0, a.now, a.stat);
  }

  lemma {:induction false} RowsKeepAccess(cfg: Settings, s: Stores, pending: seq<Request>, a: PassAnswers)
    ensures KeepsAccess(s.statistics, VisitRows(cfg, s, pending, a).statistics)
    decreases |pending|
  {
    if pending != [] {
      RowKeepsAccess(cfg, s, pending[0], a.row(pending[0].id));
      var (s', stop) := VisitRow(cfg, s, pending[0], a.row(pending[0].id));
      if !stop {
        RowsKeepAccess(cfg, s', pending[1..], a);
      }
    }
  }

  lemma {:induction false} VisitsKeepAccess(cfg: Settings, s: Stores, names: seq<string>, a: PassAnswers)
    requires Honest(a)
    ensures KeepsAccess(s.statistics, VisitNamespaces(cfg, s, names, a).statistics)
    decreases |names|
  {
    if names != [] {
      if a.fetch(names[0], s.requests).Some? {
        RowsKeepAccess(cfg, s, Snapshot(s.requests, a.fetch(names[0], s.requests).value), a);
      }
      VisitsKeepAccess(cfg, VisitNamespace(cfg, s, names[0], a), names[1..], a);
    }
  }

  /** Whatever happens in any number of passes. */
  lemma {:induction false} PassesKeepAccess(cfg: Settings, s: Stores, passes: seq<PassAnswers>)
    requires forall a :: a in passes ==> Honest(a)
    ensures KeepsAccess(s.statistics, Passes(cfg, s, passes).statistics)
    decreases |passes|
  {
    if passes != [] {
      if passes[0].users(s.requests).Some? {
        VisitsKeepAccess(cfg, s, passes[0].users(s.requests).value, passes[0]);
      }
      PassesKeepAccess(cfg, Pass(cfg, s, passes[0]), passes[1..]);
    }
  }

  /** The row's pod is seen running. */
  predicate Reached(cfg: Settings, look: string -> Option<Tenant.Namespace>, r: Request, a: RowAnswers) {
    && cfg.hook(r.payload).Some?
    && look(cfg.hook(r.payload).value).Some?
    && UsableNamespace(look(cfg.hook(r.payload).value).value)
    && a.state == Some(Running)
  }

  /** The row is over with: its retries are used up, or Jenkins answers 200, 400 or 404. */
  predicate Over(cfg: Settings, r: Request, a: RowAnswers) {
    r.retries >= cfg.max || Settled(a.send)
  }

  predicate Dealt(cfg: Settings, look: string -> Option<Tenant.Namespace>, r: Request, a: RowAnswers) {
    Reached(cfg, look, r, a) && Formats(cfg.codec, r) && Over(cfg, r, a)
  }

  /** How many rows are dealt with before one is not. */
  function DealtPrefix(cfg: Settings, look: string -> Option<Tenant.Namespace>, pending: seq<Request>, a: PassAnswers): nat
    decreases |pending|
  {
    if pending == [] || !Dealt(cfg, look, pending[0], a.row(pending[0].id)) then 0
    else DealtPrefix(cfg, look, pending[1..], a) + 1
  }

  lemma {:induction false} DealtPrefixMeaning(cfg: Settings, look: string -> Option<Tenant.Namespace>, pending: seq<Request>, a: PassAnswers)
    ensures var n := DealtPrefix(cfg, look, pending, a);
            && n <= |pending|
            && (forall i :: 0 <= i < n ==> Dealt(cfg, look, pending[i], a.row(pending[i].id)))
            && (n < |pending| ==> !Dealt(cfg, look, pending[n], a.row(pending[n].id)))
    decreases |pending|
  {
    if pending != [] && Dealt(cfg, look, pending[0], a.row(pending[0].id)) {
      DealtPrefixMeaning(cfg, look, pending[1..], a);
    }
  }

  /** The row under an id, if it is stored. */
  function Stored(m: Table, id: ID): Option<Request> {
    if id in m then Some(m[id]) else None
  }

  function UnlessDeleted(r: Request, a: RowAnswers): Option<Request> {
    if a.delete then None else Some(r)
  }

  /** What is stored, after the visit, of a row at position k of the snapshot when the first n are
      dealt with. */
  function Outcome(cfg: Settings, look: string -> Option<Tenant.Namespace>, r: Request, a: RowAnswers, k: nat, n: nat)
    : Option<Request>
  {
    if k < n then UnlessDeleted(r, a)
    else if k > n || !Reached(cfg, look, r, a) then Some(r)
    else if !Formats(cfg.codec, r) || !a.save then UnlessDeleted(r, a)
    else Some(r.(retries := r.retries + 1))
  }

  lemma JudgeMeaning(cfg: Settings, r: Request, a: RowAnswers, look: string -> Option<Tenant.Namespace>, m: Table)
    requires r.id in m && m[r.id] == r && cfg.hook(r.payload).Some?
    ensures var v := Judge(cfg, r, look(cfg.hook(r.payload).value), a);
            && v.stop == !Dealt(cfg, look, r, a)
            && Stored(Apply(m, r, v.fate), r.id) == Outcome(cfg, look, r, a, 0, if v.stop then 0 else 1)
            && forall id :: id != r.id ==> Stored(Apply(m, r, v.fate), id) == Stored(m, id)
  {
  }

  /** One row of the visit: what it does, and what is left to visit from where. */
  lemma FirstRow(cfg: Settings, s: Stores, pending: seq<Request>, a: PassAnswers, look: string -> Option<Tenant.Namespace>)
    returns (s': Stores, dealt: bool)
    requires pending != [] && UpToDate(s.requests, pending) && StablePass(a, look) && Consistent(s.tenants, look)
    ensures VisitRows(cfg, s, pending, a) == if dealt then VisitRows(cfg, s', pending[1..], a) else s'
    ensures DealtPrefix(cfg, look, pending, a) == if dealt then DealtPrefix(cfg, look, pending[1..], a) + 1 else 0
    ensures Stored(s'.requests, pending[0].id)
            == Outcome(cfg, look, pending[0], a.row(pending[0].id), 0, if dealt then 1 else 0)
    ensures forall id :: id != pending[0].id ==> Stored(s'.requests, id) == Stored(s.requests, id)
    ensures Consistent(s'.tenants, look) && UpToDate(s'.requests, pending[1..])
  {
    var r := pending[0];
    var ra := a.row(r.id);
    assert Stable(ra.backend, look);
    if cfg.hook(r.payload).Some? {
      CachedLookupRefinesPlain(s.tenants, cfg.hook(r.payload).value, ra.backend, DEFAULT_RETRY, look);
      JudgeMeaning(cfg, r, ra, look, s.requests);
    }
    RowKeepsUpToDate(cfg, s, pending, a);
    s', dealt := VisitRow(cfg, s, r, ra).0, Dealt(cfg, look, r, ra);
  }

  /** Rows outside the snapshot are never touched. */
  lemma {:induction false} OthersUntouched(cfg: Settings, s: Stores, pending: seq<Request>, a: PassAnswers, id: ID)
    requires forall k :: 0 <= k < |pending| ==> pending[k].id != id
    ensures Stored(VisitRows(cfg, s, pending, a).requests, id) == Stored(s.requests, id)
    decreases |pending|
  {
    if pending != [] {
      var (s', stop) := VisitRow(cfg, s, pending[0], a.row(pending[0].id));
      assert Stored(s'.requests, id) == Stored(s.requests, id);
      if !stop {
        OthersUntouched(cfg, s', pending[1..], a, id);
      }
    }
  }

  lemma RestDiffers(m: Table, pending: seq<Request>, rest: seq<Request>)
    requires pending != [] && rest == pending[1..] && UpToDate(m, pending)
    ensures forall k :: 0 <= k < |rest| ==> rest[k].id != pending[0].id
  {
    assert forall k :: 0 <= k < |rest| ==> rest[k] == pending[k + 1];
  }

  /** A row after one that ends the visit. */
  lemma LaterRowWaits(m: Table, m': Table, pending: seq<Request>, k: nat)
    requires 0 < k < |pending| && UpToDate(m, pending)
    requires forall id :: id != pending[0].id ==> Stored(m', id) == Stored(m, id)
    ensures Stored(m', pending[k].id) == Some(pending[k])
  {
    assert pending[k].id != pending[0].id;
    assert Stored(m, pending[k].id) == Some(pending[k]);
  }

  /** The outcome is that of a visit that starts one row later. */
  lemma OutcomeShifts(cfg: Settings, look: string -> Option<Tenant.Namespace>, r: Request, a: RowAnswers, k: nat, n: nat)
    ensures Outcome(cfg, look, r, a, k + 1, n + 1) == Outcome(cfg, look, r, a, k, n)
  {
  }

  /** The rows before the first one that is not dealt with are deleted (unless that fails), that
      row gets its due and ends the visit, and the rows after it wait as they are. */
  lemma {:induction false} VisitStopsAtFirst(cfg: Settings, s: Stores, pending: seq<Request>, a: PassAnswers,
                                             look: string -> Option<Tenant.Namespace>, k: nat)
    requires UpToDate(s.requests, pending) && StablePass(a, look) && Consistent(s.tenants, look)
    requires k < |pending|
    ensures Stored(VisitRows(cfg, s, pending, a).requests, pending[k].id)
            == Outcome(cfg, look, pending[k], a.row(pending[k].id), k, DealtPrefix(cfg, look, pending, a))
    decreases |pending|
  {
    var s', dealt := FirstRow(cfg, s, pending, a, look);
    var rest := pending[1..];
    if !dealt {
      if k > 0 {
        LaterRowWaits(s.requests, s'.requests, pending, k);
      }
    } else if k == 0 {
      RestDiffers(s.requests, pending, rest);
      OthersUntouched(cfg, s', rest, a, pending[0].id);
    } else {
      assert rest[k - 1] == pending[k];
      VisitStopsAtFirst(cfg, s', rest, a, look, k - 1);
      OutcomeShifts(cfg, look, pending[k], a.row(pending[k].id), k - 1, DealtPrefix(cfg, look, rest, a));
    }
  }
}
