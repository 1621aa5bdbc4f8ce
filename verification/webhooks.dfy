/** Webhooks over whole runs: what becomes of an acknowledged one, and where it is replayed. */
module Webhooks {
  import opened Wrappers
  import opened Storage
  import opened RequestCodec
  import opened Jenkins
  import opened Lookup
  import opened Buffer
  import opened BufferMachine
  import opened GitHub
  import Tenant

  /** A row that reads as a hook and is addressed by https to the Jenkins route of its namespace. */
  ghost predicate Addressed(cfg: Settings, clusters: map<string, string>, r: Request) {
    cfg.hook(r.payload).Some? && r.scheme == "https" && r.namespace != "" && IsRouteOf(clusters, r.namespace, r.host)
  }

  /** A row stored under the mapping from repositories to namespaces that `look` gives. */
  ghost predicate Mapped(cfg: Settings, clusters: map<string, string>, look: string -> Option<Tenant.Namespace>, r: Request) {
    && cfg.hook(r.payload).Some?
    && look(cfg.hook(r.payload).value).Some?
    && var n := look(cfg.hook(r.payload).value).value;
       && UsableNamespace(n)
       && r.namespace == n.name
       && ConstructRoute(clusters, n.clusterURL, n.name) == Some((r.host, "https"))
       && r.scheme == "https"
  }

  /** What the handler stores is a fresh, well-addressed row ... */
  lemma StoresAddressed(cfg: Settings, clusters: map<string, string>, tenants: Cache, m: Message, rows: Table, a: HookAnswers)
    requires StoresRow(cfg, clusters, tenants, m.headers, rows, a)
    ensures var row := BufferedRow(cfg, clusters, tenants, m, rows, a);
            Addressed(cfg, clusters, row) && row.retries == 0 && row.id !in rows
  {
  }

  /** ... that follows the current mapping if the lookups do. */
  lemma StoresMapped(cfg: Settings, clusters: map<string, string>, tenants: Cache, m: Message, rows: Table, a: HookAnswers,
                     look: string -> Option<Tenant.Namespace>)
    requires StoresRow(cfg, clusters, tenants, m.headers, rows, a)
    requires Stable(a.backend, look) && Consistent(tenants, look)
    ensures Mapped(cfg, clusters, look, BufferedRow(cfg, clusters, tenants, m, rows, a))
  {
    CachedLookupRefinesPlain(tenants, cfg.hook(a.body.value).value, a.backend, DEFAULT_RETRY, look);
  }

  /** A call of the webhook handler: what it found in the caches and the store, the message, and
      the answers it got. */
  datatype HookCall = HookCall(tenants: Cache, rows: Table, m: Message, a: HookAnswers)

  predicate CallStores(cfg: Settings, clusters: map<string, string>, call: HookCall) {
    StoresRow(cfg, clusters, call.tenants, call.m.headers, call.rows, call.a)
  }

  function CallRow(cfg: Settings, clusters: map<string, string>, call: HookCall): Request
    requires CallStores(cfg, clusters, call)
  {
    BufferedRow(cfg, clusters, call.tenants, call.m, call.rows, call.a)
  }

  function CallStatus(cfg: Settings, clusters: map<string, string>, call: HookCall): int {
    SenderStatus(cfg, clusters, call.tenants, call.m.headers, call.rows, call.a)
  }

  /** The events of the producer come from these calls of the handler, each with its own row id. */
  ghost predicate FromHandler(cfg: Settings, clusters: map<string, string>, calls: map<ID, HookCall>, e: Event) {
    match e
    case Arrive(row) =>
      row.id in calls && CallStores(cfg, clusters, calls[row.id]) && row == CallRow(cfg, clusters, calls[row.id])
    case Acknowledge(id) => id in calls && CallStatus(cfg, clusters, calls[id]) == 202 && calls[id].a.id == id
    case _ => true
  }

  ghost predicate Handled(cfg: Settings, clusters: map<string, string>, calls: map<ID, HookCall>, events: seq<Event>) {
    forall e :: e in events ==> FromHandler(cfg, clusters, calls, e)
  }

  /** What a call does to the machine when it reaches the database, and when it answers. */
  function Arrived(cfg: Settings, clusters: map<string, string>, call: HookCall, s: System): System {
    if CallStores(cfg, clusters, call) then AfterArrive(s, CallRow(cfg, clusters, call)) else s
  }

  function Acknowledged(cfg: Settings, clusters: map<string, string>, call: HookCall, s: System): System {
    if CallStatus(cfg, clusters, call) == 202 then s.(acked := s.acked + {call.a.id}) else s
  }

  function Arrival(cfg: Settings, clusters: map<string, string>, call: HookCall): seq<Event> {
    if CallStores(cfg, clusters, call) then [Arrive(CallRow(cfg, clusters, call))] else []
  }

  function Answer(cfg: Settings, clusters: map<string, string>, call: HookCall): seq<Event> {
    if CallStatus(cfg, clusters, call) == 202 then [Acknowledge(call.a.id)] else []
  }

  /** Every call of the handler with a fresh row id is a run of the machine, whatever else happens
      between its database call and its answer; the row arrives as the handler stores it, and is
      acknowledged exactly when the sender is told 202. */
  lemma HandlerRuns(cfg: Settings, clusters: map<string, string>, calls: map<ID, HookCall>, call: HookCall,
                    s: System, between: seq<Event>, u: System)
    requires call.rows == s.rows && call.a.id !in s.created
    requires call.a.id in calls && calls[call.a.id] == call && Handled(cfg, clusters, calls, between)
    requires Runs(cfg, Arrived(cfg, clusters, call, s), between, u)
    ensures var events := Arrival(cfg, clusters, call) + between + Answer(cfg, clusters, call);
            Runs(cfg, s, events, Acknowledged(cfg, clusters, call, u)) && Handled(cfg, clusters, calls, events)
  {
    var arrival, answer := Arrival(cfg, clusters, call), Answer(cfg, clusters, call);
    var s' := Arrived(cfg, clusters, call, s);
    if CallStores(cfg, clusters, call) {
      RunsStep(cfg, s, Arrive(CallRow(cfg, clusters, call)));
    }
    RunsCompose(cfg, s, arrival, s', between, u);
    if CallStatus(cfg, clusters, call) == 202 {
      CreatedStays(cfg, s', between, u, call.a.id);
      RunsStep(cfg, u, Acknowledge(call.a.id));
      RunsCompose(cfg, s, arrival + between, u, answer, Acknowledged(cfg, clusters, call, u));
    } else {
      assert arrival + between + answer == arrival + between;
    }
  }

  lemma {:induction false} CreatedArrived(cfg: Settings, s: System, events: seq<Event>, t: System, id: ID)
    requires Runs(cfg, s, events, t) && id in t.created
    ensures (id in s.created && t.created[id] == s.created[id])
            || Arrive(t.created[id]) in events
    decreases |events|
  {
    if events != [] {
      CreatedArrived(cfg, Next(cfg, s, events[0]), events[1..], t, id);
      CreatedStep(cfg, s, events[0], id);
    }
  }

  lemma AckedStep(cfg: Settings, s: System, e: Event, id: ID)
    requires Enabled(s, e) && id in Next(cfg, s, e).acked
    ensures id in s.acked || e == Acknowledge(id)
  {
  }

  lemma {:induction false} AckedAcknowledged(cfg: Settings, s: System, events: seq<Event>, t: System, id: ID)
    requires Runs(cfg, s, events, t) && id in t.acked
    ensures id in s.acked || Acknowledge(id) in events
    decreases |events|
  {
    if events != [] {
      AckedAcknowledged(cfg, Next(cfg, s, events[0]), events[1..], t, id);
      if id in Next(cfg, s, events[0]).acked {
        AckedStep(cfg, s, events[0], id);
      }
    }
  }

  /** A created row is the one that some call of the handler stored. */
  lemma CreatedByCall(cfg: Settings, clusters: map<string, string>, calls: map<ID, HookCall>,
                      events: seq<Event>, t: System, id: ID)
    requires Runs(cfg, INIT, events, t) && Handled(cfg, clusters, calls, events) && id in t.created
    ensures id in calls && CallStores(cfg, clusters, calls[id]) && t.created[id] == CallRow(cfg, clusters, calls[id])
  {
    CreatedArrived(cfg, INIT, events, t, id);
    assert FromHandler(cfg, clusters, calls, Arrive(t.created[id]));
  }

  /** In every interleaving of handler calls with the buffer's consumer, a webhook whose sender was
      told 202 is still stored, as it came in but for its retries, or has left for a reason the
      ledgers bear out. */
  lemma AcknowledgedIsNotLost(cfg: Settings, clusters: map<string, string>, calls: map<ID, HookCall>,
                              events: seq<Event>, t: System, id: ID)
    requires Runs(cfg, INIT, events, t) && Handled(cfg, clusters, calls, events) && id in t.acked
    ensures id in calls && CallStores(cfg, clusters, calls[id]) && CallStatus(cfg, clusters, calls[id]) == 202
    ensures var row := CallRow(cfg, clusters, calls[id]);
            || (id in t.rows && t.rows[id].(retries := 0) == row)
            || (id in t.left && t.left[id].row.(retries := 0) == row && MayLeave(cfg, t, t.left[id].row, t.left[id].why))
  {
    Conservation(cfg, events, t, id);
    CreatedByCall(cfg, clusters, calls, events, t, id);
    AckedAcknowledged(cfg, INIT, events, t, id);
    assert FromHandler(cfg, clusters, calls, Acknowledge(id));
  }

  /** In every such interleaving all stored rows stay well-addressed: the consumer's decoding never
      fails. */
  lemma StoredRowsAreAddressed(cfg: Settings, clusters: map<string, string>, calls: map<ID, HookCall>,
                               events: seq<Event>, t: System, id: ID)
    requires Runs(cfg, INIT, events, t) && Handled(cfg, clusters, calls, events)
    requires id in t.rows
    ensures Addressed(cfg, clusters, t.rows[id])
  {
    Conservation(cfg, events, t, id);
    CreatedByCall(cfg, clusters, calls, events, t, id);
    var call := calls[id];
    StoresAddressed(cfg, clusters, call.tenants, call.m, call.rows, call.a);
    assert t.rows[id].(retries := 0) == t.created[id];
  }

  /** The handler's lookups follow a stable mapping. */
  ghost predicate StableCalls(calls: map<ID, HookCall>, look: string -> Option<Tenant.Namespace>) {
    forall id :: id in calls ==> Stable(calls[id].a.backend, look) && Consistent(calls[id].tenants, look)
  }

  lemma CreatedRowsAreMapped(cfg: Settings, clusters: map<string, string>, look: string -> Option<Tenant.Namespace>,
                             calls: map<ID, HookCall>, events: seq<Event>, t: System, id: ID)
    requires Runs(cfg, INIT, events, t) && Handled(cfg, clusters, calls, events) && StableCalls(calls, look)
    requires id in t.created
    ensures Mapped(cfg, clusters, look, t.created[id])
  {
    CreatedByCall(cfg, clusters, calls, events, t, id);
    var call := calls[id];
    StoresMapped(cfg, clusters, call.tenants, call.m, call.rows, call.a, look);
  }

  /** With a stable mapping every replay goes to the pod whose state was just asked for. */
  lemma ReplayReachesSeenPod(cfg: Settings, clusters: map<string, string>, look: string -> Option<Tenant.Namespace>,
                             calls: map<ID, HookCall>, events: seq<Event>, t: System, r: Request,
                             tenants: Cache, a: RowAnswers)
    requires Runs(cfg, INIT, events, t) && Handled(cfg, clusters, calls, events) && StableCalls(calls, look)
    requires r in Pending(t.pc)
    requires Stable(a.backend, look) && Consistent(tenants, look) && Lossless(cfg.codec)
    ensures cfg.hook(r.payload).Some?
    ensures var found := CachedLookup(tenants, cfg.hook(r.payload).value, a.backend, DEFAULT_RETRY).0;
            && found.Some? && found.value.name == r.namespace
            && ConstructRoute(clusters, found.value.clusterURL, found.value.name).Some?
            && var (route, scheme) := ConstructRoute(clusters, found.value.clusterURL, found.value.name).value;
               cfg.codec.parse(cfg.codec.show(r.scheme, r.host, r.path)) == Some((scheme, route, r.path))
  {
    SnapshotStaysCurrent(cfg, events, t);
    Conservation(cfg, events, t, r.id);
    assert r.(retries := 0) == t.created[r.id];
    CreatedRowsAreMapped(cfg, clusters, look, calls, events, t, r.id);
    assert Mapped(cfg, clusters, look, t.created[r.id]);
    CachedLookupRefinesPlain(tenants, cfg.hook(r.payload).value, a.backend, DEFAULT_RETRY, look);
  }
}
