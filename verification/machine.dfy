/** Webhook handlers and the buffer consumer interleaved, one database or network call a step. */
module BufferMachine {
  import opened Wrappers
  import opened Storage
  import opened RequestCodec
  import opened Lookup
  import opened Buffer
  import opened Drain
  import Tenant

  /** Why a row left the store. */
  datatype Reason = Answered(code: int) | RetriesUsedUp | Unformattable | NotSavable

  datatype Departure = Departure(row: Request, why: Reason)

  /** Where the consumer is. The row being worked on is the first pending one. */
  datatype Pc =
    | Sleeping
    | Scanning(names: seq<string>)
    | Visiting(names: seq<string>, pending: seq<Request>)
    | Replaying(names: seq<string>, pending: seq<Request>)
    | Saving(names: seq<string>, pending: seq<Request>)
    | Dropping(names: seq<string>, pending: seq<Request>, why: Reason, stop: bool)

  /** The stored rows, the consumer, and ledgers of everything that happened to each row. */
  datatype System = System(
    rows: Table,
    pc: Pc,
    created: Table,
    acked: set<ID>,
    left: map<ID, Departure>,
    sends: map<ID, seq<Option<int>>>,
    failedSaves: map<ID, nat>,
    failedDeletes: map<ID, nat>)

  const INIT := System(map[], Sleeping, map[], {}, map[], map[], map[], map[])

  datatype Event =
    | Arrive(row: Request)
    | Acknowledge(id: ID)
    | Wake(users: Option<seq<string>>)
    | Sleep
    | Fetch(order: Option<seq<ID>>)
    | NextNamespace
    | Inspect(running: bool)
    | Send(answer: Option<int>)
    | Save(ok: bool)
    | Delete(ok: bool)

  function Sends(s: System, id: ID): seq<Option<int>> {
    if id in s.sends then s.sends[id] else []
  }

  function FailedSaves(s: System, id: ID): nat {
    if id in s.failedSaves then s.failedSaves[id] else 0
  }

  function FailedDeletes(s: System, id: ID): nat {
    if id in s.failedDeletes then s.failedDeletes[id] else 0
  }

  /** A handler may store a fresh row, and answer 202 once its row is stored, at any moment. */
  ghost predicate Enabled(s: System, e: Event) {
    match e
    case Arrive(row) => row.id !in s.created && row.retries == 0
    case Acknowledge(id) => id in s.created
    case Wake(users) => s.pc.Sleeping? && (users.Some? ==> ListsNamespaces(users.value, s.rows))
    case Sleep => s.pc.Scanning? && s.pc.names == []
    case Fetch(answer) => s.pc.Scanning? && s.pc.names != []
                          && (answer.Some? ==> Lists(answer.value, s.rows, s.pc.names[0]))
    case NextNamespace => s.pc.Visiting? && s.pc.pending == []
    case Inspect(_) => s.pc.Visiting? && s.pc.pending != []
    case Send(_) => s.pc.Replaying? && s.pc.pending != []
    case Save(_) => s.pc.Saving? && s.pc.pending != []
    case Delete(_) => s.pc.Dropping? && s.pc.pending != []
  }

  /** An answer is final if Jenkins accepted the webhook (200) or refused it for good (400, 404). */
  predicate Final(answer: Option<int>) {
    answer == Some(200) || answer == Some(400) || answer == Some(404)
  }

  function AfterInspection(cfg: Settings, pc: Pc, running: bool): Pc
    requires pc.Visiting? && pc.pending != []
  {
    var r := pc.pending[0];
    if !running then Scanning(pc.names)
    else if !Formats(cfg.codec, r) then Dropping(pc.names, pc.pending, Unformattable, true)
    else if r.retries < cfg.max then Replaying(pc.names, pc.pending)
    else Dropping(pc.names, pc.pending, RetriesUsedUp, false)
  }

  function AfterArrive(s: System, row: Request): System {
    s.(rows := s.rows[row.id := row], created := s.created[row.id := row])
  }

  function AfterSend(s: System, answer: Option<int>): System
    requires s.pc.Replaying? && s.pc.pending != []
  {
    var id := s.pc.pending[0].id;
    s.(sends := s.sends[id := Sends(s, id) + [answer]],
       pc := if Final(answer) then Dropping(s.pc.names, s.pc.pending, Answered(answer.value), false)
             else Saving(s.pc.names, s.pc.pending))
  }

  function AfterSave(s: System, ok: bool): System
    requires s.pc.Saving? && s.pc.pending != []
  {
    var r := s.pc.pending[0];
    if ok then s.(rows := Apply(s.rows, r, Bumped), pc := Scanning(s.pc.names))
    else s.(failedSaves := s.failedSaves[r.id := FailedSaves(s, r.id) + 1],
            pc := Dropping(s.pc.names, s.pc.pending, NotSavable, true))
  }

  function AfterDelete(s: System, ok: bool): System
    requires s.pc.Dropping? && s.pc.pending != []
  {
    var r := s.pc.pending[0];
    var pc := if s.pc.stop then Scanning(s.pc.names) else Visiting(s.pc.names, s.pc.pending[1..]);
    if ok then s.(rows := Apply(s.rows, r, Removed), left := s.left[r.id := Departure(r, s.pc.why)], pc := pc)
    else s.(failedDeletes := s.failedDeletes[r.id := FailedDeletes(s, r.id) + 1], pc := pc)
  }

  /** The program counter after a step that touches neither rows nor ledgers. */
  ghost function AfterQuiet(cfg: Settings, s: System, e: Event): Pc
    requires Enabled(s, e) && Quiet(e)
  {
    match e
    case Wake(users) => if users.Some? then Scanning(users.value) else Sleeping
    case Sleep => Sleeping
    case Fetch(order) =>
      var rest := s.pc.names[1..];
      if order.Some? then Visiting(rest, Snapshot(s.rows, order.value)) else Scanning(rest)
    case NextNamespace => Scanning(s.pc.names)
    case Inspect(running) => AfterInspection(cfg, s.pc, running)
  }

  predicate Quiet(e: Event) {
    e.Wake? || e.Sleep? || e.Fetch? || e.NextNamespace? || e.Inspect?
  }

  ghost function Next(cfg: Settings, s: System, e: Event): System
    requires Enabled(s, e)
  {
    match e
    case Arrive(row) => AfterArrive(s, row)
    case Acknowledge(id) => s.(acked := s.acked + {id})
    case Send(answer) => AfterSend(s, answer)
    case Save(ok) => AfterSave(s, ok)
    case Delete(ok) => AfterDelete(s, ok)
    case _ => s.(pc := AfterQuiet(cfg, s, e))
  }

  /** The events, in this order, lead from s to t. */
  ghost predicate Runs(cfg: Settings, s: System, events: seq<Event>, t: System)
    decreases |events|
  {
    if events == [] then s == t
    else Enabled(s, events[0]) && Runs(cfg, Next(cfg, s, events[0]), events[1..], t)
  }

  /** The number of replays without a final answer. */
  function Unsettled(sends: seq<Option<int>>): nat {
    if sends == [] then 0
    else Unsettled(sends[..|sends| - 1]) + One(!Final(sends[|sends| - 1]))
  }

  function Cap(max: int): nat {
    if max > 0 then max else 0
  }

  /** The evidence behind a departure, in the answers to the row's replays and its failed saves. */
  ghost predicate Justified(cfg: Settings, r: Request, sends: seq<Option<int>>, failedSaves: nat, why: Reason) {
    match why
    case Answered(code) => sends != [] && sends[|sends| - 1] == Some(code) && Final(Some(code))
    case RetriesUsedUp => r.retries >= cfg.max && Unsettled(sends) == r.retries + failedSaves
    case Unformattable => !Formats(cfg.codec, r)
    case NotSavable => failedSaves > 0 && sends != [] && !Final(sends[|sends| - 1])
  }

  /** The rows of the current snapshot that are still to be dealt with. */
  function Pending(pc: Pc): seq<Request> {
    match pc
    case Sleeping => []
    case Scanning(_) => []
    case Visiting(_, pending) => pending
    case Replaying(_, pending) => pending
    case Saving(_, pending) => pending
    case Dropping(_, pending, _, _) => pending
  }

  /** What the visit under way still owes the replay it made of a row: to count it, to give the
      row up since the count was not saved, or to delete the row since the answer was final. */
  datatype Debt = Nothing | Count | GiveUp | Finish

  predicate Heads(pending: seq<Request>, id: ID) {
    pending != [] && pending[0].id == id
  }

  function DebtTo(pc: Pc, id: ID): Debt {
    match pc
    case Saving(_, pending) => if Heads(pending, id) then Count else Nothing
    case Dropping(_, pending, why, _) =>
      if !Heads(pending, id) then Nothing
      else if why.NotSavable? then GiveUp
      else if why.Answered? then Finish
      else Nothing
    case _ => Nothing
  }

  function One(b: bool): nat {
    if b then 1 else 0
  }

  /** The departure of a row would be justified. */
  ghost predicate MayLeave(cfg: Settings, s: System, r: Request, why: Reason) {
    Justified(cfg, r, Sends(s, r.id), FailedSaves(s, r.id), why)
  }

  ghost predicate ConsumerInv(cfg: Settings, s: System) {
    && UpToDate(s.rows, Pending(s.pc))
    && (s.pc.Replaying? || s.pc.Saving? || s.pc.Dropping? ==> s.pc.pending != [])
    && (s.pc.Replaying? || s.pc.Saving? ==> s.pc.pending[0].retries < cfg.max)
    && (s.pc.Dropping? ==> MayLeave(cfg, s, s.pc.pending[0], s.pc.why)
                           && (s.pc.why.Answered? || s.pc.why.NotSavable? ==> s.pc.pending[0].retries < cfg.max))
    && (s.pc.Saving? ==> var sends := Sends(s, s.pc.pending[0].id);
                         sends != [] && !Final(sends[|sends| - 1]))
  }

  /** All that the store and the ledgers say about one row. */
  datatype Record = Record(
    created: Option<Request>,
    stored: Option<Request>,
    left: Option<Departure>,
    sends: seq<Option<int>>,
    failedSaves: nat,
    failedDeletes: nat,
    debt: Debt)

  function RecordOf(s: System, id: ID): Record {
    Record(if id in s.created then Some(s.created[id]) else None,
           if id in s.rows then Some(s.rows[id]) else None,
           if id in s.left then Some(s.left[id]) else None,
           Sends(s, id), FailedSaves(s, id), FailedDeletes(s, id), DebtTo(s.pc, id))
  }

  /** The ledgers of a stored row: replays without a final answer were counted, or saving the count
      failed; and every replay was paid for by a saved retry or by a failed deletion. */
  ghost predicate StoredInv(cfg: Settings, rec: Record)
    requires rec.stored.Some?
  {
    var r := rec.stored.value;
    && 0 <= r.retries <= Cap(cfg.max)
    && Unsettled(rec.sends) == r.retries + rec.failedSaves + One(rec.debt.Count?)
    && |rec.sends| <= r.retries + rec.failedDeletes + One(!rec.debt.Nothing?)
    && |rec.sends| <= Unsettled(rec.sends) + rec.failedDeletes + One(rec.debt.Finish?)
  }

  ghost predicate LeftInv(cfg: Settings, rec: Record)
    requires rec.left.Some?
  {
    var Departure(r, why) := rec.left.value;
    && Justified(cfg, r, rec.sends, rec.failedSaves, why)
    && Unsettled(rec.sends) == r.retries + rec.failedSaves
    && |rec.sends| <= Cap(cfg.max) + rec.failedDeletes
    && |rec.sends| <= Unsettled(rec.sends) + rec.failedDeletes + 1
  }

  ghost predicate RecordInv(cfg: Settings, rec: Record) {
    match rec.created
    case None => rec.stored.None? && rec.left.None? && rec.sends == [] && rec.failedSaves == rec.failedDeletes == 0
    case Some(row) =>
      if rec.stored.Some? then
        rec.left.None? && rec.stored.value.(retries := 0) == row && StoredInv(cfg, rec)
      else
        rec.left.Some? && rec.left.value.row.(retries := 0) == row && LeftInv(cfg, rec)
  }

  ghost predicate RowInv(cfg: Settings, s: System, id: ID) {
    && RecordInv(cfg, RecordOf(s, id))
    && (id in s.acked ==> id in s.created)
  }

  ghost predicate Inv(cfg: Settings, s: System) {
    ConsumerInv(cfg, s) && forall id :: RowInv(cfg, s, id)
  }

  lemma UnsettledStep(sends: seq<Option<int>>, answer: Option<int>)
    ensures Unsettled(sends + [answer]) == Unsettled(sends) + One(!Final(answer))
  {
    assert (sends + [answer])[..|sends|] == sends;
  }

  lemma ArriveKeepsRow(cfg: Settings, s: System, row: Request, id: ID)
    requires ConsumerInv(cfg, s) && RowInv(cfg, s, id) && row.id !in s.created && row.retries == 0
    ensures RowInv(cfg, AfterArrive(s, row), id)
  {
    var t := AfterArrive(s, row);
    if id == row.id {
      assert RecordOf(t, id) == RecordOf(s, id).(created := Some(row), stored := Some(row), debt := Nothing) by {
        assert id !in s.rows;
      }
    } else {
      assert RecordOf(t, id) == RecordOf(s, id);
    }
  }

  lemma ArriveKeepsConsumer(cfg: Settings, s: System, row: Request)
    requires ConsumerInv(cfg, s) && RowInv(cfg, s, row.id) && row.id !in s.created
    ensures ConsumerInv(cfg, AfterArrive(s, row))
  {
    assert UpToDate(AfterArrive(s, row).rows, Pending(s.pc));
  }

  /** A row that the consumer is not at keeps its record. */
  lemma SendKeepsOthers(s: System, answer: Option<int>, id: ID)
    requires s.pc.Replaying? && s.pc.pending != [] && s.pc.pending[0].id != id
    ensures RecordOf(AfterSend(s, answer), id) == RecordOf(s, id)
  {
  }

  lemma SaveKeepsOthers(s: System, ok: bool, id: ID)
    requires s.pc.Saving? && s.pc.pending != [] && s.pc.pending[0].id != id
    ensures RecordOf(AfterSave(s, ok), id) == RecordOf(s, id)
  {
  }

  lemma DeleteKeepsOthers(s: System, ok: bool, id: ID)
    requires s.pc.Dropping? && s.pc.pending != [] && s.pc.pending[0].id != id
    ensures RecordOf(AfterDelete(s, ok), id) == RecordOf(s, id)
  {
  }

  lemma SentRecord(s: System, answer: Option<int>)
    requires s.pc.Replaying? && s.pc.pending != []
    ensures var id := s.pc.pending[0].id;
            var rec := RecordOf(s, id);
            RecordOf(AfterSend(s, answer), id)
            == rec.(sends := rec.sends + [answer], debt := if Final(answer) then Finish else Count)
  {
  }

  lemma SendKeepsRecord(cfg: Settings, rec: Record, answer: Option<int>)
    requires RecordInv(cfg, rec) && rec.stored.Some? && rec.stored.value.retries < cfg.max && rec.debt.Nothing?
    ensures RecordInv(cfg, rec.(sends := rec.sends + [answer], debt := if Final(answer) then Finish else Count))
  {
    UnsettledStep(rec.sends, answer);
  }

  lemma SendKeepsRow(cfg: Settings, s: System, answer: Option<int>, id: ID)
    requires ConsumerInv(cfg, s) && s.pc.Replaying? && RowInv(cfg, s, id)
    ensures RowInv(cfg, AfterSend(s, answer), id)
  {
    if id == s.pc.pending[0].id {
      SentRecord(s, answer);
      SendKeepsRecord(cfg, RecordOf(s, id), answer);
    } else {
      SendKeepsOthers(s, answer, id);
    }
  }

  lemma SendKeepsConsumer(cfg: Settings, s: System, answer: Option<int>)
    requires ConsumerInv(cfg, s) && s.pc.Replaying? && RowInv(cfg, s, s.pc.pending[0].id)
    ensures ConsumerInv(cfg, AfterSend(s, answer))
  {
    UnsettledStep(Sends(s, s.pc.pending[0].id), answer);
  }

  lemma SavedRecord(s: System, ok: bool)
    requires s.pc.Saving? && s.pc.pending != []
    ensures var r := s.pc.pending[0];
            var rec := RecordOf(s, r.id);
            RecordOf(AfterSave(s, ok), r.id)
            == if ok then rec.(stored := Some(r.(retries := r.retries + 1)), debt := Nothing)
               else rec.(failedSaves := rec.failedSaves + 1, debt := GiveUp)
  {
  }

  lemma SaveKeepsRecord(cfg: Settings, rec: Record)
    requires RecordInv(cfg, rec) && rec.stored.Some? && rec.stored.value.retries < cfg.max && rec.debt.Count?
    ensures var r := rec.stored.value; RecordInv(cfg, rec.(stored := Some(r.(retries := r.retries + 1)), debt := Nothing))
    ensures RecordInv(cfg, rec.(failedSaves := rec.failedSaves + 1, debt := GiveUp))
  {
  }

  lemma SaveKeepsHead(cfg: Settings, s: System, ok: bool, r: Request)
    requires s.pc.Saving? && s.pc.pending != [] && s.pc.pending[0] == r && r.retries < cfg.max
    requires RecordInv(cfg, RecordOf(s, r.id)) && RecordOf(s, r.id).stored == Some(r)
    ensures RecordInv(cfg, RecordOf(AfterSave(s, ok), r.id))
  {
    SavedRecord(s, ok);
    SaveKeepsRecord(cfg, RecordOf(s, r.id));
  }

  lemma SaveKeepsRow(cfg: Settings, s: System, ok: bool, id: ID)
    requires ConsumerInv(cfg, s) && s.pc.Saving? && RowInv(cfg, s, id)
    ensures RowInv(cfg, AfterSave(s, ok), id)
  {
    if id == s.pc.pending[0].id {
      SaveKeepsHead(cfg, s, ok, s.pc.pending[0]);
    } else {
      SaveKeepsOthers(s, ok, id);
    }
  }

  lemma SaveKeepsConsumer(cfg: Settings, s: System, ok: bool)
    requires ConsumerInv(cfg, s) && s.pc.Saving?
    ensures ConsumerInv(cfg, AfterSave(s, ok))
  {
  }

  lemma DroppedRecord(s: System, ok: bool)
    requires s.pc.Dropping? && s.pc.pending != []
    ensures var r := s.pc.pending[0];
            var rec := RecordOf(s, r.id);
            RecordOf(AfterDelete(s, ok), r.id)
            == if ok then rec.(stored := None, left := Some(Departure(r, s.pc.why)), debt := Nothing)
               else rec.(failedDeletes := rec.failedDeletes + 1, debt := Nothing)
  {
  }

  lemma DeleteKeepsRecord(cfg: Settings, rec: Record, why: Reason)
    requires RecordInv(cfg, rec) && rec.stored.Some? && !rec.debt.Count?
    requires Justified(cfg, rec.stored.value, rec.sends, rec.failedSaves, why)
    requires !rec.debt.Nothing? ==> rec.stored.value.retries < cfg.max
    ensures RecordInv(cfg, rec.(stored := None, left := Some(Departure(rec.stored.value, why)), debt := Nothing))
    ensures RecordInv(cfg, rec.(failedDeletes := rec.failedDeletes + 1, debt := Nothing))
  {
  }

  lemma DeleteKeepsHead(cfg: Settings, s: System, ok: bool, r: Request)
    requires s.pc.Dropping? && s.pc.pending != [] && s.pc.pending[0] == r
    requires RecordInv(cfg, RecordOf(s, r.id)) && RecordOf(s, r.id).stored == Some(r)
    requires MayLeave(cfg, s, r, s.pc.why)
    requires s.pc.why.Answered? || s.pc.why.NotSavable? ==> r.retries < cfg.max
    ensures RecordInv(cfg, RecordOf(AfterDelete(s, ok), r.id))
  {
    DroppedRecord(s, ok);
    DeleteKeepsRecord(cfg, RecordOf(s, r.id), s.pc.why);
  }

  lemma DeleteKeepsRow(cfg: Settings, s: System, ok: bool, id: ID)
    requires ConsumerInv(cfg, s) && s.pc.Dropping? && RowInv(cfg, s, id)
    ensures RowInv(cfg, AfterDelete(s, ok), id)
  {
    if id == s.pc.pending[0].id {
      DeleteKeepsHead(cfg, s, ok, s.pc.pending[0]);
    } else {
      DeleteKeepsOthers(s, ok, id);
    }
  }

  lemma RestStaysUpToDate(m: Table, pending: seq<Request>, ok: bool)
    requires pending != [] && UpToDate(m, pending)
    ensures UpToDate(if ok then Apply(m, pending[0], Removed) else m, pending[1..])
  {
  }

  lemma DeleteKeepsConsumer(cfg: Settings, s: System, ok: bool)
    requires ConsumerInv(cfg, s) && s.pc.Dropping?
    ensures ConsumerInv(cfg, AfterDelete(s, ok))
  {
    RestStaysUpToDate(s.rows, s.pc.pending, ok);
  }

  lemma InspectKeepsConsumer(cfg: Settings, s: System, running: bool)
    requires ConsumerInv(cfg, s) && s.pc.Visiting? && s.pc.pending != []
    requires RowInv(cfg, s, s.pc.pending[0].id)
    ensures ConsumerInv(cfg, s.(pc := AfterInspection(cfg, s.pc, running)))
  {
    assert RecordOf(s, s.pc.pending[0].id).stored == Some(s.pc.pending[0]);
  }

  lemma QuietKeepsConsumer(cfg: Settings, s: System, e: Event)
    requires ConsumerInv(cfg, s) && Enabled(s, e) && Quiet(e)
    requires forall id :: id in s.rows ==> RowInv(cfg, s, id)
    ensures ConsumerInv(cfg, s.(pc := AfterQuiet(cfg, s, e)))
  {
    match e
    case Fetch(order) =>
      if order.Some? {
        SnapshotUpToDate(s.rows, order.value, s.pc.names[0]);
      }
    case Inspect(running) => InspectKeepsConsumer(cfg, s, running);
    case _ =>
  }

  lemma QuietKeepsRow(cfg: Settings, s: System, e: Event, id: ID)
    requires Enabled(s, e) && Quiet(e) && RowInv(cfg, s, id)
    ensures RowInv(cfg, s.(pc := AfterQuiet(cfg, s, e)), id)
  {
    assert RecordOf(s.(pc := AfterQuiet(cfg, s, e)), id) == RecordOf(s, id);
  }

  lemma StepKeepsRow(cfg: Settings, s: System, e: Event, id: ID)
    requires Inv(cfg, s) && Enabled(s, e)
    ensures RowInv(cfg, Next(cfg, s, e), id)
  {
    assert RowInv(cfg, s, id);
    match e
    case Arrive(row) =>
      assert RowInv(cfg, s, row.id);
      ArriveKeepsRow(cfg, s, row, id);
    case Acknowledge(_) =>
    case Send(answer) => SendKeepsRow(cfg, s, answer, id);
    case Save(ok) => SaveKeepsRow(cfg, s, ok, id);
    case Delete(ok) => DeleteKeepsRow(cfg, s, ok, id);
    case _ => QuietKeepsRow(cfg, s, e, id);
  }

  lemma StepKeepsConsumer(cfg: Settings, s: System, e: Event)
    requires Inv(cfg, s) && Enabled(s, e)
    ensures ConsumerInv(cfg, Next(cfg, s, e))
  {
    match e
    case Arrive(row) =>
      assert RowInv(cfg, s, row.id);
      ArriveKeepsConsumer(cfg, s, row);
    case Acknowledge(_) =>
    case Send(answer) =>
      assert RowInv(cfg, s, s.pc.pending[0].id);
      SendKeepsConsumer(cfg, s, answer);
    case Save(ok) => SaveKeepsConsumer(cfg, s, ok);
    case Delete(ok) => DeleteKeepsConsumer(cfg, s, ok);
    case _ => QuietKeepsConsumer(cfg, s, e);
  }

  lemma {:induction false} RunsKeepInv(cfg: Settings, s: System, events: seq<Event>, t: System)
    requires Inv(cfg, s) && Runs(cfg, s, events, t)
    ensures Inv(cfg, t)
    decreases |events|
  {
    if events != [] {
      StepKeepsConsumer(cfg, s, events[0]);
      forall id ensures RowInv(cfg, Next(cfg, s, events[0]), id) {
        StepKeepsRow(cfg, s, events[0], id);
      }
      RunsKeepInv(cfg, Next(cfg, s, events[0]), events[1..], t);
    }
  }

  lemma ReachableInv(cfg: Settings, events: seq<Event>, t: System)
    requires Runs(cfg, INIT, events, t)
    ensures Inv(cfg, t)
  {
    assert forall id :: RowInv(cfg, INIT, id);
    RunsKeepInv(cfg, INIT, events, t);
  }

  /** In every interleaving each created row is either still stored, unchanged but for its retry
      count, or has left, once, for a reason the ledgers bear out. */
  lemma Conservation(cfg: Settings, events: seq<Event>, t: System, id: ID)
    requires Runs(cfg, INIT, events, t)
    ensures id in t.acked ==> id in t.created
    ensures id in t.created <==> id in t.rows || id in t.left
    ensures !(id in t.rows && id in t.left)
    ensures id in t.rows ==> t.rows[id].(retries := 0) == t.created[id]
    ensures id in t.left ==> t.left[id].row.(retries := 0) == t.created[id]
                             && MayLeave(cfg, t, t.left[id].row, t.left[id].why)
    ensures id in t.left && t.left[id].why.Answered? ==>
              t.left[id].why.code == 200 || t.left[id].why.code == 400 || t.left[id].why.code == 404
  {
    ReachableInv(cfg, events, t);
    assert RowInv(cfg, t, id);
  }

  /** Giving up means it: a row leaves for used-up retries only after that many failed replays. */
  lemma GivingUpTakesRetries(cfg: Settings, events: seq<Event>, t: System, id: ID)
    requires Runs(cfg, INIT, events, t)
    requires id in t.left && t.left[id].why.RetriesUsedUp?
    ensures Unsettled(Sends(t, id)) >= cfg.max
  {
    ReachableInv(cfg, events, t);
    assert RowInv(cfg, t, id);
  }

  /** Rows of the current snapshot not dealt with yet are stored exactly as they were read, so a
      retry count is never saved over a missing or a changed row. */
  lemma SnapshotStaysCurrent(cfg: Settings, events: seq<Event>, t: System)
    requires Runs(cfg, INIT, events, t)
    ensures forall r :: r in Pending(t.pc) ==> r.id in t.rows && t.rows[r.id] == r
    ensures t.pc.Saving? ==>
              t.pc.pending != [] && t.pc.pending[0].id in t.rows
              && AfterSave(t, true).rows == BumpStored(t.rows, t.pc.pending[0].id)
  {
    ReachableInv(cfg, events, t);
    if t.pc.Saving? {
      SavingActsOnStored(cfg, t);
    }
  }

  /** The stored row's own retry count, one higher. */
  function BumpStored(m: Table, id: ID): Table
    requires id in m
  {
    m[id := m[id].(retries := m[id].retries + 1)]
  }

  lemma SavingActsOnStored(cfg: Settings, t: System)
    requires ConsumerInv(cfg, t) && t.pc.Saving?
    ensures t.pc.pending[0].id in t.rows && AfterSave(t, true).rows == BumpStored(t.rows, t.pc.pending[0].id)
  {
  }

  /** Each replay of a stored row is paid for by a saved retry or a failed deletion, but for the
      one under way; and over its whole life the retry limit takes the place of the saved retries. */
  lemma AttemptBound(cfg: Settings, events: seq<Event>, t: System, id: ID)
    requires Runs(cfg, INIT, events, t) && id in t.created
    ensures id in t.rows ==>
              |Sends(t, id)| <= t.rows[id].retries + FailedDeletes(t, id) + One(!DebtTo(t.pc, id).Nothing?)
    ensures |Sends(t, id)| <= Cap(cfg.max) + FailedDeletes(t, id)
  {
    ReachableInv(cfg, events, t);
    assert RowInv(cfg, t, id);
  }

  /** The retry count is exact: a replay without a final answer is counted in the row, or saving
      the count failed and is on the ledger, or it is the one being counted. */
  lemma RetriesAreExact(cfg: Settings, events: seq<Event>, t: System, id: ID)
    requires Runs(cfg, INIT, events, t) && id in t.created
    ensures id in t.rows ==>
              Unsettled(Sends(t, id)) == t.rows[id].retries + FailedSaves(t, id) + One(DebtTo(t.pc, id).Count?)
    ensures id in t.left ==> Unsettled(Sends(t, id)) == t.left[id].row.retries + FailedSaves(t, id)
  {
    ReachableInv(cfg, events, t);
    assert RowInv(cfg, t, id);
  }

  /** A webhook with a final answer is replayed again only for a deletion that failed. */
  lemma FinalAnswersAreFinal(cfg: Settings, events: seq<Event>, t: System, id: ID)
    requires Runs(cfg, INIT, events, t) && id in t.created
    ensures id in t.rows ==>
              |Sends(t, id)| - Unsettled(Sends(t, id)) <= FailedDeletes(t, id) + One(DebtTo(t.pc, id).Finish?)
    ensures |Sends(t, id)| - Unsettled(Sends(t, id)) <= FailedDeletes(t, id) + 1
  {
    ReachableInv(cfg, events, t);
    assert RowInv(cfg, t, id);
  }

  lemma {:induction false} RunsCompose(cfg: Settings, s: System, events: seq<Event>, t: System, more: seq<Event>, u: System)
    requires Runs(cfg, s, events, t) && Runs(cfg, t, more, u)
    ensures Runs(cfg, s, events + more, u)
    decreases |events|
  {
    if events == [] {
      assert events + more == more;
    } else {
      assert (events + more)[1..] == events[1..] + more;
      RunsCompose(cfg, Next(cfg, s, events[0]), events[1..], t, more, u);
    }
  }

  lemma RunsStep(cfg: Settings, s: System, e: Event)
    requires Enabled(s, e)
    ensures Runs(cfg, s, [e], Next(cfg, s, e))
  {
    assert [e][1..] == [];
    assert Runs(cfg, Next(cfg, s, e), [], Next(cfg, s, e));
  }

  lemma InspectRuns(cfg: Settings, s: System, running: bool) returns (t: System)
    requires s.pc.Visiting? && s.pc.pending != []
    ensures Runs(cfg, s, [Inspect(running)], t)
    ensures t.rows == s.rows && t.pc == AfterInspection(cfg, s.pc, running)
  {
    t := s.(pc := AfterInspection(cfg, s.pc, running));
    RunsStep(cfg, s, Inspect(running));
  }

  /** The tail of a visit that deletes its row, or tries to. */
  lemma DeleteRuns(cfg: Settings, s: System, ok: bool) returns (t: System)
    requires s.pc.Dropping? && s.pc.pending != []
    ensures Runs(cfg, s, [Delete(ok)], t)
    ensures t.rows == Apply(s.rows, s.pc.pending[0], if ok then Removed else Kept)
    ensures t.pc == if s.pc.stop then Scanning(s.pc.names) else Visiting(s.pc.names, s.pc.pending[1..])
  {
    t := AfterDelete(s, ok);
    RunsStep(cfg, s, Delete(ok));
  }

  lemma SaveRuns(cfg: Settings, s: System, save: bool, delete: bool) returns (events: seq<Event>, t: System)
    requires s.pc.Saving? && s.pc.pending != []
    ensures Runs(cfg, s, events, t)
    ensures t.rows == Apply(s.rows, s.pc.pending[0], if save then Bumped else if delete then Removed else Kept)
    ensures t.pc == Scanning(s.pc.names)
  {
    events, t := [Save(save)], AfterSave(s, save);
    RunsStep(cfg, s, Save(save));
    if !save {
      var u := DeleteRuns(cfg, t, delete);
      RunsCompose(cfg, s, events, t, [Delete(delete)], u);
      events, t := events + [Delete(delete)], u;
    }
  }

  /** The tail of a visit that replays its row. */
  lemma SendRuns(cfg: Settings, s: System, a: RowAnswers) returns (events: seq<Event>, t: System)
    requires s.pc.Replaying? && s.pc.pending != []
    ensures Runs(cfg, s, events, t)
    ensures t.rows == Apply(s.rows, s.pc.pending[0],
                            if !Settled(a.send) && a.save then Bumped else if a.delete then Removed else Kept)
    ensures t.pc == if Settled(a.send) then Visiting(s.pc.names, s.pc.pending[1..]) else Scanning(s.pc.names)
  {
    events, t := [Send(a.send)], AfterSend(s, a.send);
    RunsStep(cfg, s, Send(a.send));
    if Settled(a.send) {
      var u := DeleteRuns(cfg, t, a.delete);
      RunsCompose(cfg, s, events, t, [Delete(a.delete)], u);
      events, t := events + [Delete(a.delete)], u;
    } else {
      var more, u := SaveRuns(cfg, t, a.save, a.delete);
      RunsCompose(cfg, s, events, t, more, u);
      events, t := events + more, u;
    }
  }

  /** The machine can do what the buffer loop's verdict on a row says. */
  lemma VerdictRuns(cfg: Settings, s: System, found: Option<Tenant.Namespace>, a: RowAnswers)
    returns (events: seq<Event>, t: System)
    requires s.pc.Visiting? && s.pc.pending != []
    ensures Runs(cfg, s, events, t)
    ensures var r := s.pc.pending[0];
            var v := Judge(cfg, r, found, a);
            t.rows == Apply(s.rows, r, v.fate)
            && t.pc == if v.stop then Scanning(s.pc.names) else Visiting(s.pc.names, s.pc.pending[1..])
  {
    var running := SeesRunning(found, a);
    events := [Inspect(running)];
    t := InspectRuns(cfg, s, running);
    if t.pc.Replaying? {
      var more, u := SendRuns(cfg, t, a);
      RunsCompose(cfg, s, events, t, more, u);
      events, t := events + more, u;
    } else if t.pc.Dropping? {
      var u := DeleteRuns(cfg, t, a.delete);
      RunsCompose(cfg, s, events, t, [Delete(a.delete)], u);
      events, t := events + [Delete(a.delete)], u;
    }
  }

  lemma {:induction false} RowsRun(cfg: Settings, s: System, stores: Stores, a: PassAnswers)
    returns (events: seq<Event>, t: System)
    requires s.pc.Visiting? && stores.requests == s.rows
    ensures Runs(cfg, s, events, t)
    ensures t.rows == VisitRows(cfg, stores, s.pc.pending, a).requests
    ensures t.pc == Scanning(s.pc.names)
    decreases |s.pc.pending|
  {
    if s.pc.pending == [] {
      RunsStep(cfg, s, NextNamespace);
      events, t := [NextNamespace], Next(cfg, s, NextNamespace);
    } else {
      var r := s.pc.pending[0];
      var ra := a.row(r.id);
      var found := if cfg.hook(r.payload).None? then None
                   else CachedLookup(stores.tenants, cfg.hook(r.payload).value, ra.backend, DEFAULT_RETRY).0;
      events, t := VerdictRuns(cfg, s, found, ra);
      var (stores', stop) := VisitRow(cfg, stores, r, ra);
      if !stop {
        var more, u := RowsRun(cfg, t, stores', a);
        RunsCompose(cfg, s, events, t, more, u);
        events, t := events + more, u;
      }
    }
  }

  lemma NamespaceRuns(cfg: Settings, s: System, stores: Stores, a: PassAnswers)
    returns (events: seq<Event>, t: System)
    requires Honest(a) && s.pc.Scanning? && s.pc.names != [] && stores.requests == s.rows
    ensures Runs(cfg, s, events, t)
    ensures t.rows == VisitNamespace(cfg, stores, s.pc.names[0], a).requests
    ensures t.pc == Scanning(s.pc.names[1..])
  {
    var fetch := Fetch(a.fetch(s.pc.names[0], s.rows));
    RunsStep(cfg, s, fetch);
    events, t := [fetch], Next(cfg, s, fetch);
    if t.pc.Visiting? {
      var more, u := RowsRun(cfg, t, stores, a);
      RunsCompose(cfg, s, events, t, more, u);
      events, t := events + more, u;
    }
  }

  lemma {:induction false} NamespacesRun(cfg: Settings, s: System, stores: Stores, a: PassAnswers)
    returns (events: seq<Event>, t: System)
    requires Honest(a) && s.pc.Scanning? && stores.requests == s.rows
    ensures Runs(cfg, s, events, t)
    ensures t.rows == VisitNamespaces(cfg, stores, s.pc.names, a).requests
    ensures t.pc == Sleeping
    decreases |s.pc.names|
  {
    if s.pc.names == [] {
      RunsStep(cfg, s, Sleep);
      events, t := [Sleep], Next(cfg, s, Sleep);
    } else {
      var more, u := NamespaceRuns(cfg, s, stores, a);
      var rest;
      rest, t := NamespacesRun(cfg, u, VisitNamespace(cfg, stores, s.pc.names[0], a), a);
      RunsCompose(cfg, s, more, u, rest, t);
      events := more + rest;
    }
  }

  /** Any series of passes of the sequential loop is a run of the machine: what holds in every
      interleaving holds of ProcessBuffer. */
  lemma {:induction false} PassesRun(cfg: Settings, s: System, stores: Stores, passes: seq<PassAnswers>)
    returns (events: seq<Event>, t: System)
    requires forall a :: a in passes ==> Honest(a)
    requires s.pc.Sleeping? && stores.requests == s.rows
    ensures Runs(cfg, s, events, t)
    ensures t.rows == Passes(cfg, stores, passes).requests && t.pc.Sleeping?
    decreases |passes|
  {
    events, t := [], s;
    if passes != [] {
      assert Honest(passes[0]);
      var users := passes[0].users(s.rows);
      RunsStep(cfg, s, Wake(users));
      events, t := [Wake(users)], Next(cfg, s, Wake(users));
      if users.Some? {
        var more, u := NamespacesRun(cfg, t, stores, passes[0]);
        RunsCompose(cfg, s, events, t, more, u);
        events, t := events + more, u;
      }
      var rest, u := PassesRun(cfg, t, Pass(cfg, stores, passes[0]), passes[1..]);
      RunsCompose(cfg, s, events, t, rest, u);
      events, t := events + rest, u;
    }
  }

  /** So ProcessBuffer conserves rows: one that is gone after any series of passes left for a
      justified reason, and one that is not is unchanged but for its retry count. */
  lemma BufferLoopConserves(cfg: Settings, past: seq<Event>, s: System, stores: Stores, passes: seq<PassAnswers>, id: ID)
    returns (t: System)
    requires forall a :: a in passes ==> Honest(a)
    requires Runs(cfg, INIT, past, s) && s.pc.Sleeping? && stores.requests == s.rows
    requires id in stores.requests
    ensures t.rows == Passes(cfg, stores, passes).requests
    ensures id in t.rows ==> t.rows[id].(retries := 0) == stores.requests[id].(retries := 0)
    ensures id !in t.rows ==> id in t.left && t.left[id].row.(retries := 0) == stores.requests[id].(retries := 0)
                              && MayLeave(cfg, t, t.left[id].row, t.left[id].why)
  {
    var events, u := PassesRun(cfg, s, stores, passes);
    t := u;
    RunsCompose(cfg, INIT, past, s, events, t);
    Conservation(cfg, past, s, id);
    Conservation(cfg, past + events, t, id);
    CreatedStays(cfg, s, events, t, id);
  }

  lemma CreatedStep(cfg: Settings, s: System, e: Event, id: ID)
    requires Enabled(s, e)
    ensures id in s.created ==> id in Next(cfg, s, e).created && Next(cfg, s, e).created[id] == s.created[id]
    ensures id in Next(cfg, s, e).created ==> id in s.created || e == Arrive(Next(cfg, s, e).created[id])
  {
  }

  lemma {:induction false} CreatedStays(cfg: Settings, s: System, events: seq<Event>, t: System, id: ID)
    requires Runs(cfg, s, events, t) && id in s.created
    ensures id in t.created && t.created[id] == s.created[id]
    decreases |events|
  {
    if events != [] {
      CreatedStep(cfg, s, events[0], id);
      CreatedStays(cfg, Next(cfg, s, events[0]), events[1..], t, id);
    }
  }
}
