/** Refreshing the public keys: the resettable once, its callers and its timers. */
module Auth {
  import opened Wrappers

  /** Where a caller of updatePublicKeysOnce is. `err` is what its own fetch reported. */
  datatype Caller =
    | Outside            // about to read the done flag
    | Waiting            // read it as not done, wants the mutex
    | Holding            // has the mutex, about to look again
    | Fetching           // runs updatePublicKeys inside the once
    | Leaving(err: bool) // has set the done flag, or found it set, and still has the mutex
    | Left(err: bool)    // has left Do
    | Resetting          // in Reset, wants the mutex
    | Done

  /** The mutex is held by at most one caller. `armed` counts timers that will call Reset. */
  datatype Refresh = Refresh(
    callers: map<nat, Caller>,
    owner: Option<nat>,
    done: bool,
    armed: nat,
    fetches: nat,
    resets: nat)

  const START := Refresh(map[], None, false, 0, 0, 0)

  datatype Event =
    | Call(c: nat)
    | ReadFlag(c: nat)
    | Lock(c: nat)
    | Recheck(c: nat)
    | Finish(c: nat, err: bool)
    | Unlock(c: nat)
    | AfterDo(c: nat)
    | Reset(c: nat)
    | Fire

  predicate At(s: Refresh, c: nat, pc: Caller) {
    c in s.callers && s.callers[c] == pc
  }

  predicate Enabled(s: Refresh, e: Event) {
    match e
    case Call(c) => c !in s.callers
    case ReadFlag(c) => At(s, c, Outside)
    case Lock(c) => At(s, c, Waiting) && s.owner.None?
    case Recheck(c) => At(s, c, Holding)
    case Finish(c, _) => At(s, c, Fetching)
    case Unlock(c) => c in s.callers && s.callers[c].Leaving?
    case AfterDo(c) => c in s.callers && s.callers[c].Left?
    case Reset(c) => At(s, c, Resetting) && s.owner.None?
    case Fire => s.armed > 0 && s.owner.None?
  }

  function Move(s: Refresh, c: nat, pc: Caller): Refresh {
    s.(callers := s.callers[c := pc])
  }

  /** Reset takes the mutex, clears the flag and gives the mutex back, in one step. */
  function Cleared(s: Refresh): Refresh {
    s.(done := false, resets := s.resets + 1)
  }

  function Next(s: Refresh, e: Event): Refresh
    requires Enabled(s, e)
  {
    match e
    case Call(c) => Move(s, c, Outside)
    case ReadFlag(c) => Move(s, c, if s.done then Left(false) else Waiting)
    case Lock(c) => Move(s, c, Holding).(owner := Some(c))
    case Recheck(c) =>
      if s.done then Move(s, c, Leaving(false))
      else Move(s, c, Fetching).(fetches := s.fetches + 1)
    case Finish(c, err) => Move(s, c, Leaving(err)).(done := true)
    case Unlock(c) => Move(s, c, Left(s.callers[c].err)).(owner := None)
    case AfterDo(c) =>
      if s.callers[c].err then Move(s, c, Resetting)
      else Move(s, c, Done).(armed := s.armed + 1)
    case Reset(c) => Cleared(Move(s, c, Done))
    case Fire => Cleared(s.(armed := s.armed - 1))
  }

  ghost predicate Runs(s: Refresh, events: seq<Event>, t: Refresh)
    decreases |events|
  {
    if events == [] then s == t
    else Enabled(s, events[0]) && Runs(Next(s, events[0]), events[1..], t)
  }

  /** Caller c has left Do, or has only to give the mutex back before it does, and will then reset
      the once or arm a timer that does. */
  predicate Owes(s: Refresh, c: nat) {
    c in s.callers && (s.callers[c].Leaving? || s.callers[c].Left? || s.callers[c].Resetting?)
  }

  predicate InFetch(s: Refresh) {
    s.owner.Some? && At(s, s.owner.value, Fetching)
  }

  ghost predicate Inv(s: Refresh) {
    && (forall c :: c in s.callers && (s.callers[c].Holding? || s.callers[c].Fetching? || s.callers[c].Leaving?) <==> s.owner == Some(c))
    && (InFetch(s) ==> !s.done)
    && s.fetches <= s.resets + (if s.done || InFetch(s) then 1 else 0)
    && (s.done ==> s.armed > 0 || exists c :: Owes(s, c))
  }

  lemma StepKeepsInv(s: Refresh, e: Event)
    requires Inv(s) && Enabled(s, e)
    ensures Inv(Next(s, e))
  {
    var t := Next(s, e);
    if t.done && t.armed == 0 {
      if e.Finish? {
        assert Owes(t, e.c);
      } else {
        var c :| Owes(s, c);
        assert Owes(t, c);
      }
    }
  }

  lemma {:induction false} RunsKeepInv(s: Refresh, events: seq<Event>, t: Refresh)
    requires Inv(s) && Runs(s, events, t)
    ensures Inv(t)
    decreases |events|
  {
    if events != [] {
      StepKeepsInv(s, events[0]);
      RunsKeepInv(Next(s, events[0]), events[1..], t);
    }
  }

  /** In every interleaving at most one fetch runs; there is at most one fetch more than resets;
      and a once that is marked done is owed a reset by an armed timer or by a caller that owes one. */
  lemma RefreshIsSafe(events: seq<Event>, s: Refresh)
    requires Runs(START, events, s)
    ensures forall c, c' :: At(s, c, Fetching) && At(s, c', Fetching) ==> c == c'
    ensures s.fetches <= s.resets + 1
    ensures s.done ==> s.armed > 0 || exists c :: Owes(s, c)
  {
    RunsKeepInv(START, events, s);
  }

  /** The events that free the mutex, if somebody holds it. */
  function Release(s: Refresh): seq<Event> {
    if s.owner.None? then []
    else
      var c := s.owner.value;
      (if !At(s, c, Holding) then [] else [Recheck(c)])
      + (if At(s, c, Fetching) || (At(s, c, Holding) && !s.done) then [Finish(c, false)] else [])
      + [Unlock(c)]
  }

  lemma RunsStep(s: Refresh, e: Event, events: seq<Event>, t: Refresh)
    requires Enabled(s, e) && Runs(Next(s, e), events, t)
    ensures Runs(s, [e] + events, t)
  {
    assert ([e] + events)[1..] == events;
  }

  lemma {:induction false} RunsCompose(s: Refresh, events: seq<Event>, t: Refresh, more: seq<Event>, u: Refresh)
    requires Runs(s, events, t) && Runs(t, more, u)
    ensures Runs(s, events + more, u)
    decreases |events|
  {
    if events == [] {
      assert events + more == more;
    } else {
      assert (events + more)[1..] == events[1..] + more;
      RunsCompose(Next(s, events[0]), events[1..], t, more, u);
    }
  }

  lemma RunsOne(s: Refresh, e: Event)
    requires Enabled(s, e)
    ensures Runs(s, [e], Next(s, e))
  {
    assert [e][1..] == [];
    assert Runs(Next(s, e), [], Next(s, e));
  }

  lemma UnlockFrees(s: Refresh, c: nat) returns (t: Refresh)
    requires Inv(s) && s.owner == Some(c) && s.callers[c].Leaving?
    ensures Runs(s, [Unlock(c)], t) && Inv(t) && t.owner.None?
  {
    t := Next(s, Unlock(c));
    StepKeepsInv(s, Unlock(c));
    RunsOne(s, Unlock(c));
  }

  lemma FinishFrees(s: Refresh, c: nat) returns (t: Refresh)
    requires Inv(s) && s.owner == Some(c) && At(s, c, Fetching)
    ensures Runs(s, [Finish(c, false), Unlock(c)], t) && Inv(t) && t.owner.None?
  {
    var m := Next(s, Finish(c, false));
    StepKeepsInv(s, Finish(c, false));
    t := UnlockFrees(m, c);
    RunsStep(s, Finish(c, false), [Unlock(c)], t);
  }

  lemma ReleaseFrees(s: Refresh) returns (t: Refresh)
    requires Inv(s)
    ensures Runs(s, Release(s), t) && Inv(t) && t.owner.None? && |Release(s)| <= 3
  {
    t := s;
    if s.owner.Some? {
      var c := s.owner.value;
      if At(s, c, Holding) {
        var m := Next(s, Recheck(c));
        StepKeepsInv(s, Recheck(c));
        if s.done {
          t := UnlockFrees(m, c);
          RunsStep(s, Recheck(c), [Unlock(c)], t);
        } else {
          t := FinishFrees(m, c);
          RunsStep(s, Recheck(c), [Finish(c, false), Unlock(c)], t);
        }
      } else if At(s, c, Fetching) {
        t := FinishFrees(s, c);
      } else {
        t := UnlockFrees(s, c);
      }
    }
  }

  /** With the mutex free, whoever owes a reset can bring it about. */
  lemma OwedResetRuns(s: Refresh) returns (events: seq<Event>, t: Refresh)
    requires Inv(s) && s.owner.None?
    ensures Runs(s, events, t) && |events| <= 2 && !t.done && t.owner.None?
    ensures forall e :: e in events ==> !e.Call?
  {
    events, t := [], s;
    if s.done {
      if s.armed > 0 {
        t := Next(s, Fire);
        events := [Fire];
        assert Runs(t, [], t);
        RunsStep(s, Fire, [], t);
      } else {
        var c :| Owes(s, c);
        var m := s;
        var first: seq<Event> := [];
        if s.callers[c].Left? {
          m := Next(s, AfterDo(c));
          StepKeepsInv(s, AfterDo(c));
          first := [AfterDo(c)];
        }
        var e := if m.armed > 0 then Fire else Reset(c);
        t := Next(m, e);
        assert Runs(t, [], t);
        RunsStep(m, e, [], t);
        if s.callers[c].Left? {
          RunsStep(s, AfterDo(c), [e], t);
        }
        events := first + [e];
      }
    }
  }

  /** Caller c fetches, holding the mutex. */
  function FetchBy(s: Refresh, c: nat): Refresh {
    Move(s, c, Fetching).(owner := Some(c), fetches := s.fetches + 1)
  }

  lemma NextCallerFetches(s: Refresh, c: nat)
    requires !s.done && s.owner.None? && c !in s.callers
    ensures Runs(s, [Call(c), ReadFlag(c), Lock(c), Recheck(c)], FetchBy(s, c))
  {
    var s1 := Next(s, Call(c));
    var s2 := Next(s1, ReadFlag(c));
    var s3 := Next(s2, Lock(c));
    var s4 := Next(s3, Recheck(c));
    assert s4 == FetchBy(s, c);
    assert Runs(s4, [], s4);
    RunsStep(s3, Recheck(c), [], s4);
    RunsStep(s2, Lock(c), [Recheck(c)], s4);
    RunsStep(s1, ReadFlag(c), [Lock(c), Recheck(c)], s4);
    RunsStep(s, Call(c), [ReadFlag(c), Lock(c), Recheck(c)], s4);
    assert [Call(c)] + ([ReadFlag(c)] + ([Lock(c)] + ([Recheck(c)] + []))) == [Call(c), ReadFlag(c), Lock(c), Recheck(c)];
  }

  lemma ResetRuns(s: Refresh) returns (more: seq<Event>, t: Refresh)
    requires Inv(s)
    ensures Runs(s, more, t) && |more| <= 5 && !t.done && t.owner.None?
    ensures forall e :: e in more ==> !e.Call?
  {
    var m := ReleaseFrees(s);
    var rest;
    rest, t := OwedResetRuns(m);
    RunsCompose(s, Release(s), m, rest, t);
    more := Release(s) + rest;
  }

  /** The refresh never sticks: from every reachable state the callers and timers already there
      can, in at most five steps, bring about a state in which the next caller fetches. */
  lemma NeverSticks(events: seq<Event>, s: Refresh) returns (more: seq<Event>, t: Refresh)
    requires Runs(START, events, s)
    ensures Runs(s, more, t) && |more| <= 5 && !t.done && t.owner.None?
    ensures forall e :: e in more ==> !e.Call?
    ensures forall c :: c !in t.callers ==> Runs(t, [Call(c), ReadFlag(c), Lock(c), Recheck(c)], FetchBy(t, c))
  {
    RunsKeepInv(START, events, s);
    more, t := ResetRuns(s);
    forall c | c !in t.callers ensures Runs(t, [Call(c), ReadFlag(c), Lock(c), Recheck(c)], FetchBy(t, c)) {
      NextCallerFetches(t, c);
    }
  }

  /** The steps of one caller that nobody interferes with. */
  function SoloSteps(s: Refresh, c: nat, err: bool): seq<Event> {
    if s.done then [Call(c), ReadFlag(c), AfterDo(c)]
    else [Call(c), ReadFlag(c), Lock(c), Recheck(c), Finish(c, err), Unlock(c), AfterDo(c)] + (if err then [Reset(c)] else [])
  }

  lemma {:induction false} StepsRun(s: Refresh, events: seq<Event>, t: Refresh, e: Event)
    requires Runs(s, events, t) && Enabled(t, e)
    ensures Runs(s, events + [e], Next(t, e))
  {
    assert [e][1..] == [];
    assert Runs(Next(t, e), [], Next(t, e));
    assert Runs(t, [e], Next(t, e));
    RunsCompose(s, events, t, [e], Next(t, e));
  }

  /** A caller alone fetches exactly if the once is not done; afterwards the once is done exactly
      without an error of its own, which then has armed a timer, and otherwise has reset it. */
  lemma SoloCall(s: Refresh, c: nat, err: bool) returns (t: Refresh)
    requires c !in s.callers && s.owner.None?
    ensures Runs(s, SoloSteps(s, c, err), t)
    ensures At(t, c, Done) && t.owner.None?
    ensures t.fetches == if s.done then s.fetches else s.fetches + 1
    ensures t.done == (s.done || !err)
    ensures if s.done || !err then t.armed == s.armed + 1 && t.resets == s.resets
            else t.armed == s.armed && t.resets == s.resets + 1
  {
    var steps := SoloSteps(s, c, err);
    if s.done {
      SoloSkip(s, c);
      t := SoloEnd(Next(Next(s, Call(c)), ReadFlag(c)), c);
      RunsStep(Next(s, Call(c)), ReadFlag(c), [AfterDo(c)], t);
      RunsStep(s, Call(c), [ReadFlag(c), AfterDo(c)], t);
    } else {
      var m := FetchBy(s, c);
      NextCallerFetches(s, c);
      var rest;
      rest, t := SoloFinish(m, c, err);
      RunsCompose(s, [Call(c), ReadFlag(c), Lock(c), Recheck(c)], m, rest, t);
      assert [Call(c), ReadFlag(c), Lock(c), Recheck(c)] + rest == steps;
    }
  }

  lemma SoloSkip(s: Refresh, c: nat)
    requires c !in s.callers && s.done
    ensures At(Next(Next(s, Call(c)), ReadFlag(c)), c, Left(false))
  {
  }

  lemma SoloEnd(s: Refresh, c: nat) returns (t: Refresh)
    requires At(s, c, Left(false))
    ensures t == Move(s, c, Done).(armed := s.armed + 1) && Runs(s, [AfterDo(c)], t)
  {
    t := Next(s, AfterDo(c));
    RunsOne(s, AfterDo(c));
  }

  lemma SoloFinish(s: Refresh, c: nat, err: bool) returns (events: seq<Event>, t: Refresh)
    requires At(s, c, Fetching) && s.owner == Some(c) && !s.done
    ensures events == [Finish(c, err), Unlock(c), AfterDo(c)] + (if err then [Reset(c)] else [])
    ensures Runs(s, events, t) && At(t, c, Done) && t.owner.None? && t.done == !err && t.fetches == s.fetches
    ensures if err then t.armed == s.armed && t.resets == s.resets + 1 else t.armed == s.armed + 1 && t.resets == s.resets
  {
    var s1 := Next(s, Finish(c, err));
    var s2 := Next(s1, Unlock(c));
    var s3 := Next(s2, AfterDo(c));
    RunsOne(s2, AfterDo(c));
    RunsStep(s1, Unlock(c), [AfterDo(c)], s3);
    RunsStep(s, Finish(c, err), [Unlock(c), AfterDo(c)], s3);
    events, t := [Finish(c, err), Unlock(c), AfterDo(c)], s3;
    if err {
      StepsRun(s, events, s3, Reset(c));
      events, t := events + [Reset(c)], Next(s3, Reset(c));
    }
  }

  /** A key of the auth service: its id and its PEM text. */
  datatype Key = Key(kid: string, pem: string)

  /** The last key of an id that parses. */
  function Parsed(keys: seq<Key>, parse: string -> Option<nat>, kid: string): Option<nat> {
    if keys == [] then None
    else
      var k := keys[|keys| - 1];
      if k.kid == kid && parse(k.pem).Some? then parse(k.pem) else Parsed(keys[..|keys| - 1], parse, kid)
  }

  /** Key i is the last one of its id that parses; keys that do not parse hide none before or after. */
  ghost predicate IsLastParsed(keys: seq<Key>, parse: string -> Option<nat>, kid: string, i: nat) {
    && i < |keys| && keys[i].kid == kid && parse(keys[i].pem).Some?
    && forall j :: i < j < |keys| && keys[j].kid == kid ==> parse(keys[j].pem).None?
  }

  lemma {:induction false} ParsedMeaning(keys: seq<Key>, parse: string -> Option<nat>, kid: string)
    ensures Parsed(keys, parse, kid).None? <==> forall k :: k in keys && k.kid == kid ==> parse(k.pem).None?
    ensures Parsed(keys, parse, kid).Some? ==>
              exists i: nat :: IsLastParsed(keys, parse, kid, i) && Parsed(keys, parse, kid) == parse(keys[i].pem)
  {
    if keys != [] {
      var init, k := keys[..|keys| - 1], keys[|keys| - 1];
      assert keys == init + [k];
      ParsedMeaning(init, parse, kid);
      if k.kid == kid && parse(k.pem).Some? {
        assert IsLastParsed(keys, parse, kid, |init|);
      } else if Parsed(init, parse, kid).Some? {
        var i: nat :| IsLastParsed(init, parse, kid, i) && Parsed(init, parse, kid) == parse(init[i].pem);
        assert IsLastParsed(keys, parse, kid, i);
      }
    }
  }

  /** The client's keys after a fetch: the parsed ones over those it had. */
  ghost predicate Updated(before: map<string, nat>, after: map<string, nat>, keys: seq<Key>, parse: string -> Option<nat>) {
    forall kid ::
      && (kid in after <==> kid in before || Parsed(keys, parse, kid).Some?)
      && (kid in after ==> after[kid] == if Parsed(keys, parse, kid).Some? then Parsed(keys, parse, kid).value else before[kid])
  }

  class Client {
    var publicKeys: map<string, nat>
    var done: bool

    constructor ()
      ensures publicKeys == map[] && !done
    {
      publicKeys, done := map[], false;
    }

    /** One fetch: `reply` is the key list of a 200 answer (None: any failure before that). Keys
        that do not parse are skipped, but make the whole fetch report an error. */
    method UpdatePublicKeys(reply: Option<seq<Key>>, parse: string -> Option<nat>) returns (err: bool)
      modifies this`publicKeys
      ensures Updated(old(publicKeys), publicKeys, if reply.Some? then reply.value else [], parse)
      ensures err <==> reply.None? || exists k :: k in reply.value && parse(k.pem).None?
    {
      if reply.None? {
        return true;
      }
      var keys := reply.value;
      err := false;
      for i := 0 to |keys|
        invariant Updated(old(publicKeys), publicKeys, keys[..i], parse)
        invariant err <==> exists k :: k in keys[..i] && parse(k.pem).None?
      {
        assert keys[..i + 1][..i] == keys[..i];
        assert keys[..i + 1] == keys[..i] + [keys[i]];
        match parse(keys[i].pem) {
          case None => err := true;
          case Some(pub) => publicKeys := publicKeys[keys[i].kid := pub];
        }
      }
      assert keys[..|keys|] == keys;
    }

    /** updatePublicKeysOnce without interference: a fetch unless the once is done. */
    method UpdatePublicKeysOnce(reply: Option<seq<Key>>, parse: string -> Option<nat>) returns (err: bool)
      modifies this
      ensures Updated(old(publicKeys), publicKeys, if old(done) || reply.None? then [] else reply.value, parse)
      ensures err <==> !old(done) && (reply.None? || exists k :: k in reply.value && parse(k.pem).None?)
      ensures done == !err
    {
      err := false;
      if !done {
        err := UpdatePublicKeys(reply, parse);
        done := true;
      }
      if err {
        done := false;
      }
    }

    /** The key of an id, fetching if it is not there. A fetch that brings the key still fails if
        another key of the list does not parse; the key is kept and found by the next call. */
    method RsaPublicKeyForID(kid: string, reply: Option<seq<Key>>, parse: string -> Option<nat>) returns (key: Option<nat>)
      modifies this
      ensures kid in old(publicKeys) ==>
                key == Some(old(publicKeys)[kid]) && publicKeys == old(publicKeys) && done == old(done)
      ensures kid !in old(publicKeys) ==>
                key == (if old(done) || reply.None? || exists k :: k in reply.value && parse(k.pem).None? then None
                        else Parsed(reply.value, parse, kid))
      ensures kid !in old(publicKeys) && !old(done) && reply.Some? && Parsed(reply.value, parse, kid).Some? ==>
                kid in publicKeys && publicKeys[kid] == Parsed(reply.value, parse, kid).value
    {
      if kid in publicKeys {
        return Some(publicKeys[kid]);
      }
      var err := UpdatePublicKeysOnce(reply, parse);
      if err {
        return None;
      }
      if kid in publicKeys {
        return Some(publicKeys[kid]);
      }
      return None;
    }
  }
}
