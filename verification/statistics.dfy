/** What a series of recordStatistics calls leaves behind. */
module StatisticsFold {
  import opened Storage

  /** One sequential call: an access time, a buffering time and the database's answers. */
  datatype Call = Call(la: int, lb: int, a: StatAnswers)

  predicate Succeeds(c: Call) {
    c.a.read && c.a.write
  }

  function After(stats: map<string, Statistics>, ns: string, calls: seq<Call>): map<string, Statistics> {
    if calls == [] then stats
    else
      var c := calls[|calls| - 1];
      RecordStats(After(stats, ns, calls[..|calls| - 1]), ns, c.la, c.lb, c.a)
  }

  function Time(c: Call, access: bool): int {
    if access then c.la else c.lb
  }

  /** `v` is the last non-zero time among the calls that succeeded, or `base` without one. */
  ghost predicate IsLastTime(v: int, base: int, calls: seq<Call>, access: bool) {
    || (v == base && forall j :: 0 <= j < |calls| && Succeeds(calls[j]) ==> Time(calls[j], access) == 0)
    || (v != 0 && exists i :: 0 <= i < |calls| && Succeeds(calls[i]) && Time(calls[i], access) == v
                              && forall j :: i < j < |calls| && Succeeds(calls[j]) ==> Time(calls[j], access) == 0)
  }

  lemma LastTimeStep(v: int, base: int, calls: seq<Call>, c: Call, access: bool)
    requires IsLastTime(v, base, calls, access)
    ensures IsLastTime(if Succeeds(c) && Time(c, access) != 0 then Time(c, access) else v, base, calls + [c], access)
  {
    var all := calls + [c];
    assert all[|calls|] == c;
    if !(Succeeds(c) && Time(c, access) != 0) &&
       !(v == base && forall j :: 0 <= j < |calls| && Succeeds(calls[j]) ==> Time(calls[j], access) == 0) {
      var i :| 0 <= i < |calls| && Succeeds(calls[i]) && Time(calls[i], access) == v
               && forall j :: i < j < |calls| && Succeeds(calls[j]) ==> Time(calls[j], access) == 0;
      assert all[i] == calls[i];
      assert forall j :: i < j < |all| && Succeeds(all[j]) ==> j == |calls| || all[j] == calls[j];
    }
  }

  /** The row of a namespace is the last non-zero access time and the last non-zero buffering
      time of the successful calls; the rows of other namespaces do not change. */
  lemma {:induction false} StatisticsAreLastTimes(stats: map<string, Statistics>, ns: string, calls: seq<Call>)
    ensures forall other :: other != ns ==>
              (other in After(stats, ns, calls) <==> other in stats)
              && (other in stats ==> After(stats, ns, calls)[other] == stats[other])
    ensures ns in After(stats, ns, calls) <==>
              ns in stats || exists j :: 0 <= j < |calls| && Succeeds(calls[j])
    ensures ns in After(stats, ns, calls) ==>
              && IsLastTime(After(stats, ns, calls)[ns].lastAccessed,
                            if ns in stats then stats[ns].lastAccessed else 0, calls, true)
              && IsLastTime(After(stats, ns, calls)[ns].lastBuffered,
                            if ns in stats then stats[ns].lastBuffered else 0, calls, false)
  {
    if calls != [] {
      var init, c := calls[..|calls| - 1], calls[|calls| - 1];
      StatisticsAreLastTimes(stats, ns, init);
      assert calls == init + [c];
      if ns in After(stats, ns, init) {
        LastTimeStep(After(stats, ns, init)[ns].lastAccessed,
                     if ns in stats then stats[ns].lastAccessed else 0, init, c, true);
        LastTimeStep(After(stats, ns, init)[ns].lastBuffered,
                     if ns in stats then stats[ns].lastBuffered else 0, init, c, false);
        assert (exists j :: 0 <= j < |init| && Succeeds(init[j])) ==> (exists j :: 0 <= j < |calls| && Succeeds(calls[j]));
      } else {
        assert forall j :: 0 <= j < |init| ==> !Succeeds(init[j]) && calls[j] == init[j];
        assert Succeeds(c) ==> Succeeds(calls[|calls| - 1]);
      }
    }
  }
}
