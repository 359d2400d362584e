/*
 * The two reverse-order teardown loops the orchestrators share.
 *
 * Halting: walk the started list from last to first, stopping each unit and
 * dropping it only once its Stop succeeded; give up on the first error and
 * leave that unit and every earlier one recorded (Runner.Finish,
 * Starter.Stop, Manager.Stop, ResourceStarter.Stop).
 *
 * Draining: walk the list from last to first, stopping each unit and
 * dropping it whatever its Stop returned (the rollback of Starter).
 */
module Teardown {
  import opened Lifecycle

  datatype Teardown = Teardown(err: Outcome, remaining: seq<Unit>, log: Log)

  function Halting(w: World, reporter: bool, s: seq<Unit>, log: Log): Teardown
    decreases |s|
  {
    if s == [] then Teardown(None, [], log)
    else
      var (e, log1) := StopReported(w, reporter, log, s[|s| - 1]);
      if e.Some? then Teardown(e, s, log1)
      else Halting(w, reporter, s[..|s| - 1], log1)
  }

  function Draining(w: World, reporter: bool, s: seq<Unit>, log: Log): Log
    decreases |s|
  {
    if s == [] then log
    else Draining(w, reporter, s[..|s| - 1], StopReported(w, reporter, log, s[|s| - 1]).1)
  }

  /** Only the stop list and the trace change, and both only grow. */
  ghost predicate OnlyStops(before: Log, after: Log)
  {
    && after.loaded == before.loaded && after.started == before.started
    && after.closed == before.closed && after.checks == before.checks
    && after.selects == before.selects
    && before.stopped <= after.stopped
    && before.trace <= after.trace
  }

  /** The stop answers numbered from..from+n-1 are all successes. */
  ghost predicate StopsSucceed(w: World, from: nat, n: nat)
  {
    forall i :: from <= i < from + n ==> w.stop(i).None?
  }

  /** One reported stop: the n-th stop answer, one more unit stopped, nothing else called. */
  lemma StopReportedShape(w: World, reporter: bool, log: Log, u: Unit)
    ensures var (e, log1) := StopReported(w, reporter, log, u);
      && e == w.stop(|log.stopped|)
      && log1.stopped == log.stopped + [u]
      && OnlyStops(log, log1)
  {
  }

  /**
   * What the halting teardown does, for every world: it drops a suffix of
   * the list, the units whose Stop succeeded; it succeeds exactly when the
   * list is drained; on the first failing Stop it returns that error with
   * the failing unit still last in the list.
   */
  lemma {:induction false} HaltingShape(w: World, reporter: bool, s: seq<Unit>, log: Log)
    ensures var t := Halting(w, reporter, s, log);
      var gone := |s| - |t.remaining|;
      && |t.remaining| <= |s| && t.remaining == s[..|t.remaining|]
      && (t.err.None? <==> t.remaining == [])
      && StopsSucceed(w, |log.stopped|, gone)
      && (t.err.Some? ==> t.err == w.stop(|log.stopped| + gone))
      && |t.log.stopped| == |log.stopped| + gone + (if t.err.Some? then 1 else 0)
    decreases |s|
  {
    var t := Halting(w, reporter, s, log);
    if s != [] {
      var u := s[|s| - 1];
      var s' := s[..|s| - 1];
      var (e, log1) := StopReported(w, reporter, log, u);
      StopReportedShape(w, reporter, log, u);
      if e.Some? {
        assert t == Teardown(e, s, log1);
        assert s[..|s|] == s;
      } else {
        assert t == Halting(w, reporter, s', log1);
        HaltingShape(w, reporter, s', log1);
        assert s'[..|t.remaining|] == s[..|t.remaining|];
      }
    }
  }

  /** The halting teardown drains the list exactly when every Stop it would call succeeds. */
  lemma HaltingDrains(w: World, reporter: bool, s: seq<Unit>, log: Log)
    ensures Halting(w, reporter, s, log).remaining == [] <==> StopsSucceed(w, |log.stopped|, |s|)
  {
    var t := Halting(w, reporter, s, log);
    HaltingShape(w, reporter, s, log);
    if t.remaining != [] {
      var gone := |s| - |t.remaining|;
      assert w.stop(|log.stopped| + gone).Some?;
    }
  }

  lemma SnocThenPrefix<T>(a: seq<T>, u: T, r: seq<T>, k: nat)
    requires k <= |r|
    ensures (a + [u]) + r[..k] == a + ([u] + r)[..k + 1]
  {
    assert ([u] + r)[..k + 1] == [u] + r[..k];
  }

  /**
   * The halting teardown calls Stop on the units from last to first, one
   * call per stop answer it consumed, and on no other unit.
   */
  lemma {:induction false} HaltingOrder(w: World, reporter: bool, s: seq<Unit>, log: Log)
    ensures var t := Halting(w, reporter, s, log);
      && |log.stopped| <= |t.log.stopped| <= |log.stopped| + |s|
      && t.log.stopped == log.stopped + Reverse(s)[..|t.log.stopped| - |log.stopped|]
    decreases |s|
  {
    var t := Halting(w, reporter, s, log);
    if s != [] {
      var u := s[|s| - 1];
      var s' := s[..|s| - 1];
      var (e, log1) := StopReported(w, reporter, log, u);
      StopReportedShape(w, reporter, log, u);
      assert Reverse(s) == [u] + Reverse(s');
      if e.Some? {
        assert t.log == log1;
        assert Reverse(s)[..1] == [u];
      } else {
        var t' := Halting(w, reporter, s', log1);
        assert t == t';
        HaltingOrder(w, reporter, s', log1);
        SnocThenPrefix(log.stopped, u, Reverse(s'), |t'.log.stopped| - |log1.stopped|);
      }
    }
  }

  /** The halting teardown only stops units and extends the trace. */
  lemma {:induction false} HaltingOnlyStops(w: World, reporter: bool, s: seq<Unit>, log: Log)
    ensures OnlyStops(log, Halting(w, reporter, s, log).log)
    decreases |s|
  {
    if s != [] {
      var (e, log1) := StopReported(w, reporter, log, s[|s| - 1]);
      StopReportedShape(w, reporter, log, s[|s| - 1]);
      if e.None? {
        HaltingOnlyStops(w, reporter, s[..|s| - 1], log1);
      }
    }
  }

  /**
   * The rollback stops every unit exactly once, from last to first,
   * whatever the stop answers are.
   */
  lemma {:induction false} DrainingShape(w: World, reporter: bool, s: seq<Unit>, log: Log)
    ensures var log' := Draining(w, reporter, s, log);
      && log'.stopped == log.stopped + Reverse(s)
      && OnlyStops(log, log')
    decreases |s|
  {
    if s != [] {
      var u := s[|s| - 1];
      var s' := s[..|s| - 1];
      var log1 := StopReported(w, reporter, log, u).1;
      StopReportedShape(w, reporter, log, u);
      DrainingShape(w, reporter, s', log1);
      assert Reverse(s) == [u] + Reverse(s');
    }
  }

  /** One unit whose Stop succeeds: it is dropped after BeforeStop, Stop, AfterStop. */
  lemma HaltingSingle(w: World, reporter: bool, u: Unit, log: Log)
    requires w.stop(|log.stopped|).None?
    ensures var t := Halting(w, reporter, [u], log);
      && t.err.None? && t.remaining == [] && t.log.stopped == log.stopped + [u]
      && t.log.trace == log.trace +
           (if reporter then [BeforeStop(u), Called(StopOp, u), AfterStop(u, None)] else [Called(StopOp, u)])
  {
    var s := [u];
    var (e, log1) := StopReported(w, reporter, log, u);
    assert s[|s| - 1] == u && s[..|s| - 1] == [];
    assert Halting(w, reporter, s, log) == Halting(w, reporter, [], log1);
  }
}
