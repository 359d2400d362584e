/*
 * The sequential start of Manager and ResourceStarter (manager.go:63-136,
 * resource_starter.go:48-121 are the same algorithm): poll the context,
 * load a Configurable, poll again, start, append; on any error the
 * deferred functions cancel the derived context and then call Stop, which
 * tears down what was started, halting on the first failing Stop.
 */
module Sequential {
  import opened Lifecycle
  import opened Teardown

  datatype Progress = Progress(started: seq<Unit>, log: Log)

  /** What one iteration of a start loop does to the progress, with its error. */
  type Step = (Unit, Progress) -> (Outcome, Progress)

  /** Load a Configurable (with its reporter calls); nothing for any other unit. */
  function LoadStage(w: World, reporter: bool, u: Unit, log: Log): (Outcome, Log)
  {
    if u.configurable then LoadReported(w, reporter, log, u) else (None, log)
  }

  /** The calls of one iteration (poll, load, poll, start), up to the first error. */
  function StartAttempt(w: World, reporter: bool, u: Unit, log: Log): (Outcome, Log)
  {
    var (c1, log1) := PollDone(w, log);
    if c1.Some? then (c1, log1)
    else
      var (le, log2) := LoadStage(w, reporter, u, log1);
      if le.Some? then (le, log2)
      else
        var (c2, log3) := PollDone(w, log2);
        if c2.Some? then (c2, log3)
        else StartReported(w, reporter, log3, u, StartOp)
  }

  /** One iteration of the start loop: the unit is appended only if none of its calls failed. */
  function StartStep(w: World, reporter: bool, u: Unit, p: Progress): (Outcome, Progress)
  {
    var (e, log') := StartAttempt(w, reporter, u, p.log);
    (e, Progress(if e.None? then p.started + [u] else p.started, log'))
  }

  function StartStepOf(w: World, reporter: bool): Step
  {
    (u: Unit, p: Progress) => StartStep(w, reporter, u, p)
  }

  /** A start loop: runs `step` on each unit in order until one returns an error. */
  function StartLoop(step: Step, units: seq<Unit>, p: Progress): (Outcome, Progress)
    decreases |units|
  {
    if units == [] then (None, p)
    else
      var (e, p1) := step(units[0], p);
      if e.Some? then (e, p1) else StartLoop(step, units[1..], p1)
  }

  /** A start loop on a non-empty list is its first iteration, then the rest, unless it failed. */
  lemma StartLoopHead(step: Step, units: seq<Unit>, p: Progress)
    requires units != []
    ensures var (e, p1) := step(units[0], p);
      StartLoop(step, units, p) == if e.Some? then (e, p1) else StartLoop(step, units[1..], p1)
  {
  }

  /** The progress after the first k iterations, when none of them failed. */
  function Steps(step: Step, units: seq<Unit>, p: Progress, k: nat): Progress
    requires k <= |units|
    decreases k
  {
    if k == 0 then p else Steps(step, units[1..], step(units[0], p).1, k - 1)
  }

  /** Stop: call the stored cancel function if there is one, then the halting teardown. */
  function CancelThenHalt(w: World, reporter: bool, hasCancel: bool, started: seq<Unit>, log: Log): Teardown
  {
    Halting(w, reporter, started, if hasCancel then Record(log, CancelCalled) else log)
  }

  datatype Guarded = Guarded(err: Outcome, started: seq<Unit>, log: Log)

  /**
   * Start with its deferred functions: the derived context is cancelled
   * when Start returns, and on an error Stop runs (its own error is
   * dropped; Start returns the start error).
   */
  function GuardedStart(w: World, reporter: bool, units: seq<Unit>, started: seq<Unit>, log: Log): Guarded
  {
    var (e, p) := StartLoop(StartStepOf(w, reporter), units, Progress(started, log));
    var log1 := Record(p.log, CancelCalled);
    if e.None? then Guarded(None, p.started, log1)
    else
      var t := CancelThenHalt(w, reporter, true, p.started, log1);
      Guarded(e, t.remaining, t.log)
  }

  /** The configurable units of `s`, in order: the ones the loop loads. */
  function Configurables(s: seq<Unit>): (r: seq<Unit>)
    ensures |r| <= |s|
  {
    if s == [] then []
    else (if s[0].configurable then [s[0]] else []) + Configurables(s[1..])
  }

  /** The context polls numbered from..from+n-1 all find it live. */
  ghost predicate PollsClear(w: World, from: nat, n: nat)
  {
    forall i :: from <= i < from + n ==> w.done(i).None?
  }

  /** The load answers numbered from..from+n-1 are all successes. */
  ghost predicate LoadsSucceed(w: World, from: nat, n: nat)
  {
    forall i :: from <= i < from + n ==> w.load(i).None?
  }

  /** The start answers numbered from..from+n-1 are all successes. */
  ghost predicate StartsSucceed(w: World, from: nat, n: nat)
  {
    forall i :: from <= i < from + n ==> w.start(i).None?
  }

  lemma PollsClearTail(w: World, from: nat, n: nat, d: nat)
    requires PollsClear(w, from, n) && d <= n
    ensures PollsClear(w, from + d, n - d)
    ensures d < n ==> w.done(from).None?
  {
  }

  lemma LoadsSucceedTail(w: World, from: nat, n: nat, d: nat)
    requires LoadsSucceed(w, from, n) && d <= n
    ensures LoadsSucceed(w, from + d, n - d)
    ensures d < n ==> w.load(from).None?
  {
  }

  lemma StartsSucceedCons(w: World, from: nat, n: nat)
    requires w.start(from).None? && StartsSucceed(w, from + 1, n)
    ensures StartsSucceed(w, from, n + 1)
  {
  }

  lemma StartsSucceedTail(w: World, from: nat, n: nat)
    requires StartsSucceed(w, from, n + 1)
    ensures w.start(from).None? && StartsSucceed(w, from + 1, n)
  {
  }

  /** Appending the head, then a prefix of the tail, appends a prefix of the whole. */
  lemma ConsPrefix<T>(a: seq<T>, s: seq<T>, k: nat)
    requires 0 < |s| && k < |s|
    ensures (a + [s[0]]) + s[1..][..k] == a + s[..k + 1]
  {
    assert s[..k + 1] == [s[0]] + s[1..][..k];
  }

  lemma ConfigurablesCons(a: seq<Unit>, s: seq<Unit>, k: nat)
    requires 0 < k <= |s|
    ensures a + Configurables(s[..k]) == (a + (if s[0].configurable then [s[0]] else [])) + Configurables(s[1..][..k - 1])
  {
    assert s[..k][1..] == s[1..][..k - 1];
  }

  /** Only loads, starts, context polls and the trace change, and they only grow. */
  ghost predicate Grows(before: Log, after: Log)
  {
    && after.stopped == before.stopped && after.closed == before.closed && after.selects == before.selects
    && before.loaded <= after.loaded && before.started <= after.started && before.checks <= after.checks
    && before.trace <= after.trace
  }

  /**
   * One iteration appends its unit exactly when it returns no error, and
   * then it has called Start on it; otherwise it may have called Start on
   * it once, and then the error is Start's answer.
   */
  ghost predicate StepShape(w: World, u: Unit, p: Progress, r: (Outcome, Progress))
  {
    var (e, p1) := r;
    && Grows(p.log, p1.log)
    && (e.None? ==> p1.started == p.started + [u] && p1.log.started == p.log.started + [u])
    && (e.Some? ==> p1.started == p.started)
    && (p1.log.started == p.log.started || p1.log.started == p.log.started + [u])
    && (p1.log.started == p.log.started + [u] ==> e == w.start(|p.log.started|))
  }

  /** The first poll finds the context live and a configurable unit loads. */
  ghost predicate Cleared(w: World, u: Unit, log: Log)
  {
    w.done(log.checks).None? && (u.configurable ==> w.load(|log.loaded|).None?)
  }

  /** A done context at the first poll: the iteration returns ctx.Err() before calling Start. */
  ghost predicate ExitsWhenDone(w: World, u: Unit, p: Progress, r: (Outcome, Progress))
  {
    w.done(p.log.checks).Some? ==> r.0 == w.done(p.log.checks) && r.1.log.started == p.log.started
  }

  /** A failing Load after a live poll: the iteration returns its error before calling Start. */
  ghost predicate ExitsOnLoad(w: World, u: Unit, p: Progress, r: (Outcome, Progress))
  {
    w.done(p.log.checks).None? && u.configurable && w.load(|p.log.loaded|).Some? ==>
      r.0 == w.load(|p.log.loaded|) && r.1.log.started == p.log.started
  }

  /** A done context at the poll after the Load: the iteration returns ctx.Err() before calling Start. */
  ghost predicate ExitsWhenDoneAfterLoad(w: World, u: Unit, p: Progress, r: (Outcome, Progress))
  {
    Cleared(w, u, p.log) && w.done(p.log.checks + 1).Some? ==>
      r.0 == w.done(p.log.checks + 1) && r.1.log.started == p.log.started
  }

  /**
   * Two live polls and a successful Load (if configurable): the iteration
   * calls Start once and returns its answer, after one load and two polls.
   */
  ghost predicate ReachesStart(w: World, u: Unit, p: Progress, r: (Outcome, Progress))
  {
    Cleared(w, u, p.log) && w.done(p.log.checks + 1).None? ==>
      && r.0 == w.start(|p.log.started|)
      && r.1.log.started == p.log.started + [u]
      && r.1.log.loaded == p.log.loaded + (if u.configurable then [u] else [])
      && r.1.log.checks == p.log.checks + 2
  }

  /** A step that appends its unit exactly when it succeeds, for every unit and progress. */
  ghost predicate Appends(w: World, step: Step)
  {
    forall u, p {:trigger StepShape(w, u, p, step(u, p))} :: StepShape(w, u, p, step(u, p))
  }

  /** A step that behaves as one iteration of the start loop does, for every unit and progress. */
  ghost predicate WellShaped(w: World, step: Step)
  {
    && Appends(w, step)
    && (forall u, p {:trigger ExitsWhenDone(w, u, p, step(u, p))} :: ExitsWhenDone(w, u, p, step(u, p)))
    && (forall u, p {:trigger ExitsOnLoad(w, u, p, step(u, p))} :: ExitsOnLoad(w, u, p, step(u, p)))
    && (forall u, p {:trigger ExitsWhenDoneAfterLoad(w, u, p, step(u, p))} ::
          ExitsWhenDoneAfterLoad(w, u, p, step(u, p)))
    && (forall u, p {:trigger ReachesStart(w, u, p, step(u, p))} :: ReachesStart(w, u, p, step(u, p)))
  }

  lemma GrowsTrans(a: Log, b: Log, c: Log)
    requires Grows(a, b) && Grows(b, c)
    ensures Grows(a, c)
  {
  }

  lemma LoadStageGrows(w: World, reporter: bool, u: Unit, log: Log)
    ensures Grows(log, LoadStage(w, reporter, u, log).1)
  {
  }

  lemma StartReportedGrows(w: World, reporter: bool, u: Unit, log: Log)
    ensures Grows(log, StartReported(w, reporter, log, u, StartOp).1)
  {
  }

  /** The calls of one iteration only grow the log. */
  lemma StartAttemptGrows(w: World, reporter: bool, u: Unit, log: Log)
    ensures Grows(log, StartAttempt(w, reporter, u, log).1)
  {
    var (c1, log1) := PollDone(w, log);
    if c1.None? {
      var (le, log2) := LoadStage(w, reporter, u, log1);
      LoadStageGrows(w, reporter, u, log1);
      GrowsTrans(log, log1, log2);
      if le.None? {
        var (c2, log3) := PollDone(w, log2);
        GrowsTrans(log, log2, log3);
        StartReportedGrows(w, reporter, u, log3);
        GrowsTrans(log, log3, StartReported(w, reporter, log3, u, StartOp).1);
      }
    }
  }

  /** One iteration calls Start on its unit at most once, and succeeds only after calling it. */
  lemma StartAttemptStarts(w: World, reporter: bool, u: Unit, log: Log)
    ensures var (e, log1) := StartAttempt(w, reporter, u, log);
      && (e.None? ==> log1.started == log.started + [u])
      && (log1.started == log.started || log1.started == log.started + [u])
      && (log1.started == log.started + [u] ==> e == w.start(|log.started|))
  {
  }

  lemma StartStepShape(w: World, reporter: bool, u: Unit, p: Progress)
    ensures StepShape(w, u, p, StartStep(w, reporter, u, p))
  {
    StartAttemptGrows(w, reporter, u, p.log);
    StartAttemptStarts(w, reporter, u, p.log);
  }

  lemma StartStepExits(w: World, reporter: bool, u: Unit, p: Progress)
    ensures var r := StartStep(w, reporter, u, p);
      && ExitsWhenDone(w, u, p, r) && ExitsOnLoad(w, u, p, r)
      && ExitsWhenDoneAfterLoad(w, u, p, r) && ReachesStart(w, u, p, r)
  {
  }

  /** The iteration of Start has the shape every start-loop lemma below relies on. */
  lemma StartStepWellShaped(w: World, reporter: bool)
    ensures WellShaped(w, StartStepOf(w, reporter))
  {
    forall u, p
      ensures StepShape(w, u, p, StartStepOf(w, reporter)(u, p))
      ensures ExitsWhenDone(w, u, p, StartStepOf(w, reporter)(u, p))
      ensures ExitsOnLoad(w, u, p, StartStepOf(w, reporter)(u, p))
      ensures ExitsWhenDoneAfterLoad(w, u, p, StartStepOf(w, reporter)(u, p))
      ensures ReachesStart(w, u, p, StartStepOf(w, reporter)(u, p))
    {
      StartStepShape(w, reporter, u, p);
      StartStepExits(w, reporter, u, p);
    }
  }

  /**
   * A start loop appends, in order, exactly the units whose iteration
   * succeeded: a prefix of `units` of length k, all of them exactly when
   * it returns nil; the first k Start answers were successes.
   */
  lemma {:induction false} StartLoopStarted(w: World, step: Step, units: seq<Unit>, p: Progress)
    requires Appends(w, step)
    ensures var (e, p1) := StartLoop(step, units, p);
      var k := |p1.started| - |p.started|;
      && |p.started| <= |p1.started| <= |p.started| + |units|
      && p1.started == p.started + units[..k]
      && (e.None? <==> k == |units|)
      && StartsSucceed(w, |p.log.started|, k)
      && Grows(p.log, p1.log)
    decreases |units|
  {
    var (e, p1) := StartLoop(step, units, p);
    if units != [] {
      var (e0, q) := step(units[0], p);
      assert StepShape(w, units[0], p, step(units[0], p));
      if e0.Some? {
        assert units[..0] == [];
      } else {
        StartLoopStarted(w, step, units[1..], q);
        ConsPrefix(p.started, units, |p1.started| - |q.started|);
        StartsSucceedCons(w, |p.log.started|, |p1.started| - |q.started|);
      }
    }
  }

  /**
   * Start was called, in order, on the appended prefix of `units` and
   * possibly on the unit after it, in which case the loop returns the
   * answer of that last Start call.
   */
  lemma {:induction false} StartLoopCalls(w: World, step: Step, units: seq<Unit>, p: Progress)
    requires Appends(w, step)
    ensures var (e, p1) := StartLoop(step, units, p);
      var k := |p1.started| - |p.started|;
      var calls := |p1.log.started| - |p.log.started|;
      && 0 <= k <= calls <= |units| && calls <= k + 1
      && p1.log.started == p.log.started + units[..calls]
      && (calls == k + 1 ==> e == w.start(|p1.log.started| - 1))
    decreases |units|
  {
    var (e, p1) := StartLoop(step, units, p);
    if units != [] {
      var (e0, q) := step(units[0], p);
      assert StepShape(w, units[0], p, step(units[0], p));
      if e0.Some? {
        assert units[..0] == [] && units[..1] == [units[0]];
      } else {
        StartLoopCalls(w, step, units[1..], q);
        ConsPrefix(p.log.started, units, |p1.log.started| - |q.log.started|);
      }
    }
  }

  /** Every iteration before the k-th finds the context live and its Load and Start succeed. */
  ghost predicate ClearUpTo(w: World, units: seq<Unit>, p: Progress, k: nat)
    requires k <= |units|
  {
    && PollsClear(w, p.log.checks, 2 * k)
    && LoadsSucceed(w, |p.log.loaded|, |Configurables(units[..k])|)
    && StartsSucceed(w, |p.log.started|, k)
  }

  /** The first of k clear iterations is clear. */
  lemma ClearUpToHead(w: World, units: seq<Unit>, p: Progress, k: nat)
    requires 0 < k <= |units| && ClearUpTo(w, units, p, k)
    ensures Cleared(w, units[0], p.log) && w.done(p.log.checks + 1).None? && w.start(|p.log.started|).None?
  {
    var n := |Configurables(units[..k])|;
    ConfigurablesCons([], units, k);
    PollsClearTail(w, p.log.checks, 2 * k, 0);
    PollsClearTail(w, p.log.checks, 2 * k, 1);
    LoadsSucceedTail(w, |p.log.loaded|, n, 0);
  }

  /** After the first of k clear iterations, the k-1 that follow are clear. */
  lemma ClearUpToTail(w: World, units: seq<Unit>, p: Progress, q: Progress, k: nat)
    requires 0 < k <= |units| && ClearUpTo(w, units, p, k)
    requires q.log.checks == p.log.checks + 2
    requires q.log.loaded == p.log.loaded + (if units[0].configurable then [units[0]] else [])
    requires q.log.started == p.log.started + [units[0]]
    ensures ClearUpTo(w, units[1..], q, k - 1)
  {
    var n := |Configurables(units[..k])|;
    var d := if units[0].configurable then 1 else 0;
    ConfigurablesCons([], units, k);
    PollsClearTail(w, p.log.checks, 2 * k, 2);
    LoadsSucceedTail(w, |p.log.loaded|, n, d);
    StartsSucceedTail(w, |p.log.started|, k - 1);
  }

  /**
   * When the first k iterations find the context live and their Loads and
   * Starts succeed, exactly the first k units have been loaded (if
   * configurable), started and appended, after two polls each.
   */
  lemma {:induction false} StepsClear(w: World, step: Step, units: seq<Unit>, p: Progress, k: nat)
    requires WellShaped(w, step) && k <= |units| && ClearUpTo(w, units, p, k)
    ensures var q := Steps(step, units, p, k);
      && q.started == p.started + units[..k]
      && q.log.started == p.log.started + units[..k]
      && q.log.loaded == p.log.loaded + Configurables(units[..k])
      && q.log.checks == p.log.checks + 2 * k
    decreases k
  {
    if k == 0 {
      assert units[..0] == [];
    } else {
      var u := units[0];
      var (e0, q) := step(u, p);
      assert StepShape(w, u, p, step(u, p)) && ReachesStart(w, u, p, step(u, p));
      ClearUpToHead(w, units, p, k);
      ClearUpToTail(w, units, p, q, k);
      ConfigurablesCons(p.log.loaded, units, k);
      StepsClear(w, step, units[1..], q, k - 1);
      ConsPrefix(p.started, units, k - 1);
      ConsPrefix(p.log.started, units, k - 1);
    }
  }

  /** After k clear iterations the loop goes on from the progress they reached. */
  lemma {:induction false} StartLoopPrefix(w: World, step: Step, units: seq<Unit>, p: Progress, k: nat)
    requires WellShaped(w, step) && k <= |units| && ClearUpTo(w, units, p, k)
    ensures StartLoop(step, units, p) == StartLoop(step, units[k..], Steps(step, units, p, k))
    decreases k
  {
    if k == 0 {
      assert units[0..] == units;
    } else {
      var u := units[0];
      var (e0, q) := step(u, p);
      assert ReachesStart(w, u, p, step(u, p));
      ClearUpToHead(w, units, p, k);
      ClearUpToTail(w, units, p, q, k);
      StartLoopPrefix(w, step, units[1..], q, k - 1);
      assert units[1..][k - 1..] == units[k..];
    }
  }

  /**
   * When the first k iterations are clear and the k-th fails, the loop
   * returns the k-th iteration's result.
   */
  lemma StartLoopEndsAt(w: World, step: Step, units: seq<Unit>, p: Progress, k: nat)
    requires WellShaped(w, step) && k < |units| && ClearUpTo(w, units, p, k)
    requires step(units[k], Steps(step, units, p, k)).0.Some?
    ensures StartLoop(step, units, p) == step(units[k], Steps(step, units, p, k))
  {
    StartLoopPrefix(w, step, units, p, k);
    assert units[k..][0] == units[k];
  }

  lemma SnocPrefix<T>(a: seq<T>, s: seq<T>, k: nat)
    requires k < |s|
    ensures (a + s[..k]) + [s[k]] == a + s[..k + 1]
  {
    assert s[..k + 1] == s[..k] + [s[k]];
  }

  /**
   * When every iteration finds the context live and every Load and Start
   * succeeds, the loop returns nil having loaded the configurable units
   * and started and appended every unit, in order.
   */
  lemma StartLoopAllSucceed(w: World, step: Step, units: seq<Unit>, p: Progress)
    requires WellShaped(w, step) && ClearUpTo(w, units, p, |units|)
    ensures var (e, p1) := StartLoop(step, units, p);
      && e.None?
      && p1.started == p.started + units
      && p1.log.started == p.log.started + units
      && p1.log.loaded == p.log.loaded + Configurables(units)
  {
    StepsClear(w, step, units, p, |units|);
    StartLoopPrefix(w, step, units, p, |units|);
    assert units[..|units|] == units;
    assert units[|units|..] == [];
  }

  /**
   * If the first k iterations are clear and the k-th unit's Start fails
   * (after the context was found live twice and its Load succeeded), the
   * loop returns that error: the first k units stay appended, Start was
   * called on exactly the first k+1 units and never on a later one.
   */
  lemma StartLoopFailsAt(w: World, step: Step, units: seq<Unit>, p: Progress, k: nat)
    requires WellShaped(w, step) && k < |units| && ClearUpTo(w, units, p, k)
    requires w.done(p.log.checks + 2 * k).None? && w.done(p.log.checks + 2 * k + 1).None?
    requires units[k].configurable ==> w.load(|p.log.loaded| + |Configurables(units[..k])|).None?
    requires w.start(|p.log.started| + k).Some?
    ensures var (e, p1) := StartLoop(step, units, p);
      && e == w.start(|p.log.started| + k)
      && p1.started == p.started + units[..k]
      && p1.log.started == p.log.started + units[..k + 1]
  {
    StepsClear(w, step, units, p, k);
    var q := Steps(step, units, p, k);
    assert |q.log.started| == |p.log.started| + k;
    assert |q.log.loaded| == |p.log.loaded| + |Configurables(units[..k])|;
    assert q.log.checks + 1 == p.log.checks + 2 * k + 1;
    var r := step(units[k], q);
    assert Cleared(w, units[k], q.log) && w.done(q.log.checks + 1).None?;
    assert ReachesStart(w, units[k], q, r);
    assert r.0 == w.start(|q.log.started|);
    assert r.1.log.started == q.log.started + [units[k]];
    assert StepShape(w, units[k], q, r);
    assert r.1.started == q.started;
    StartLoopEndsAt(w, step, units, p, k);
    SnocPrefix(p.log.started, units, k);
  }

  /**
   * If the first k iterations are clear and the k-th unit is configurable
   * and its Load fails, the loop returns that error before calling its
   * Start: the first k units stay appended and Start was called on exactly
   * them.
   */
  lemma StartLoopLoadFailsAt(w: World, step: Step, units: seq<Unit>, p: Progress, k: nat)
    requires WellShaped(w, step) && k < |units| && ClearUpTo(w, units, p, k)
    requires w.done(p.log.checks + 2 * k).None? && units[k].configurable
    requires w.load(|p.log.loaded| + |Configurables(units[..k])|).Some?
    ensures var (e, p1) := StartLoop(step, units, p);
      && e == w.load(|p.log.loaded| + |Configurables(units[..k])|)
      && p1.started == p.started + units[..k]
      && p1.log.started == p.log.started + units[..k]
  {
    StepsClear(w, step, units, p, k);
    var q := Steps(step, units, p, k);
    var r := step(units[k], q);
    assert ExitsOnLoad(w, units[k], q, r);
    assert StepShape(w, units[k], q, r);
    StartLoopEndsAt(w, step, units, p, k);
  }

  /**
   * If the first k iterations are clear and the poll before the k-th
   * unit's Load finds the context done, the loop returns ctx.Err(): the
   * first k units stay appended and Start was called on exactly them.
   */
  lemma StartLoopCancelledBeforeLoad(w: World, step: Step, units: seq<Unit>, p: Progress, k: nat)
    requires WellShaped(w, step) && k < |units| && ClearUpTo(w, units, p, k)
    requires w.done(p.log.checks + 2 * k).Some?
    ensures var (e, p1) := StartLoop(step, units, p);
      && e == w.done(p.log.checks + 2 * k)
      && p1.started == p.started + units[..k]
      && p1.log.started == p.log.started + units[..k]
  {
    StepsClear(w, step, units, p, k);
    var q := Steps(step, units, p, k);
    var r := step(units[k], q);
    assert ExitsWhenDone(w, units[k], q, r);
    assert StepShape(w, units[k], q, r);
    StartLoopEndsAt(w, step, units, p, k);
  }

  /**
   * If the first k iterations are clear, the k-th unit's first poll finds
   * the context live and its Load (if any) succeeds, but the poll after
   * the Load finds the context done, the loop returns ctx.Err(): the first
   * k units stay appended and Start was called on exactly them.
   */
  lemma StartLoopCancelledAfterLoad(w: World, step: Step, units: seq<Unit>, p: Progress, k: nat)
    requires WellShaped(w, step) && k < |units| && ClearUpTo(w, units, p, k)
    requires w.done(p.log.checks + 2 * k).None?
    requires units[k].configurable ==> w.load(|p.log.loaded| + |Configurables(units[..k])|).None?
    requires w.done(p.log.checks + 2 * k + 1).Some?
    ensures var (e, p1) := StartLoop(step, units, p);
      && e == w.done(p.log.checks + 2 * k + 1)
      && p1.started == p.started + units[..k]
      && p1.log.started == p.log.started + units[..k]
  {
    StepsClear(w, step, units, p, k);
    var q := Steps(step, units, p, k);
    assert q.log.checks + 1 == p.log.checks + 2 * k + 1;
    var r := step(units[k], q);
    assert Cleared(w, units[k], q.log) && w.done(q.log.checks + 1).Some?;
    assert ExitsWhenDoneAfterLoad(w, units[k], q, r);
    assert StepShape(w, units[k], q, r);
    StartLoopEndsAt(w, step, units, p, k);
  }

  /**
   * Start and its deferred functions: Start returns the loop's error. On
   * success every unit is kept and nothing is stopped. On an error the
   * started units are stopped from last to first; each one whose Stop
   * succeeded is dropped, and the teardown halts at the first failing
   * Stop, so what stays is a prefix of the started list, empty exactly
   * when every Stop succeeded.
   */
  lemma GuardedStartOutcome(w: World, reporter: bool, units: seq<Unit>, started: seq<Unit>, log: Log)
    ensures var (e, p) := StartLoop(StartStepOf(w, reporter), units, Progress(started, log));
      var g := GuardedStart(w, reporter, units, started, log);
      && g.err == e
      && (e.None? ==> g.started == started + units && g.log.stopped == log.stopped)
      && (e.Some? ==>
            && |g.started| <= |p.started| && g.started == p.started[..|g.started|]
            && (g.started == [] <==> StopsSucceed(w, |log.stopped|, |p.started|))
            && |log.stopped| <= |g.log.stopped| <= |log.stopped| + |p.started|
            && g.log.stopped == log.stopped + Reverse(p.started)[..|g.log.stopped| - |log.stopped|])
  {
    var (e, p) := StartLoop(StartStepOf(w, reporter), units, Progress(started, log));
    StartStepWellShaped(w, reporter);
    StartLoopStarted(w, StartStepOf(w, reporter), units, Progress(started, log));
    assert units[..|units|] == units;
    if e.Some? {
      var log1 := Record(Record(p.log, CancelCalled), CancelCalled);
      HaltingShape(w, reporter, p.started, log1);
      HaltingOrder(w, reporter, p.started, log1);
      HaltingDrains(w, reporter, p.started, log1);
    }
  }

  /** With a reporter, one plain unit, a live context and a successful Start: the iteration appends it after BeforeStart, Start, AfterStart(nil). */
  lemma OneUnitStep(w: World, u: Unit, log: Log) returns (q: Progress)
    requires !u.configurable
    requires w.done(log.checks).None? && w.done(log.checks + 1).None?
    requires w.start(|log.started|).None?
    ensures StartStep(w, true, u, Progress([], log)) == (None, q)
    ensures q.started == [u] && q.log.stopped == log.stopped
    ensures q.log.trace == log.trace + [BeforeStart(u), Called(StartOp, u), AfterStart(u, None)]
  {
    var r := StartStep(w, true, u, Progress([], log));
    q := r.1;
    var log3 := log.(checks := log.checks + 2);
    assert q.log == Notify(Invoke(w, Notify(log3, true, BeforeStart(u)), StartOp, u).1, true, AfterStart(u, None));
    assert r.0.None? && q.started == [u];
  }

  /** With a reporter, one plain unit, a live context and a successful Start: Start keeps the unit. */
  lemma OneUnitStart(w: World, u: Unit, log: Log)
    requires !u.configurable
    requires w.done(log.checks).None? && w.done(log.checks + 1).None?
    requires w.start(|log.started|).None?
    ensures var g := GuardedStart(w, true, [u], [], log);
      && g.err.None? && g.started == [u] && g.log.stopped == log.stopped
      && g.log.trace == log.trace + [BeforeStart(u), Called(StartOp, u), AfterStart(u, None), CancelCalled]
  {
    var p := Progress([], log);
    var q := OneUnitStep(w, u, log);
    assert [u][1..] == [];
    assert StartLoop(StartStepOf(w, true), [u], p) == (None, q);
  }

  /**
   * With a reporter, one unit that is not configurable, a live context and
   * successful Start and Stop: Start keeps the unit, and the Stop after it
   * drops it; the trace is BeforeStart, Start, AfterStart(nil), Start's
   * deferred cancel, Stop's cancel, BeforeStop, Stop, AfterStop(nil).
   */
  lemma OneUnitTrace(w: World, u: Unit, log: Log)
    requires !u.configurable
    requires w.done(log.checks).None? && w.done(log.checks + 1).None?
    requires w.start(|log.started|).None? && w.stop(|log.stopped|).None?
    ensures var g := GuardedStart(w, true, [u], [], log);
      var t := CancelThenHalt(w, true, true, g.started, g.log);
      && g.err.None? && g.started == [u] && t.err.None? && t.remaining == []
      && t.log.trace == log.trace +
           [BeforeStart(u), Called(StartOp, u), AfterStart(u, None), CancelCalled,
            CancelCalled, BeforeStop(u), Called(StopOp, u), AfterStop(u, None)]
  {
    var g := GuardedStart(w, true, [u], [], log);
    OneUnitStart(w, u, log);
    var log1 := Record(g.log, CancelCalled);
    HaltingSingle(w, true, u, log1);
  }
}
