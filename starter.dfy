/*
 * Starter (starter.go): the oldest orchestrator. It is built with its list
 * of services; Start creates a cancellable context and starts them one at
 * a time, each through StartWithContext if it has one, else through Start,
 * and fails on a unit that has neither. On any error the rollback stops
 * every started unit, from last to first, and forgets it whatever its Stop
 * returned. Stop cancels the context and tears down in reverse, halting on
 * the first error; then it forgets the context, so a second Stop does
 * nothing.
 */
module Starter {
  import opened Lifecycle
  import opened Teardown
  import opened Sequential

  /** Start through StartWithContext (priority 1) or Start (priority 2); a unit with neither is an error. */
  function Dispatch(w: World, reporter: bool, u: Unit, log: Log): (Outcome, Log)
  {
    if u.startableWithContext then StartReported(w, reporter, log, u, StartWithContextOp)
    else if u.startable then StartReported(w, reporter, log, u, StartOp)
    else (Some(NotStartable(u.typeName)), log)
  }

  /** One iteration of startWithContext: poll the context, Load a Configurable, dispatch the start. */
  function StarterAttempt(w: World, reporter: bool, u: Unit, log: Log): (Outcome, Log)
  {
    var (c, log1) := PollDone(w, log);
    if c.Some? then (c, log1)
    else
      var (le, log2) := LoadStage(w, reporter, u, log1);
      if le.Some? then (le, log2)
      else Dispatch(w, reporter, u, log2)
  }

  /** The unit is appended to servicesStarted only when its iteration returned no error. */
  function StarterStep(w: World, reporter: bool, u: Unit, p: Progress): (Outcome, Progress)
  {
    var (e, log') := StarterAttempt(w, reporter, u, p.log);
    (e, Progress(if e.None? then p.started + [u] else p.started, log'))
  }

  function StarterStepOf(w: World, reporter: bool): Step
  {
    (u: Unit, p: Progress) => StarterStep(w, reporter, u, p)
  }

  datatype Run = Run(err: Outcome, started: seq<Unit>, log: Log)

  /**
   * startWithContext: the start loop over the services, then on an error
   * the rollback, which stops every started unit and forgets it whatever
   * its Stop returned; the start error is returned.
   */
  function StartServices(w: World, reporter: bool, units: seq<Unit>, started: seq<Unit>, log: Log): Run
  {
    Rollback(w, reporter, StartLoop(StarterStepOf(w, reporter), units, Progress(started, log)))
  }

  /** What follows the start loop: on an error, stop every appended unit and forget it; the error is kept. */
  function Rollback(w: World, reporter: bool, lr: (Outcome, Progress)): Run
  {
    if lr.0.None? then Run(None, lr.1.started, lr.1.log)
    else Run(lr.0, [], Draining(w, reporter, lr.1.started, lr.1.log))
  }

  /**
   * Stop: nothing without a context. Otherwise cancel it, report
   * BeforeStop(nil), run the halting teardown and, on every way out,
   * report AfterStop(nil, nil).
   */
  function StopServices(w: World, reporter: bool, hasContext: bool, started: seq<Unit>, log: Log): Teardown
  {
    if !hasContext then Teardown(None, started, log)
    else
      var t := Halting(w, reporter, started, Notify(Record(log, CancelCalled), reporter, BeforeStopAll));
      Teardown(t.err, t.remaining, Notify(t.log, reporter, AfterStopAll))
  }

  /** Every unit of `s` implements StartWithContext or Start. */
  ghost predicate Dispatchable(s: seq<Unit>)
  {
    forall i :: 0 <= i < |s| ==> s[i].startable || s[i].startableWithContext
  }

  /** The first poll finds the context live and a configurable unit loads. */
  ghost predicate Loads(w: World, u: Unit, log: Log)
  {
    w.done(log.checks).None? && (u.configurable ==> w.load(|log.loaded|).None?)
  }

  /** The events of BeforeX, X, AfterX, or of X alone without a reporter. */
  function Reported(reporter: bool, before: Event, call: Event, after: Event): seq<Event>
  {
    if reporter then [before, call, after] else [call]
  }

  /**
   * The start is dispatched by priority: a unit with StartWithContext is
   * started through it even when it also has Start; a unit with only Start
   * through Start; a unit with neither is not started and yields
   * NotStartable wrapped with its type name.
   */
  lemma DispatchPriority(w: World, reporter: bool, u: Unit, log: Log)
    ensures var (e, log1) := Dispatch(w, reporter, u, log);
      var added := log1.trace[|log.trace|..];
      && log.trace <= log1.trace
      && (u.startableWithContext ==>
            && e == w.start(|log.started|) && log1.started == log.started + [u]
            && Called(StartWithContextOp, u) in added && Called(StartOp, u) !in added)
      && (!u.startableWithContext && u.startable ==>
            && e == w.start(|log.started|) && log1.started == log.started + [u]
            && Called(StartOp, u) in added && Called(StartWithContextOp, u) !in added)
      && (!u.startableWithContext && !u.startable ==>
            e == Some(NotStartable(u.typeName)) && log1 == log)
  {
    var (e, log1) := Dispatch(w, reporter, u, log);
    if u.startableWithContext || u.startable {
      var op := if u.startableWithContext then StartWithContextOp else StartOp;
      assert log1.trace == log.trace + Reported(reporter, BeforeStart(u), Called(op, u), AfterStart(u, e));
      assert log1.trace[|log.trace|..] == Reported(reporter, BeforeStart(u), Called(op, u), AfterStart(u, e));
    }
  }

  lemma DispatchGrows(w: World, reporter: bool, u: Unit, log: Log)
    ensures var (e, log1) := Dispatch(w, reporter, u, log);
      && Grows(log, log1)
      && (log1.started == log.started || log1.started == log.started + [u])
      && (log1.started == log.started + [u] ==> e == w.start(|log.started|))
      && (e.None? ==> log1.started == log.started + [u])
      && log1.loaded == log.loaded && log1.checks == log.checks
  {
  }

  /** One iteration only grows the log, and calls Start (by either interface) at most once on its unit. */
  lemma StarterAttemptShape(w: World, reporter: bool, u: Unit, log: Log)
    ensures var (e, log1) := StarterAttempt(w, reporter, u, log);
      && Grows(log, log1)
      && (log1.started == log.started || log1.started == log.started + [u])
      && (log1.started == log.started + [u] ==> e == w.start(|log.started|))
      && (e.None? ==> log1.started == log.started + [u])
  {
    var (c, log1) := PollDone(w, log);
    if c.None? {
      var (le, log2) := LoadStage(w, reporter, u, log1);
      LoadStageGrows(w, reporter, u, log1);
      GrowsTrans(log, log1, log2);
      if le.None? {
        DispatchGrows(w, reporter, u, log2);
        GrowsTrans(log, log2, Dispatch(w, reporter, u, log2).1);
      }
    }
  }

  /** The iteration of startWithContext appends its unit exactly when it succeeds. */
  lemma StarterStepAppends(w: World, reporter: bool)
    ensures Appends(w, StarterStepOf(w, reporter))
  {
    forall u, p
      ensures StepShape(w, u, p, StarterStepOf(w, reporter)(u, p))
    {
      StarterAttemptShape(w, reporter, u, p.log);
    }
  }

  /** A live poll and a successful Load lead to the dispatch, after one poll and the unit's load. */
  lemma StarterAttemptLoaded(w: World, reporter: bool, u: Unit, log: Log)
    requires Loads(w, u, log)
    ensures var log2 := LoadStage(w, reporter, u, log.(checks := log.checks + 1)).1;
      && StarterAttempt(w, reporter, u, log) == Dispatch(w, reporter, u, log2)
      && log2.checks == log.checks + 1
      && log2.loaded == log.loaded + (if u.configurable then [u] else [])
      && log2.started == log.started && log2.stopped == log.stopped
  {
  }

  /** A done context or a failing Load ends the iteration with that error and no Start call. */
  lemma StarterAttemptExits(w: World, reporter: bool, u: Unit, log: Log)
    ensures var (e, log1) := StarterAttempt(w, reporter, u, log);
      && (w.done(log.checks).Some? ==> e == w.done(log.checks) && log1.started == log.started)
      && (w.done(log.checks).None? && u.configurable && w.load(|log.loaded|).Some? ==>
            e == w.load(|log.loaded|) && log1.started == log.started)
  {
  }

  /**
   * After a live poll and a successful Load the iteration dispatches: it
   * starts a unit with a start interface, answering that Start call, and
   * fails a unit with neither with NotStartable; it never stops anything.
   */
  ghost predicate Dispatches(w: World, u: Unit, p: Progress, r: (Outcome, Progress))
  {
    Loads(w, u, p.log) ==>
      && r.1.log.checks == p.log.checks + 1
      && r.1.log.loaded == p.log.loaded + (if u.configurable then [u] else [])
      && r.1.log.stopped == p.log.stopped
      && (u.startable || u.startableWithContext ==>
            r.0 == w.start(|p.log.started|) && r.1.log.started == p.log.started + [u])
      && (!u.startable && !u.startableWithContext ==>
            r.0 == Some(NotStartable(u.typeName)) && r.1.log.started == p.log.started)
  }

  /** A step that behaves as one iteration of startWithContext does, for every unit and progress. */
  ghost predicate DispatchShaped(w: World, step: Step)
  {
    && Appends(w, step)
    && (forall u, p {:trigger ExitsOnLoad(w, u, p, step(u, p))} :: ExitsOnLoad(w, u, p, step(u, p)))
    && (forall u, p {:trigger Dispatches(w, u, p, step(u, p))} :: Dispatches(w, u, p, step(u, p)))
  }

  lemma StarterStepDispatches(w: World, reporter: bool, u: Unit, p: Progress)
    ensures Dispatches(w, u, p, StarterStep(w, reporter, u, p))
  {
    if Loads(w, u, p.log) {
      StarterAttemptLoaded(w, reporter, u, p.log);
      var log2 := LoadStage(w, reporter, u, p.log.(checks := p.log.checks + 1)).1;
      DispatchPriority(w, reporter, u, log2);
      DispatchGrows(w, reporter, u, log2);
    }
  }

  /** The iteration of startWithContext has the shape every loop lemma below relies on. */
  lemma StarterStepShaped(w: World, reporter: bool)
    ensures DispatchShaped(w, StarterStepOf(w, reporter))
  {
    StarterStepAppends(w, reporter);
    forall u, p
      ensures ExitsOnLoad(w, u, p, StarterStepOf(w, reporter)(u, p))
      ensures Dispatches(w, u, p, StarterStepOf(w, reporter)(u, p))
    {
      StarterAttemptExits(w, reporter, u, p.log);
      StarterStepDispatches(w, reporter, u, p);
    }
  }

  /** The first k iterations find the context live, load, dispatch and start successfully. */
  ghost predicate ClearUpTo(w: World, units: seq<Unit>, p: Progress, k: nat)
    requires k <= |units|
  {
    && PollsClear(w, p.log.checks, k)
    && LoadsSucceed(w, |p.log.loaded|, |Configurables(units[..k])|)
    && StartsSucceed(w, |p.log.started|, k)
    && Dispatchable(units[..k])
  }

  lemma ClearUpToHead(w: World, units: seq<Unit>, p: Progress, k: nat)
    requires 0 < k <= |units| && ClearUpTo(w, units, p, k)
    ensures Loads(w, units[0], p.log) && w.start(|p.log.started|).None?
    ensures units[0].startable || units[0].startableWithContext
  {
    ConfigurablesCons([], units, k);
    PollsClearTail(w, p.log.checks, k, 0);
    LoadsSucceedTail(w, |p.log.loaded|, |Configurables(units[..k])|, 0);
    assert units[..k][0] == units[0];
  }

  lemma ClearUpToTail(w: World, units: seq<Unit>, p: Progress, q: Progress, k: nat)
    requires 0 < k <= |units| && ClearUpTo(w, units, p, k)
    requires q.log.checks == p.log.checks + 1
    requires q.log.loaded == p.log.loaded + (if units[0].configurable then [units[0]] else [])
    requires q.log.started == p.log.started + [units[0]]
    ensures ClearUpTo(w, units[1..], q, k - 1)
  {
    ConfigurablesCons([], units, k);
    PollsClearTail(w, p.log.checks, k, 1);
    LoadsSucceedTail(w, |p.log.loaded|, |Configurables(units[..k])|, if units[0].configurable then 1 else 0);
    StartsSucceedTail(w, |p.log.started|, k - 1);
    assert units[1..][..k - 1] == units[..k][1..];
  }

  /** After k clear iterations, exactly the first k units are loaded (if configurable), started and appended. */
  lemma {:induction false} StepsClear(w: World, step: Step, units: seq<Unit>, p: Progress, k: nat)
    requires DispatchShaped(w, step) && k <= |units| && ClearUpTo(w, units, p, k)
    ensures var q := Steps(step, units, p, k);
      && q.started == p.started + units[..k]
      && q.log.started == p.log.started + units[..k]
      && q.log.loaded == p.log.loaded + Configurables(units[..k])
      && q.log.checks == p.log.checks + k
      && q.log.stopped == p.log.stopped
    decreases k
  {
    if k == 0 {
      assert units[..0] == [];
    } else {
      var u := units[0];
      var q := step(u, p).1;
      ClearUpToHead(w, units, p, k);
      assert Dispatches(w, u, p, step(u, p)) && StepShape(w, u, p, step(u, p));
      ClearUpToTail(w, units, p, q, k);
      ConfigurablesCons(p.log.loaded, units, k);
      StepsClear(w, step, units[1..], q, k - 1);
      ConsPrefix(p.started, units, k - 1);
      ConsPrefix(p.log.started, units, k - 1);
    }
  }

  /** After k clear iterations the loop goes on from the progress they reached. */
  lemma {:induction false} LoopPrefix(w: World, step: Step, units: seq<Unit>, p: Progress, k: nat)
    requires DispatchShaped(w, step) && k <= |units| && ClearUpTo(w, units, p, k)
    ensures StartLoop(step, units, p) == StartLoop(step, units[k..], Steps(step, units, p, k))
    decreases k
  {
    if k == 0 {
      assert units[0..] == units;
    } else {
      var u := units[0];
      var q := step(u, p).1;
      ClearUpToHead(w, units, p, k);
      assert Dispatches(w, u, p, step(u, p));
      ClearUpToTail(w, units, p, q, k);
      LoopPrefix(w, step, units[1..], q, k - 1);
      assert units[1..][k - 1..] == units[k..];
    }
  }

  /** When the first k iterations are clear and the k-th fails, the loop returns the k-th iteration's result. */
  lemma LoopEndsAt(w: World, step: Step, units: seq<Unit>, p: Progress, k: nat)
    requires DispatchShaped(w, step) && k < |units| && ClearUpTo(w, units, p, k)
    requires step(units[k], Steps(step, units, p, k)).0.Some?
    ensures StartLoop(step, units, p) == step(units[k], Steps(step, units, p, k))
  {
    LoopPrefix(w, step, units, p, k);
    StartLoopHead(step, units[k..], Steps(step, units, p, k));
    assert units[k..][0] == units[k];
  }

  /**
   * If the first k iterations are clear and the k-th unit implements
   * neither start interface, the loop returns NotStartable with its type
   * name; Start was called on exactly the first k units, which stay
   * appended, and nothing was stopped.
   */
  lemma LoopNotStartableAt(w: World, step: Step, units: seq<Unit>, p: Progress, k: nat)
    requires DispatchShaped(w, step) && k < |units| && ClearUpTo(w, units, p, k)
    requires w.done(p.log.checks + k).None?
    requires units[k].configurable ==> w.load(|p.log.loaded| + |Configurables(units[..k])|).None?
    requires !units[k].startable && !units[k].startableWithContext
    ensures var (e, p1) := StartLoop(step, units, p);
      && e == Some(NotStartable(units[k].typeName))
      && p1.started == p.started + units[..k]
      && p1.log.started == p.log.started + units[..k]
      && p1.log.stopped == p.log.stopped
  {
    StepsClear(w, step, units, p, k);
    var q := Steps(step, units, p, k);
    var r := step(units[k], q);
    assert Loads(w, units[k], q.log);
    assert Dispatches(w, units[k], q, r);
    assert StepShape(w, units[k], q, r);
    assert r.0 == Some(NotStartable(units[k].typeName)) && r.1.started == q.started;
    LoopEndsAt(w, step, units, p, k);
  }

  /**
   * If the first k iterations are clear and the k-th unit is configurable
   * and its Load fails, the loop returns that error without starting that
   * unit; the first k units stay appended and nothing was stopped.
   */
  lemma LoopLoadFailsAt(w: World, step: Step, units: seq<Unit>, p: Progress, k: nat)
    requires DispatchShaped(w, step) && k < |units| && ClearUpTo(w, units, p, k)
    requires w.done(p.log.checks + k).None? && units[k].configurable
    requires w.load(|p.log.loaded| + |Configurables(units[..k])|).Some?
    ensures var (e, p1) := StartLoop(step, units, p);
      && e == w.load(|p.log.loaded| + |Configurables(units[..k])|)
      && p1.started == p.started + units[..k]
      && p1.log.started == p.log.started + units[..k]
      && p1.log.stopped == p.log.stopped
  {
    StepsClear(w, step, units, p, k);
    var q := Steps(step, units, p, k);
    var r := step(units[k], q);
    assert |q.log.loaded| == |p.log.loaded| + |Configurables(units[..k])|;
    assert ExitsOnLoad(w, units[k], q, r);
    assert StepShape(w, units[k], q, r);
    assert r.0 == w.load(|q.log.loaded|) && r.1.started == q.started;
    LoopEndsAt(w, step, units, p, k);
  }

  /**
   * When every iteration is clear, startWithContext returns nil with every
   * unit started and appended in order, the configurable ones loaded, and
   * nothing stopped.
   */
  lemma AllSucceed(w: World, reporter: bool, units: seq<Unit>, started: seq<Unit>, log: Log)
    requires ClearUpTo(w, units, Progress(started, log), |units|)
    ensures var r := StartServices(w, reporter, units, started, log);
      && r.err.None? && r.started == started + units
      && r.log.started == log.started + units
      && r.log.loaded == log.loaded + Configurables(units)
      && r.log.stopped == log.stopped
  {
    var p := Progress(started, log);
    var step := StarterStepOf(w, reporter);
    StarterStepShaped(w, reporter);
    StepsClear(w, step, units, p, |units|);
    LoopPrefix(w, step, units, p, |units|);
    assert units[..|units|] == units;
    assert units[|units|..] == [];
  }

  /**
   * The rollback keeps the loop's error; after a success it changes
   * nothing, after an error it stops every appended unit from last to
   * first, calls nothing else, and forgets them all.
   */
  lemma RollbackShape(w: World, reporter: bool, lr: (Outcome, Progress))
    ensures var r := Rollback(w, reporter, lr);
      && r.err == lr.0
      && (lr.0.None? ==> r.started == lr.1.started && r.log == lr.1.log)
      && (lr.0.Some? ==>
            && r.started == []
            && r.log.stopped == lr.1.log.stopped + Reverse(lr.1.started)
            && OnlyStops(lr.1.log, r.log))
  {
    if lr.0.Some? {
      DrainingShape(w, reporter, lr.1.started, lr.1.log);
    }
  }

  /**
   * On any error startWithContext returns it having forgotten every
   * started unit: the rollback called Stop on each unit appended before
   * the failure, from last to first, whatever the stops answered.
   */
  lemma RollbackDrains(w: World, reporter: bool, units: seq<Unit>, started: seq<Unit>, log: Log)
    ensures var (e, p) := StartLoop(StarterStepOf(w, reporter), units, Progress(started, log));
      var r := StartServices(w, reporter, units, started, log);
      var k := |p.started| - |started|;
      && r.err == e
      && (e.None? ==> r.started == started + units && r.log.stopped == log.stopped)
      && (e.Some? ==>
            && 0 <= k < |units| && r.started == []
            && r.log.stopped == log.stopped + Reverse(started + units[..k])
            && r.log.started == p.log.started)
  {
    var lr := StartLoop(StarterStepOf(w, reporter), units, Progress(started, log));
    StarterStepAppends(w, reporter);
    StartLoopStarted(w, StarterStepOf(w, reporter), units, Progress(started, log));
    assert units[..|units|] == units;
    RollbackShape(w, reporter, lr);
  }

  lemma RolledBackNotStartableAt(w: World, reporter: bool, step: Step, units: seq<Unit>, started: seq<Unit>, log: Log, k: nat)
    requires DispatchShaped(w, step) && k < |units| && ClearUpTo(w, units, Progress(started, log), k)
    requires w.done(log.checks + k).None?
    requires units[k].configurable ==> w.load(|log.loaded| + |Configurables(units[..k])|).None?
    requires !units[k].startable && !units[k].startableWithContext
    ensures var r := Rollback(w, reporter, StartLoop(step, units, Progress(started, log)));
      && r.err == Some(NotStartable(units[k].typeName))
      && r.started == []
      && r.log.started == log.started + units[..k]
      && r.log.stopped == log.stopped + Reverse(started + units[..k])
  {
    LoopNotStartableAt(w, step, units, Progress(started, log), k);
    RollbackShape(w, reporter, StartLoop(step, units, Progress(started, log)));
  }

  lemma RolledBackLoadFailsAt(w: World, reporter: bool, step: Step, units: seq<Unit>, started: seq<Unit>, log: Log, k: nat)
    requires DispatchShaped(w, step) && k < |units| && ClearUpTo(w, units, Progress(started, log), k)
    requires w.done(log.checks + k).None? && units[k].configurable
    requires w.load(|log.loaded| + |Configurables(units[..k])|).Some?
    ensures var r := Rollback(w, reporter, StartLoop(step, units, Progress(started, log)));
      && r.err == w.load(|log.loaded| + |Configurables(units[..k])|)
      && r.started == []
      && r.log.started == log.started + units[..k]
      && r.log.stopped == log.stopped + Reverse(started + units[..k])
  {
    LoopLoadFailsAt(w, step, units, Progress(started, log), k);
    RollbackShape(w, reporter, StartLoop(step, units, Progress(started, log)));
  }

  /**
   * If the first k iterations are clear and the k-th unit implements
   * neither start interface, startWithContext returns NotStartable with
   * its type name, Start was called on exactly the first k units, and all
   * of them were stopped from last to first and forgotten.
   */
  lemma NotStartableAt(w: World, reporter: bool, units: seq<Unit>, started: seq<Unit>, log: Log, k: nat)
    requires k < |units| && ClearUpTo(w, units, Progress(started, log), k)
    requires w.done(log.checks + k).None?
    requires units[k].configurable ==> w.load(|log.loaded| + |Configurables(units[..k])|).None?
    requires !units[k].startable && !units[k].startableWithContext
    ensures var r := StartServices(w, reporter, units, started, log);
      && r.err == Some(NotStartable(units[k].typeName))
      && r.started == []
      && r.log.started == log.started + units[..k]
      && r.log.stopped == log.stopped + Reverse(started + units[..k])
  {
    StarterStepShaped(w, reporter);
    RolledBackNotStartableAt(w, reporter, StarterStepOf(w, reporter), units, started, log, k);
  }

  /**
   * If the first k iterations are clear and the k-th unit is configurable
   * and its Load fails, startWithContext returns that error without
   * starting that unit, and the first k units were stopped from last to
   * first and forgotten.
   */
  lemma LoadFailsAt(w: World, reporter: bool, units: seq<Unit>, started: seq<Unit>, log: Log, k: nat)
    requires k < |units| && ClearUpTo(w, units, Progress(started, log), k)
    requires w.done(log.checks + k).None? && units[k].configurable
    requires w.load(|log.loaded| + |Configurables(units[..k])|).Some?
    ensures var r := StartServices(w, reporter, units, started, log);
      && r.err == w.load(|log.loaded| + |Configurables(units[..k])|)
      && r.started == []
      && r.log.started == log.started + units[..k]
      && r.log.stopped == log.stopped + Reverse(started + units[..k])
  {
    StarterStepShaped(w, reporter);
    RolledBackLoadFailsAt(w, reporter, StarterStepOf(w, reporter), units, started, log, k);
  }

  /**
   * With a context, Stop cancels it and reports BeforeStop(nil) first and
   * AfterStop(nil, nil) last; in between it is the halting teardown: what
   * stays is a prefix of the started units, empty exactly when every Stop
   * succeeded, and the error is the first failing Stop's.
   */
  lemma StopShape(w: World, reporter: bool, started: seq<Unit>, log: Log)
    ensures var t := StopServices(w, reporter, true, started, log);
      var log1 := Notify(Record(log, CancelCalled), reporter, BeforeStopAll);
      var gone := |started| - |t.remaining|;
      && log1.trace <= t.log.trace
      && log1.trace == log.trace + [CancelCalled] + (if reporter then [BeforeStopAll] else [])
      && (reporter ==> t.log.trace[|t.log.trace| - 1] == AfterStopAll)
      && |t.remaining| <= |started| && t.remaining == started[..|t.remaining|]
      && (t.err.None? <==> t.remaining == [])
      && (t.err.None? <==> StopsSucceed(w, |log.stopped|, |started|))
      && (t.err.Some? ==> t.err == w.stop(|log.stopped| + gone))
  {
    var log1 := Notify(Record(log, CancelCalled), reporter, BeforeStopAll);
    HaltingShape(w, reporter, started, log1);
    HaltingDrains(w, reporter, started, log1);
    HaltingOnlyStops(w, reporter, started, log1);
    var h := Halting(w, reporter, started, log1);
    assert log1.trace <= h.log.trace;
  }

  /** One started unit whose Stop fails: Stop returns that error and the unit stays recorded. */
  lemma StopKeepsFailingUnit(w: World, reporter: bool, a: Unit, log: Log)
    requires w.stop(|log.stopped|).Some?
    ensures var t := StopServices(w, reporter, true, [a], log);
      t.err == w.stop(|log.stopped|) && t.remaining == [a]
  {
    var log1 := Notify(Record(log, CancelCalled), reporter, BeforeStopAll);
    StopReportedShape(w, reporter, log1, a);
  }

  class Starter {
    var services: seq<Unit>
    var servicesStarted: seq<Unit>
    var hasContext: bool        // ctx and cancelFunc are set
    var reporter: bool
    var hasStartingChannel: bool

    /** NewStarter: the services to start, nothing started, no context, no reporter. */
    constructor (services: seq<Unit>)
      ensures this.services == services && servicesStarted == []
      ensures !hasContext && !reporter && !hasStartingChannel
    {
      this.services := services;
      servicesStarted := [];
      hasContext := false;
      reporter := false;
      hasStartingChannel := false;
    }

    /** Starter.WithReporter: sets the reporter and nothing else. */
    method WithReporter(reporter: bool)
      modifies this
      ensures this.reporter == reporter
      ensures services == old(services) && servicesStarted == old(servicesStarted)
      ensures hasContext == old(hasContext) && hasStartingChannel == old(hasStartingChannel)
    {
      this.reporter := reporter;
    }

    /** Starter.WithStartingChannel: sets the channel closed when starting ends, and nothing else. */
    method WithStartingChannel()
      modifies this
      ensures hasStartingChannel
      ensures services == old(services) && servicesStarted == old(servicesStarted)
      ensures hasContext == old(hasContext) && reporter == old(reporter)
    {
      hasStartingChannel := true;
    }

    /** Starter.Start: store a new cancellable context, then startWithContext on it. */
    method Start(w: World, log: Log) returns (err: Outcome, log': Log)
      modifies this
      ensures var r := StartServices(w, reporter, services, old(servicesStarted), log);
        err == r.err && servicesStarted == r.started && log' == r.log
      ensures hasContext && !hasStartingChannel
      ensures services == old(services) && reporter == old(reporter)
    {
      hasContext := true;
      err, log' := StartWithContext(w, log);
    }

    /**
     * startWithContext: the start loop, then (deferred) the rollback on an
     * error, then (deferred) the given starting channel is closed and
     * forgotten.
     */
    method StartWithContext(w: World, log: Log) returns (err: Outcome, log': Log)
      modifies this
      ensures var r := StartServices(w, reporter, services, old(servicesStarted), log);
        err == r.err && servicesStarted == r.started && log' == r.log
      ensures !hasStartingChannel
      ensures services == old(services) && reporter == old(reporter) && hasContext == old(hasContext)
    {
      err, log' := StartEach(w, log);
      if err.Some? {
        log' := Rollback(w, log');
      }
      hasStartingChannel := false;
    }

    /** The loop of startWithContext over the services; returns the first error. */
    method StartEach(w: World, log: Log) returns (err: Outcome, log': Log)
      modifies this
      ensures StartLoop(StarterStepOf(w, reporter), services, Progress(old(servicesStarted), log))
        == (err, Progress(servicesStarted, log'))
      ensures services == old(services) && reporter == old(reporter)
      ensures hasContext == old(hasContext) && hasStartingChannel == old(hasStartingChannel)
    {
      ghost var step := StarterStepOf(w, reporter);
      ghost var p0 := Progress(servicesStarted, log);
      log' := log;
      var i := 0;
      err := None;
      while i < |services|
        invariant i <= |services| && err.None?
        invariant services == old(services) && reporter == old(reporter)
        invariant hasContext == old(hasContext) && hasStartingChannel == old(hasStartingChannel)
        invariant StartLoop(step, services, p0) == StartLoop(step, services[i..], Progress(servicesStarted, log'))
      {
        var u := services[i];
        ghost var p := Progress(servicesStarted, log');
        var e, cur := StartIteration(w, u, log');
        StartLoopHead(step, services[i..], p);
        assert services[i..][0] == u && services[i..][1..] == services[i + 1..];
        log' := cur;
        if e.Some? {
          return e, log';
        }
        servicesStarted := servicesStarted + [u];
        i := i + 1;
      }
      assert services[i..] == [];
    }

    /** One iteration of startWithContext: poll the context, Load a Configurable, start the unit. */
    method StartIteration(w: World, u: Unit, log: Log) returns (err: Outcome, log': Log)
      ensures (err, log') == StarterAttempt(w, reporter, u, log)
    {
      var (e, cur) := PollDone(w, log);
      if e.None? && u.configurable {
        var (le, log1) := LoadReported(w, reporter, cur, u);
        e, cur := le, log1;
      }
      if e.None? {
        e, cur := StartOne(w, u, cur);
      }
      err, log' := e, cur;
    }

    /** The start of one unit in startWithContext: StartWithContext if it has one, else Start, else NotStartable. */
    method StartOne(w: World, u: Unit, log: Log) returns (err: Outcome, log': Log)
      ensures (err, log') == Dispatch(w, reporter, u, log)
    {
      if u.startableWithContext {
        var (e, log1) := StartReported(w, reporter, log, u, StartWithContextOp);
        err, log' := e, log1;
      } else if u.startable {
        var (e, log1) := StartReported(w, reporter, log, u, StartOp);
        err, log' := e, log1;
      } else {
        err, log' := Some(NotStartable(u.typeName)), log;
      }
    }

    /** The rollback: stop every started unit from last to first, forgetting each whatever Stop returned. */
    method Rollback(w: World, log: Log) returns (log': Log)
      modifies this
      ensures servicesStarted == [] && log' == Draining(w, reporter, old(servicesStarted), log)
      ensures services == old(services) && reporter == old(reporter)
      ensures hasContext == old(hasContext) && hasStartingChannel == old(hasStartingChannel)
    {
      log' := log;
      var i := |servicesStarted| - 1;
      while i >= 0
        invariant i == |servicesStarted| - 1
        invariant services == old(services) && reporter == old(reporter)
        invariant hasContext == old(hasContext) && hasStartingChannel == old(hasStartingChannel)
        invariant Draining(w, reporter, old(servicesStarted), log) == Draining(w, reporter, servicesStarted, log')
      {
        var u := servicesStarted[i];
        var (_, log1) := StopReported(w, reporter, log', u);
        log' := log1;
        servicesStarted := servicesStarted[..i];
        i := i - 1;
      }
    }

    /**
     * Starter.Stop: without a context, nothing. Otherwise cancel it, report
     * BeforeStop(nil), stop the started units from last to first, dropping
     * each after its Stop succeeded and halting at the first error; on the
     * way out forget the context and report AfterStop(nil, nil).
     */
    method Stop(w: World, log: Log) returns (err: Outcome, log': Log)
      modifies this
      ensures var t := StopServices(w, reporter, old(hasContext), old(servicesStarted), log);
        err == t.err && servicesStarted == t.remaining && log' == t.log
      ensures !old(hasContext) ==> err.None? && servicesStarted == old(servicesStarted) && log' == log
      ensures !hasContext
      ensures services == old(services) && reporter == old(reporter)
      ensures hasStartingChannel == old(hasStartingChannel)
    {
      if !hasContext {
        return None, log;
      }
      log' := Record(log, CancelCalled);
      log' := Notify(log', reporter, BeforeStopAll);
      ghost var log0 := log';
      err := None;
      var i := |servicesStarted| - 1;
      while i >= 0
        invariant i == |servicesStarted| - 1 && err.None?
        invariant services == old(services) && reporter == old(reporter)
        invariant hasContext && hasStartingChannel == old(hasStartingChannel)
        invariant Halting(w, reporter, old(servicesStarted), log0) == Halting(w, reporter, servicesStarted, log')
      {
        var u := servicesStarted[i];
        var (e, log1) := StopReported(w, reporter, log', u);
        if e.Some? {
          assert Halting(w, reporter, old(servicesStarted), log0) == Teardown(e, servicesStarted, log1);
          err, log' := e, log1;
          break;
        }
        log' := log1;
        servicesStarted := servicesStarted[..i];
        i := i - 1;
      }
      ghost var t := Halting(w, reporter, old(servicesStarted), log0);
      assert err == t.err && servicesStarted == t.remaining && log' == t.log;
      hasContext := false;
      log' := Notify(log', reporter, AfterStopAll);
    }
  }
}
