/*
 * Runner (runner.go): the newest orchestrator. Run walks the given
 * services once: before and after loading each one it polls the caller's
 * context and the signal context together; a Resource is started and
 * appended to `resourceServices`, a Server is recorded (its Listen runs
 * concurrently and is not modelled). Nothing is rolled back on an error:
 * cleaning up the resources is the job of Finish, which stops them from
 * last to first and halts on the first failing Stop. Every server recorded
 * by a run is closed when Run returns, whatever it returns.
 *
 * Once a server is recorded, a done context no longer stops the loop: the
 * Go `break` inside the `select` leaves only the `select` statement.
 */
module Runner {
  import opened Lifecycle
  import opened Teardown
  import opened Sequential

  /** The state the start loop of Run changes: the started resources, the recorded servers, the log. */
  datatype RunState = RunState(resources: seq<Unit>, servers: seq<Unit>, log: Log)

  /** What one iteration of a Run loop does to the state, with its error. */
  type Iteration = (Unit, RunState) -> (Outcome, RunState)

  /** errPair: the index of a server whose Listen failed, and that error. */
  datatype ErrPair = ErrPair(idx: nat, err: Error)

  /**
   * What ends the blocking phase of Run once servers were launched: some
   * Listen calls failed (the first pair received, then those already
   * buffered), a signal arrived, or the caller's context ended.
   */
  datatype Wake =
    | ListenFailed(first: ErrPair, rest: seq<ErrPair>)
    | Signalled
    | ContextEnded(ctxErr: Error)

  datatype Ran = Ran(err: Outcome, resources: seq<Unit>, log: Log)

  /** The error a `select { ctx.Done, ctxSignal.Done, default }` returns with when no server is running. */
  function CheckError(c: Check): (r: Outcome)
    ensures r.None? <==> c.Clear?
    ensures c.SignalDone? ==> r == Some(StartCancelledBySignal)
    ensures c.ContextDone? ==> r == Some(c.ctxErr)
  {
    match c
    case Clear => None
    case ContextDone(e) => Some(e)
    case SignalDone => Some(StartCancelledBySignal)
  }

  /** One cancellation check of Run: a no-op once a server is recorded. */
  function Cancelled(w: World, hasServer: bool, log: Log): (Outcome, Log)
  {
    var (c, log1) := PollSelect(w, log);
    (if hasServer then None else CheckError(c), log1)
  }

  /**
   * The calls of one iteration of Run: check, Load a Configurable, check
   * again, report BeforeStart, and Start the unit if it is a Resource.
   */
  function RunCalls(w: World, reporter: bool, u: Unit, hasServer: bool, log: Log): (Outcome, Log)
  {
    var (c1, log1) := Cancelled(w, hasServer, log);
    if c1.Some? then (c1, log1)
    else
      var (le, log2) := LoadStage(w, reporter, u, log1);
      if le.Some? then (le, log2)
      else
        var (c2, log3) := Cancelled(w, hasServer, log2);
        if c2.Some? then (c2, log3)
        else if u.resource then StartReported(w, reporter, log3, u, StartOp)
        else (None, Notify(log3, reporter, BeforeStart(u)))
  }

  /** A started Resource is appended to resourceServices; any other Server is recorded. */
  function RunStep(w: World, reporter: bool, u: Unit, st: RunState): (Outcome, RunState)
  {
    var (e, log') := RunCalls(w, reporter, u, st.servers != [], st.log);
    (e, RunState(
          if e.None? && u.resource then st.resources + [u] else st.resources,
          if e.None? && !u.resource && u.server then st.servers + [u] else st.servers,
          log'))
  }

  function RunStepOf(w: World, reporter: bool): Iteration
  {
    (u: Unit, st: RunState) => RunStep(w, reporter, u, st)
  }

  /** The loop of Run: `step` on each service in order until one returns an error. */
  function RunLoop(step: Iteration, units: seq<Unit>, st: RunState): (Outcome, RunState)
    decreases |units|
  {
    if units == [] then (None, st)
    else
      var (e, st1) := step(units[0], st);
      if e.Some? then (e, st1) else RunLoop(step, units[1..], st1)
  }

  /** A Run loop on a non-empty list is its first iteration, then the rest, unless it failed. */
  lemma RunLoopHead(step: Iteration, units: seq<Unit>, st: RunState)
    requires units != []
    ensures var (e, st1) := step(units[0], st);
      RunLoop(step, units, st) == if e.Some? then (e, st1) else RunLoop(step, units[1..], st1)
  {
  }

  /** The state after the first k iterations, when none of them failed. */
  function RunSteps(step: Iteration, units: seq<Unit>, st: RunState, k: nat): RunState
    requires k <= |units|
    decreases k
  {
    if k == 0 then st else RunSteps(step, units[1..], step(units[0], st).1, k - 1)
  }

  /** errMulti: one entry per server, the error of each pair written at its index, later pairs last. */
  function ErrorsByIndex(n: nat, pairs: seq<ErrPair>): (r: seq<Outcome>)
    ensures |r| == n
    decreases |pairs|
  {
    if pairs == [] then seq(n, _ => None)
    else
      var r := ErrorsByIndex(n, pairs[..|pairs| - 1]);
      var p := pairs[|pairs| - 1];
      if p.idx < n then r[p.idx := Some(p.err)] else r
  }

  /** The result of the blocking phase with n servers. */
  function ServerOutcome(n: nat, wake: Wake): Outcome
  {
    match wake
    case ListenFailed(first, rest) => Some(Multi(ErrorsByIndex(n, [first] + rest)))
    case Signalled => None
    case ContextEnded(e) => Some(e)
  }

  /** After the loop: the last cancellation check, then nil without servers, else the blocking phase. */
  function Final(w: World, wake: Wake, servers: seq<Unit>, log: Log): (Outcome, Log)
  {
    var (c, log1) := Cancelled(w, servers != [], log);
    if c.Some? || servers == [] then (c, log1) else (ServerOutcome(|servers|, wake), log1)
  }

  /** Close, then AfterStop with Close's error. */
  function CloseReported(w: World, reporter: bool, log: Log, u: Unit): (Outcome, Log)
  {
    var (e, log1) := Invoke(w, log, CloseOp, u);
    (e, Notify(log1, reporter, AfterStop(u, e)))
  }

  /** stopServers: close every server, first to last, whatever each Close returns. */
  function CloseAll(w: World, reporter: bool, s: seq<Unit>, log: Log): Log
    decreases |s|
  {
    if s == [] then log else CloseAll(w, reporter, s[1..], CloseReported(w, reporter, log, s[0]).1)
  }

  /** What follows the loop of Run, the deferred stopServers included. */
  function AfterLoop(w: World, reporter: bool, wake: Wake, lr: (Outcome, RunState)): Ran
  {
    var (e, st) := lr;
    var (err, log1) := if e.Some? then (e, st.log) else Final(w, wake, st.servers, st.log);
    Ran(err, st.resources, CloseAll(w, reporter, st.servers, log1))
  }

  /** Runner.Run on `units`, starting from the given resourceServices. */
  function RunServices(w: World, reporter: bool, wake: Wake, units: seq<Unit>, resources: seq<Unit>, log: Log): Ran
  {
    AfterLoop(w, reporter, wake, RunLoop(RunStepOf(w, reporter), units, RunState(resources, [], log)))
  }

  /** Runner.Finish: the halting teardown of resourceServices, then the deferred cancel of its context. */
  function FinishResources(w: World, reporter: bool, resources: seq<Unit>, log: Log): Teardown
  {
    var t := Halting(w, reporter, resources, log);
    t.(log := Record(t.log, CancelCalled))
  }

  // ---------------------------------------------------------------------
  // MultiErrors.Error

  /** The messages of index-aligned errors, all of them non-nil. */
  function Messages(errs: seq<Outcome>, message: Error -> string): (r: seq<string>)
    requires forall i :: 0 <= i < |errs| ==> errs[i].Some?
    ensures |r| == |errs|
    ensures forall i :: 0 <= i < |errs| ==> r[i] == message(errs[i].value)
    decreases |errs|
  {
    if errs == [] then []
    else Messages(errs[..|errs| - 1], message) + [message(errs[|errs| - 1].value)]
  }

  /** The messages joined with ", " between consecutive ones. */
  function Joined(ms: seq<string>): string
    decreases |ms|
  {
    if |ms| == 0 then ""
    else if |ms| == 1 then ms[0]
    else Joined(ms[..|ms| - 1]) + ", " + ms[|ms| - 1]
  }

  /** The position of the first comma, or the length when there is none. */
  function CommaAt(s: string): (i: nat)
    ensures i <= |s|
    ensures i < |s| ==> s[i] == ','
    ensures forall j :: 0 <= j < i ==> s[j] != ','
  {
    if s == [] then 0 else if s[0] == ',' then 0 else 1 + CommaAt(s[1..])
  }

  /** Splits a string at each ", " (a comma and the character after it), as a reader of the message would. */
  function SplitFields(s: string): seq<string>
    decreases |s|
  {
    var i := CommaAt(s);
    if i == |s| then [s]
    else [s[..i]] + SplitFields(s[if i + 2 <= |s| then i + 2 else |s|..])
  }

  ghost predicate CommaFree(ms: seq<string>)
  {
    forall i, j :: 0 <= i < |ms| && 0 <= j < |ms[i]| ==> ms[i][j] != ','
  }

  function TotalLength(ms: seq<string>): nat
    decreases |ms|
  {
    if ms == [] then 0 else TotalLength(ms[..|ms| - 1]) + |ms[|ms| - 1]|
  }

  /** Joining is the first message, then ", " and the join of the rest. */
  lemma {:induction false} JoinedCons(ms: seq<string>)
    requires |ms| >= 2
    ensures Joined(ms) == ms[0] + ", " + Joined(ms[1..])
    decreases |ms|
  {
    var n := |ms|;
    if n > 2 {
      JoinedCons(ms[..n - 1]);
      assert ms[..n - 1][1..] == ms[1..][..n - 2];
      assert ms[1..][n - 2] == ms[n - 1];
      assert ms[..n - 1][0] == ms[0];
    } else {
      assert ms[1..] == [ms[1]];
      assert ms[..1] == [ms[0]];
    }
  }

  /** No leading separator: the joined string begins with the first message. */
  lemma JoinedStartsWithFirst(ms: seq<string>)
    requires |ms| >= 1
    ensures ms[0] <= Joined(ms)
  {
    if |ms| >= 2 {
      JoinedCons(ms);
    }
  }

  /** The join adds exactly two characters, one ", ", for each message after the first. */
  lemma {:induction false} JoinedLength(ms: seq<string>)
    requires |ms| >= 1
    ensures |Joined(ms)| == TotalLength(ms) + 2 * (|ms| - 1)
    decreases |ms|
  {
    if |ms| == 1 {
      assert ms[..0] == [];
    } else {
      JoinedLength(ms[..|ms| - 1]);
    }
  }

  lemma CommaAtNone(s: string)
    requires forall j :: 0 <= j < |s| ==> s[j] != ','
    ensures CommaAt(s) == |s|
  {
  }

  /**
   * Round trip: when no message holds a comma, splitting the joined
   * string at its separators gives back the messages, one field each, in
   * index order.
   */
  /** The first field of `a + ", " + rest` is `a` when `a` has no comma. */
  lemma SplitHead(a: string, rest: string)
    requires forall j :: 0 <= j < |a| ==> a[j] != ','
    ensures SplitFields(a + ", " + rest) == [a] + SplitFields(rest)
  {
    var s := a + ", " + rest;
    assert forall j :: 0 <= j < |a| ==> s[j] == a[j];
    assert s[|a|] == ',';
    assert CommaAt(s) == |a|;
    assert s[..|a|] == a;
    assert s[|a| + 2..] == rest;
  }

  /**
   * Round trip: when no message holds a comma, splitting the joined
   * string at its separators gives back the messages, one field each, in
   * index order.
   */
  lemma {:induction false} SplitJoined(ms: seq<string>)
    requires |ms| >= 1 && CommaFree(ms)
    ensures SplitFields(Joined(ms)) == ms
    decreases |ms|
  {
    if |ms| == 1 {
      CommaAtNone(ms[0]);
    } else {
      JoinedCons(ms);
      assert forall j :: 0 <= j < |ms[0]| ==> ms[0][j] != ',';
      SplitHead(ms[0], Joined(ms[1..]));
      assert CommaFree(ms[1..]);
      SplitJoined(ms[1..]);
    }
  }

  // ---------------------------------------------------------------------
  // The shape of one iteration

  /** Nothing is stopped or closed; loads, starts and the trace only grow. */
  ghost predicate Keeps(before: Log, after: Log)
  {
    && after.stopped == before.stopped && after.closed == before.closed
    && before.loaded <= after.loaded && before.started <= after.started
    && before.trace <= after.trace
  }

  /**
   * One iteration never rolls anything back: a started Resource is
   * appended exactly when the iteration succeeds, a Server is recorded
   * exactly when it is not a Resource and the iteration succeeds.
   */
  ghost predicate RunStepShape(u: Unit, st: RunState, r: (Outcome, RunState))
  {
    && Keeps(st.log, r.1.log)
    && r.1.resources == (if r.0.None? && u.resource then st.resources + [u] else st.resources)
    && r.1.servers == (if r.0.None? && !u.resource && u.server then st.servers + [u] else st.servers)
  }

  /**
   * With no server recorded, two clear checks and a successful Load (if
   * configurable), a Resource iteration calls Start once and returns its
   * answer, after one load and two checks.
   */
  ghost predicate ReachesStartR(w: World, u: Unit, st: RunState, r: (Outcome, RunState))
  {
    st.servers == [] && u.resource && w.select(st.log.selects).Clear?
      && (u.configurable ==> w.load(|st.log.loaded|).None?) && w.select(st.log.selects + 1).Clear? ==>
      && r.0 == w.start(|st.log.started|)
      && r.1.log.started == st.log.started + [u]
      && r.1.log.loaded == st.log.loaded + (if u.configurable then [u] else [])
      && r.1.log.selects == st.log.selects + 2
  }

  /** With no server recorded, a first check that is not clear makes the iteration return its error. */
  ghost predicate ExitsOnCheck(w: World, u: Unit, st: RunState, r: (Outcome, RunState))
  {
    st.servers == [] && !w.select(st.log.selects).Clear? ==>
      r.0 == CheckError(w.select(st.log.selects)) && r.1.log.started == st.log.started
  }

  /** After a clear check, a failing Load makes the iteration return its error. */
  ghost predicate ExitsOnLoadR(w: World, u: Unit, st: RunState, r: (Outcome, RunState))
  {
    st.servers == [] && w.select(st.log.selects).Clear? && u.configurable && w.load(|st.log.loaded|).Some? ==>
      r.0 == w.load(|st.log.loaded|) && r.1.log.started == st.log.started
  }

  /** After a clear check and a successful Load, a second check that is not clear makes the iteration return its error. */
  ghost predicate ExitsOnSecondCheck(w: World, u: Unit, st: RunState, r: (Outcome, RunState))
  {
    st.servers == [] && w.select(st.log.selects).Clear? && (u.configurable ==> w.load(|st.log.loaded|).None?)
      && !w.select(st.log.selects + 1).Clear? ==>
      r.0 == CheckError(w.select(st.log.selects + 1)) && r.1.log.started == st.log.started
  }

  ghost predicate Untouched(step: Iteration)
  {
    forall u, st {:trigger RunStepShape(u, st, step(u, st))} :: RunStepShape(u, st, step(u, st))
  }

  /** A step that behaves as one iteration of Run does, for every unit and state. */
  ghost predicate RunShaped(w: World, step: Iteration)
  {
    && Untouched(step)
    && (forall u, st {:trigger ReachesStartR(w, u, st, step(u, st))} :: ReachesStartR(w, u, st, step(u, st)))
    && (forall u, st {:trigger ExitsOnCheck(w, u, st, step(u, st))} :: ExitsOnCheck(w, u, st, step(u, st)))
    && (forall u, st {:trigger ExitsOnLoadR(w, u, st, step(u, st))} :: ExitsOnLoadR(w, u, st, step(u, st)))
    && (forall u, st {:trigger ExitsOnSecondCheck(w, u, st, step(u, st))} :: ExitsOnSecondCheck(w, u, st, step(u, st)))
  }

  lemma LoadStageKeeps(w: World, reporter: bool, u: Unit, log: Log)
    ensures var (e, log1) := LoadStage(w, reporter, u, log);
      Keeps(log, log1) && log1.started == log.started && log1.selects == log.selects
  {
  }

  /** The calls of one iteration stop and close nothing, and call Start at most on the unit itself. */
  lemma RunCallsKeeps(w: World, reporter: bool, u: Unit, hasServer: bool, log: Log)
    ensures var (e, log1) := RunCalls(w, reporter, u, hasServer, log);
      && Keeps(log, log1)
      && (log1.started == log.started || (u.resource && log1.started == log.started + [u]))
      && (e.None? && u.resource ==> log1.started == log.started + [u])
  {
    var (c1, log1) := Cancelled(w, hasServer, log);
    if c1.None? {
      var (le, log2) := LoadStage(w, reporter, u, log1);
      LoadStageKeeps(w, reporter, u, log1);
      if le.None? {
        var (c2, log3) := Cancelled(w, hasServer, log2);
        assert Keeps(log, log3);
      }
    }
  }

  /**
   * Once a server is recorded the checks never end an iteration: its only
   * possible errors are its own Load's and its own Start's.
   */
  lemma CancelIgnoredWithServer(w: World, reporter: bool, u: Unit, log: Log)
    ensures var (e, log1) := RunCalls(w, reporter, u, true, log);
      e.Some? ==>
        || (u.configurable && e == w.load(|log.loaded|))
        || (u.resource && e == w.start(|log.started|))
  {
  }

  lemma RunCallsExits(w: World, reporter: bool, u: Unit, st: RunState)
    ensures var r := RunStep(w, reporter, u, st);
      && ReachesStartR(w, u, st, r) && ExitsOnCheck(w, u, st, r)
      && ExitsOnLoadR(w, u, st, r) && ExitsOnSecondCheck(w, u, st, r)
  {
  }

  /** The iteration of Run has the shape every loop lemma below relies on. */
  lemma RunStepShaped(w: World, reporter: bool)
    ensures RunShaped(w, RunStepOf(w, reporter))
  {
    forall u, st
      ensures RunStepShape(u, st, RunStepOf(w, reporter)(u, st))
      ensures ReachesStartR(w, u, st, RunStepOf(w, reporter)(u, st))
      ensures ExitsOnCheck(w, u, st, RunStepOf(w, reporter)(u, st))
      ensures ExitsOnLoadR(w, u, st, RunStepOf(w, reporter)(u, st))
      ensures ExitsOnSecondCheck(w, u, st, RunStepOf(w, reporter)(u, st))
    {
      RunCallsKeeps(w, reporter, u, st.servers != [], st.log);
      RunCallsExits(w, reporter, u, st);
    }
  }

  // ---------------------------------------------------------------------
  // The loop

  ghost predicate AllResources(s: seq<Unit>)
  {
    forall i :: 0 <= i < |s| ==> s[i].resource
  }

  /** The checks numbered from..from+n-1 are all clear. */
  ghost predicate ChecksClear(w: World, from: nat, n: nat)
  {
    forall i :: from <= i < from + n ==> w.select(i).Clear?
  }

  /** The first k iterations are Resources whose checks are clear and whose Load and Start succeed. */
  ghost predicate ClearRun(w: World, units: seq<Unit>, st: RunState, k: nat)
    requires k <= |units|
  {
    && st.servers == []
    && AllResources(units[..k])
    && ChecksClear(w, st.log.selects, 2 * k)
    && LoadsSucceed(w, |st.log.loaded|, |Configurables(units[..k])|)
    && StartsSucceed(w, |st.log.started|, k)
  }

  lemma ClearRunHead(w: World, units: seq<Unit>, st: RunState, k: nat)
    requires 0 < k <= |units| && ClearRun(w, units, st, k)
    ensures units[0].resource
    ensures w.select(st.log.selects).Clear? && w.select(st.log.selects + 1).Clear?
    ensures units[0].configurable ==> w.load(|st.log.loaded|).None?
    ensures w.start(|st.log.started|).None?
  {
    ConfigurablesCons([], units, k);
    LoadsSucceedTail(w, |st.log.loaded|, |Configurables(units[..k])|, 0);
    assert units[..k][0] == units[0];
  }

  lemma ClearRunTail(w: World, units: seq<Unit>, st: RunState, q: RunState, k: nat)
    requires 0 < k <= |units| && ClearRun(w, units, st, k)
    requires q.servers == [] && q.log.selects == st.log.selects + 2
    requires q.log.loaded == st.log.loaded + (if units[0].configurable then [units[0]] else [])
    requires q.log.started == st.log.started + [units[0]]
    ensures ClearRun(w, units[1..], q, k - 1)
  {
    ConfigurablesCons([], units, k);
    LoadsSucceedTail(w, |st.log.loaded|, |Configurables(units[..k])|, if units[0].configurable then 1 else 0);
    StartsSucceedTail(w, |st.log.started|, k - 1);
    assert units[1..][..k - 1] == units[..k][1..];
  }

  /** After k clear iterations the first k units are loaded (if configurable), started and appended, in order. */
  lemma {:induction false} RunStepsClear(w: World, step: Iteration, units: seq<Unit>, st: RunState, k: nat)
    requires RunShaped(w, step) && k <= |units| && ClearRun(w, units, st, k)
    ensures var q := RunSteps(step, units, st, k);
      && q.resources == st.resources + units[..k]
      && q.servers == []
      && q.log.started == st.log.started + units[..k]
      && q.log.loaded == st.log.loaded + Configurables(units[..k])
      && q.log.selects == st.log.selects + 2 * k
      && q.log.stopped == st.log.stopped && q.log.closed == st.log.closed
    decreases k
  {
    if k == 0 {
      assert units[..0] == [];
    } else {
      var u := units[0];
      var r := step(u, st);
      ClearRunHead(w, units, st, k);
      assert ReachesStartR(w, u, st, r) && RunStepShape(u, st, r);
      ClearRunTail(w, units, st, r.1, k);
      ConfigurablesCons(st.log.loaded, units, k);
      RunStepsClear(w, step, units[1..], r.1, k - 1);
      ConsPrefix(st.resources, units, k - 1);
      ConsPrefix(st.log.started, units, k - 1);
    }
  }

  /** After k clear iterations the loop goes on from the state they reached. */
  lemma {:induction false} RunLoopPrefix(w: World, step: Iteration, units: seq<Unit>, st: RunState, k: nat)
    requires RunShaped(w, step) && k <= |units| && ClearRun(w, units, st, k)
    ensures RunLoop(step, units, st) == RunLoop(step, units[k..], RunSteps(step, units, st, k))
    decreases k
  {
    if k == 0 {
      assert units[0..] == units;
    } else {
      var u := units[0];
      var r := step(u, st);
      ClearRunHead(w, units, st, k);
      assert ReachesStartR(w, u, st, r) && RunStepShape(u, st, r);
      ClearRunTail(w, units, st, r.1, k);
      RunLoopPrefix(w, step, units[1..], r.1, k - 1);
      assert units[1..][k - 1..] == units[k..];
    }
  }

  /** When the first k iterations are clear and the k-th fails, the loop returns the k-th iteration's result. */
  lemma RunLoopEndsAt(w: World, step: Iteration, units: seq<Unit>, st: RunState, k: nat)
    requires RunShaped(w, step) && k < |units| && ClearRun(w, units, st, k)
    requires step(units[k], RunSteps(step, units, st, k)).0.Some?
    ensures RunLoop(step, units, st) == step(units[k], RunSteps(step, units, st, k))
  {
    RunLoopPrefix(w, step, units, st, k);
    assert units[k..][0] == units[k];
  }

  /** One iteration of the loop of Run, from position i: its error ends the loop, else the loop goes on with the updated state. */
  lemma RunLoopAdvance(w: World, reporter: bool, units: seq<Unit>, i: nat, st: RunState, e: Outcome, cur: Log)
    requires i < |units| && (e, cur) == RunCalls(w, reporter, units[i], st.servers != [], st.log)
    ensures e.Some? ==> RunLoop(RunStepOf(w, reporter), units[i..], st) == (e, RunState(st.resources, st.servers, cur))
    ensures e.None? ==> RunLoop(RunStepOf(w, reporter), units[i..], st) == RunLoop(RunStepOf(w, reporter), units[i + 1..],
      RunState(if units[i].resource then st.resources + [units[i]] else st.resources,
               if !units[i].resource && units[i].server then st.servers + [units[i]] else st.servers, cur))
  {
    var step := RunStepOf(w, reporter);
    var u := units[i];
    assert units[i..][0] == u && units[i..][1..] == units[i + 1..];
    assert step(u, st) == RunStep(w, reporter, u, st);
    RunLoopHead(step, units[i..], st);
  }

  /** A Run loop stops and closes nothing and only appends to the resources and the servers. */
  lemma {:induction false} RunLoopKeeps(step: Iteration, units: seq<Unit>, st: RunState)
    requires Untouched(step)
    ensures var (e, st1) := RunLoop(step, units, st);
      && Keeps(st.log, st1.log)
      && st.resources <= st1.resources && st.servers <= st1.servers
    decreases |units|
  {
    if units != [] {
      var r := step(units[0], st);
      assert RunStepShape(units[0], st, r);
      if r.0.None? {
        RunLoopKeeps(step, units[1..], r.1);
      }
    }
  }

  // ---------------------------------------------------------------------
  // After the loop

  /** stopServers closes every server once, first to last, and changes nothing else. */
  lemma {:induction false} CloseAllShape(w: World, reporter: bool, s: seq<Unit>, log: Log)
    ensures var log1 := CloseAll(w, reporter, s, log);
      && log1.closed == log.closed + s
      && log1.stopped == log.stopped && log1.started == log.started && log1.loaded == log.loaded
      && log1.selects == log.selects
    decreases |s|
  {
    if s != [] {
      var log2 := CloseReported(w, reporter, log, s[0]).1;
      CloseAllShape(w, reporter, s[1..], log2);
      assert [s[0]] + s[1..] == s;
    }
  }

  /**
   * Whatever happened in the loop, Run closes every server it recorded,
   * in launch order, keeps the resources it started, and returns the
   * loop's error; without an error and without servers it returns the
   * last check's error, which is nil when that check is clear.
   */
  lemma AfterLoopShape(w: World, reporter: bool, wake: Wake, lr: (Outcome, RunState))
    ensures var r := AfterLoop(w, reporter, wake, lr);
      && r.resources == lr.1.resources
      && r.log.closed == lr.1.log.closed + lr.1.servers
      && r.log.stopped == lr.1.log.stopped && r.log.started == lr.1.log.started
      && r.log.loaded == lr.1.log.loaded
      && (lr.0.Some? ==> r.err == lr.0)
      && (lr.0.None? && lr.1.servers == [] ==> r.err == CheckError(w.select(lr.1.log.selects)))
  {
    var (e, st) := lr;
    var (err, log1) := if e.Some? then (e, st.log) else Final(w, wake, st.servers, st.log);
    CloseAllShape(w, reporter, st.servers, log1);
  }

  /**
   * With servers launched and no error from the loop, the final check is a
   * no-op and Run's result is the blocking phase's: errMulti with one entry
   * per server when a Listen fails, nil on a signal, the context's error
   * when it ends; every server is then closed.
   */
  lemma AfterLoopServers(w: World, reporter: bool, wake: Wake, lr: (Outcome, RunState))
    requires lr.0.None? && lr.1.servers != []
    ensures var r := AfterLoop(w, reporter, wake, lr);
      && r.err == ServerOutcome(|lr.1.servers|, wake)
      && (wake.Signalled? ==> r.err.None?)
      && (wake.ContextEnded? ==> r.err == Some(wake.ctxErr))
      && (wake.ListenFailed? ==> r.err.Some? && r.err.value.Multi? && |r.err.value.errs| == |lr.1.servers|)
      && r.resources == lr.1.resources
      && r.log.closed == lr.1.log.closed + lr.1.servers
  {
    AfterLoopShape(w, reporter, wake, lr);
  }

  /**
   * No rollback: Run never calls Stop, and resourceServices only gains
   * units (the ones started before an error stay recorded).
   */
  lemma RunNeverStops(w: World, reporter: bool, wake: Wake, units: seq<Unit>, resources: seq<Unit>, log: Log)
    ensures var r := RunServices(w, reporter, wake, units, resources, log);
      && r.log.stopped == log.stopped
      && resources <= r.resources
      && log.started <= r.log.started
  {
    var step := RunStepOf(w, reporter);
    var lr := RunLoop(step, units, RunState(resources, [], log));
    RunStepShaped(w, reporter);
    RunLoopKeeps(step, units, RunState(resources, [], log));
    AfterLoopShape(w, reporter, wake, lr);
  }

  /** What a shaped step promises about one iteration, for one unit and state. */
  lemma IterationShape(w: World, step: Iteration, u: Unit, st: RunState)
    requires RunShaped(w, step)
    ensures var r := step(u, st);
      && RunStepShape(u, st, r) && ReachesStartR(w, u, st, r) && ExitsOnCheck(w, u, st, r)
      && ExitsOnLoadR(w, u, st, r) && ExitsOnSecondCheck(w, u, st, r)
  {
  }

  /** The state k clear iterations reach, from which the loop goes on. */
  lemma ClearRunAt(w: World, step: Iteration, units: seq<Unit>, st: RunState, k: nat) returns (q: RunState)
    requires RunShaped(w, step) && k <= |units| && ClearRun(w, units, st, k)
    ensures RunLoop(step, units, st) == RunLoop(step, units[k..], q)
    ensures q.resources == st.resources + units[..k] && q.servers == []
    ensures q.log.started == st.log.started + units[..k] && q.log.loaded == st.log.loaded + Configurables(units[..k])
    ensures q.log.selects == st.log.selects + 2 * k && q.log.stopped == st.log.stopped && q.log.closed == st.log.closed
  {
    RunStepsClear(w, step, units, st, k);
    RunLoopPrefix(w, step, units, st, k);
    q := RunSteps(step, units, st, k);
  }

  /** With no server, clear checks and a successful Load, a Resource iteration returns its Start's answer and keeps the resources on an error. */
  lemma StartReached(w: World, step: Iteration, u: Unit, q: RunState)
    requires RunShaped(w, step) && q.servers == [] && u.resource
    requires w.select(q.log.selects).Clear? && w.select(q.log.selects + 1).Clear?
    requires u.configurable ==> w.load(|q.log.loaded|).None?
    ensures var r := step(u, q);
      && r.0 == w.start(|q.log.started|) && r.1.log.started == q.log.started + [u]
      && r.1.log.stopped == q.log.stopped && r.1.log.closed == q.log.closed
      && (r.0.Some? ==> r.1.resources == q.resources && r.1.servers == q.servers)
  {
    IterationShape(w, step, u, q);
  }

  /** With no server and a clear check, a failing Load of a configurable unit is the iteration's error, and nothing is started. */
  lemma LoadFailReached(w: World, step: Iteration, u: Unit, q: RunState)
    requires RunShaped(w, step) && q.servers == [] && u.configurable
    requires w.select(q.log.selects).Clear? && w.load(|q.log.loaded|).Some?
    ensures var r := step(u, q);
      && r.0 == w.load(|q.log.loaded|) && r.1.log.started == q.log.started
      && r.1.log.stopped == q.log.stopped && r.1.log.closed == q.log.closed
      && r.1.resources == q.resources && r.1.servers == q.servers
  {
    IterationShape(w, step, u, q);
  }

  /** With no server, a first check that is not clear is the iteration's error, and nothing is started. */
  lemma CheckFailReached(w: World, step: Iteration, u: Unit, q: RunState)
    requires RunShaped(w, step) && q.servers == [] && !w.select(q.log.selects).Clear?
    ensures var r := step(u, q);
      && r.0 == CheckError(w.select(q.log.selects)) && r.1.log.started == q.log.started
      && r.1.log.stopped == q.log.stopped && r.1.log.closed == q.log.closed
      && r.1.resources == q.resources && r.1.servers == q.servers
  {
    IterationShape(w, step, u, q);
  }

  /** With no server, a clear check and a successful Load, a second check that is not clear is the iteration's error. */
  lemma SecondCheckFailReached(w: World, step: Iteration, u: Unit, q: RunState)
    requires RunShaped(w, step) && q.servers == [] && w.select(q.log.selects).Clear?
    requires u.configurable ==> w.load(|q.log.loaded|).None?
    requires !w.select(q.log.selects + 1).Clear?
    ensures var r := step(u, q);
      && r.0 == CheckError(w.select(q.log.selects + 1)) && r.1.log.started == q.log.started
      && r.1.log.stopped == q.log.stopped && r.1.log.closed == q.log.closed
      && r.1.resources == q.resources && r.1.servers == q.servers
  {
    IterationShape(w, step, u, q);
  }

  lemma ShapedRunAllResources(w: World, reporter: bool, wake: Wake, step: Iteration, units: seq<Unit>, resources: seq<Unit>, log: Log)
    requires RunShaped(w, step)
    requires ClearRun(w, units, RunState(resources, [], log), |units|)
    requires w.select(log.selects + 2 * |units|).Clear?
    ensures var r := AfterLoop(w, reporter, wake, RunLoop(step, units, RunState(resources, [], log)));
      && r.err.None?
      && r.resources == resources + units
      && r.log.started == log.started + units
      && r.log.loaded == log.loaded + Configurables(units)
      && r.log.stopped == log.stopped && r.log.closed == log.closed
  {
    var st := RunState(resources, [], log);
    var q := ClearRunAt(w, step, units, st, |units|);
    assert units[..|units|] == units;
    assert units[|units|..] == [];
    assert RunLoop(step, units, st) == (None, q);
    AfterLoopShape(w, reporter, wake, (None, q));
  }

  lemma ShapedRunStartFailsAt(w: World, reporter: bool, wake: Wake, step: Iteration, units: seq<Unit>, resources: seq<Unit>, log: Log, k: nat)
    requires RunShaped(w, step)
    requires k < |units| && ClearRun(w, units, RunState(resources, [], log), k) && units[k].resource
    requires w.select(log.selects + 2 * k).Clear? && w.select(log.selects + 2 * k + 1).Clear?
    requires units[k].configurable ==> w.load(|log.loaded| + |Configurables(units[..k])|).None?
    requires w.start(|log.started| + k).Some?
    ensures var r := AfterLoop(w, reporter, wake, RunLoop(step, units, RunState(resources, [], log)));
      && r.err == w.start(|log.started| + k)
      && r.resources == resources + units[..k]
      && r.log.started == log.started + units[..k + 1]
      && r.log.stopped == log.stopped
  {
    var st := RunState(resources, [], log);
    var q := ClearRunAt(w, step, units, st, k);
    var u := units[k];
    assert |q.log.loaded| == |log.loaded| + |Configurables(units[..k])|;
    assert |q.log.started| == |log.started| + k;
    StartReached(w, step, u, q);
    var r := step(u, q);
    assert r.0 == w.start(|log.started| + k) && r.0.Some?;
    RunLoopHead(step, units[k..], q);
    assert units[k..][0] == u;
    assert RunLoop(step, units, st) == r;
    AfterLoopShape(w, reporter, wake, r);
    SnocPrefix(log.started, units, k);
  }

  lemma ShapedRunLoadFailsAt(w: World, reporter: bool, wake: Wake, step: Iteration, units: seq<Unit>, resources: seq<Unit>, log: Log, k: nat)
    requires RunShaped(w, step)
    requires k < |units| && ClearRun(w, units, RunState(resources, [], log), k)
    requires w.select(log.selects + 2 * k).Clear? && units[k].configurable
    requires w.load(|log.loaded| + |Configurables(units[..k])|).Some?
    ensures var r := AfterLoop(w, reporter, wake, RunLoop(step, units, RunState(resources, [], log)));
      && r.err == w.load(|log.loaded| + |Configurables(units[..k])|)
      && r.resources == resources + units[..k]
      && r.log.started == log.started + units[..k]
      && r.log.stopped == log.stopped
  {
    var st := RunState(resources, [], log);
    var q := ClearRunAt(w, step, units, st, k);
    var u := units[k];
    assert |q.log.loaded| == |log.loaded| + |Configurables(units[..k])|;
    LoadFailReached(w, step, u, q);
    var r := step(u, q);
    assert r.0 == w.load(|log.loaded| + |Configurables(units[..k])|) && r.0.Some?;
    RunLoopHead(step, units[k..], q);
    assert units[k..][0] == u;
    assert RunLoop(step, units, st) == r;
    AfterLoopShape(w, reporter, wake, r);
  }

  lemma ShapedRunCancelledBeforeLoadAt(w: World, reporter: bool, wake: Wake, step: Iteration, units: seq<Unit>, resources: seq<Unit>, log: Log, k: nat)
    requires RunShaped(w, step)
    requires k < |units| && ClearRun(w, units, RunState(resources, [], log), k)
    requires !w.select(log.selects + 2 * k).Clear?
    ensures var r := AfterLoop(w, reporter, wake, RunLoop(step, units, RunState(resources, [], log)));
      && r.err == CheckError(w.select(log.selects + 2 * k))
      && r.resources == resources + units[..k]
      && r.log.started == log.started + units[..k]
  {
    var st := RunState(resources, [], log);
    var q := ClearRunAt(w, step, units, st, k);
    var u := units[k];
    CheckFailReached(w, step, u, q);
    var r := step(u, q);
    assert r.0 == CheckError(w.select(log.selects + 2 * k)) && r.0.Some?;
    RunLoopHead(step, units[k..], q);
    assert units[k..][0] == u;
    assert RunLoop(step, units, st) == r;
    AfterLoopShape(w, reporter, wake, r);
  }

  lemma ShapedRunCancelledAfterLoadAt(w: World, reporter: bool, wake: Wake, step: Iteration, units: seq<Unit>, resources: seq<Unit>, log: Log, k: nat)
    requires RunShaped(w, step)
    requires k < |units| && ClearRun(w, units, RunState(resources, [], log), k)
    requires w.select(log.selects + 2 * k).Clear?
    requires units[k].configurable ==> w.load(|log.loaded| + |Configurables(units[..k])|).None?
    requires !w.select(log.selects + 2 * k + 1).Clear?
    ensures var r := AfterLoop(w, reporter, wake, RunLoop(step, units, RunState(resources, [], log)));
      && r.err == CheckError(w.select(log.selects + 2 * k + 1))
      && r.resources == resources + units[..k]
      && r.log.started == log.started + units[..k]
  {
    var st := RunState(resources, [], log);
    var q := ClearRunAt(w, step, units, st, k);
    var u := units[k];
    assert |q.log.loaded| == |log.loaded| + |Configurables(units[..k])|;
    SecondCheckFailReached(w, step, u, q);
    var r := step(u, q);
    assert r.0 == CheckError(w.select(log.selects + 2 * k + 1)) && r.0.Some?;
    RunLoopHead(step, units[k..], q);
    assert units[k..][0] == u;
    assert RunLoop(step, units, st) == r;
    AfterLoopShape(w, reporter, wake, r);
  }

  /**
   * With only resources, clear checks throughout and successful Loads and
   * Starts, Run starts every unit in declaration order, appends exactly
   * those units in that order and returns nil; nothing is stopped or
   * closed.
   */
  lemma RunAllResources(w: World, reporter: bool, wake: Wake, units: seq<Unit>, resources: seq<Unit>, log: Log)
    requires ClearRun(w, units, RunState(resources, [], log), |units|)
    requires w.select(log.selects + 2 * |units|).Clear?
    ensures var r := RunServices(w, reporter, wake, units, resources, log);
      && r.err.None?
      && r.resources == resources + units
      && r.log.started == log.started + units
      && r.log.loaded == log.loaded + Configurables(units)
      && r.log.stopped == log.stopped && r.log.closed == log.closed
  {
    RunStepShaped(w, reporter);
    ShapedRunAllResources(w, reporter, wake, RunStepOf(w, reporter), units, resources, log);
  }

  /**
   * If the first k resources start and the k-th Resource's Start fails,
   * Run returns that error: Start was called on the first k + 1 units and
   * on no later one, and the first k stay in resourceServices.
   */
  lemma RunStartFailsAt(w: World, reporter: bool, wake: Wake, units: seq<Unit>, resources: seq<Unit>, log: Log, k: nat)
    requires k < |units| && ClearRun(w, units, RunState(resources, [], log), k) && units[k].resource
    requires w.select(log.selects + 2 * k).Clear? && w.select(log.selects + 2 * k + 1).Clear?
    requires units[k].configurable ==> w.load(|log.loaded| + |Configurables(units[..k])|).None?
    requires w.start(|log.started| + k).Some?
    ensures var r := RunServices(w, reporter, wake, units, resources, log);
      && r.err == w.start(|log.started| + k)
      && r.resources == resources + units[..k]
      && r.log.started == log.started + units[..k + 1]
      && r.log.stopped == log.stopped
  {
    RunStepShaped(w, reporter);
    ShapedRunStartFailsAt(w, reporter, wake, RunStepOf(w, reporter), units, resources, log, k);
  }

  /**
   * If the first k resources start and the k-th unit is configurable and
   * its Load fails, Run returns that error before calling its Start; the
   * first k stay in resourceServices.
   */
  lemma RunLoadFailsAt(w: World, reporter: bool, wake: Wake, units: seq<Unit>, resources: seq<Unit>, log: Log, k: nat)
    requires k < |units| && ClearRun(w, units, RunState(resources, [], log), k)
    requires w.select(log.selects + 2 * k).Clear? && units[k].configurable
    requires w.load(|log.loaded| + |Configurables(units[..k])|).Some?
    ensures var r := RunServices(w, reporter, wake, units, resources, log);
      && r.err == w.load(|log.loaded| + |Configurables(units[..k])|)
      && r.resources == resources + units[..k]
      && r.log.started == log.started + units[..k]
      && r.log.stopped == log.stopped
  {
    RunStepShaped(w, reporter);
    ShapedRunLoadFailsAt(w, reporter, wake, RunStepOf(w, reporter), units, resources, log, k);
  }

  /**
   * If the first k resources start and the check before the k-th unit's
   * Load finds the caller's context done (or a signal), Run returns
   * ctx.Err() (or ErrStartCancelledBySignal) and starts nothing further.
   */
  lemma RunCancelledBeforeLoadAt(w: World, reporter: bool, wake: Wake, units: seq<Unit>, resources: seq<Unit>, log: Log, k: nat)
    requires k < |units| && ClearRun(w, units, RunState(resources, [], log), k)
    requires !w.select(log.selects + 2 * k).Clear?
    ensures var r := RunServices(w, reporter, wake, units, resources, log);
      && r.err == CheckError(w.select(log.selects + 2 * k))
      && r.resources == resources + units[..k]
      && r.log.started == log.started + units[..k]
  {
    RunStepShaped(w, reporter);
    ShapedRunCancelledBeforeLoadAt(w, reporter, wake, RunStepOf(w, reporter), units, resources, log, k);
  }

  /** The same for the check after the Load: ctx.Err() or ErrStartCancelledBySignal, and no Start for that unit. */
  lemma RunCancelledAfterLoadAt(w: World, reporter: bool, wake: Wake, units: seq<Unit>, resources: seq<Unit>, log: Log, k: nat)
    requires k < |units| && ClearRun(w, units, RunState(resources, [], log), k)
    requires w.select(log.selects + 2 * k).Clear?
    requires units[k].configurable ==> w.load(|log.loaded| + |Configurables(units[..k])|).None?
    requires !w.select(log.selects + 2 * k + 1).Clear?
    ensures var r := RunServices(w, reporter, wake, units, resources, log);
      && r.err == CheckError(w.select(log.selects + 2 * k + 1))
      && r.resources == resources + units[..k]
      && r.log.started == log.started + units[..k]
  {
    RunStepShaped(w, reporter);
    ShapedRunCancelledAfterLoadAt(w, reporter, wake, RunStepOf(w, reporter), units, resources, log, k);
  }

  /**
   * The result of a failed Listen phase over n servers: one entry per
   * server, non-nil exactly at the indices some pair names, holding the
   * error of the last such pair.
   */
  lemma {:induction false} ErrorsByIndexAt(n: nat, pairs: seq<ErrPair>, i: nat)
    requires i < n
    ensures var r := ErrorsByIndex(n, pairs);
      && (r[i].Some? <==> exists j :: 0 <= j < |pairs| && pairs[j].idx == i)
      && (r[i].Some? ==>
            exists j :: (0 <= j < |pairs| && pairs[j].idx == i && r[i] == Some(pairs[j].err)
              && forall j' :: j < j' < |pairs| ==> pairs[j'].idx != i))
    decreases |pairs|
  {
    if pairs != [] {
      var init := pairs[..|pairs| - 1];
      var last := |pairs| - 1;
      ErrorsByIndexAt(n, init, i);
      assert forall j :: 0 <= j < |init| ==> init[j] == pairs[j];
      if pairs[last].idx != i {
        var r := ErrorsByIndex(n, pairs);
        if r[i].Some? {
          var j :| (0 <= j < |init| && init[j].idx == i && r[i] == Some(init[j].err)
            && forall j' :: j < j' < |init| ==> init[j'].idx != i);
          assert pairs[j].idx == i;
        }
      }
    }
  }

  // ---------------------------------------------------------------------
  // The methods

  /** stopServers: Close each server, first to last, reporting AfterStop with Close's error. */
  method StopServers(w: World, reporter: bool, servers: seq<Unit>, log: Log) returns (log': Log)
    ensures log' == CloseAll(w, reporter, servers, log)
  {
    log' := log;
    for i := 0 to |servers|
      invariant CloseAll(w, reporter, servers, log) == CloseAll(w, reporter, servers[i..], log')
    {
      assert servers[i..][0] == servers[i] && servers[i..][1..] == servers[i + 1..];
      var (e, log1) := Invoke(w, log', CloseOp, servers[i]);
      log' := Notify(log1, reporter, AfterStop(servers[i], e));
    }
    assert servers[|servers|..] == [];
  }

  /** The collection of Listen errors into errMulti: the first pair received, then the buffered rest. */
  method CollectErrors(n: nat, first: ErrPair, rest: seq<ErrPair>) returns (errMulti: seq<Outcome>)
    ensures errMulti == ErrorsByIndex(n, [first] + rest)
  {
    var a := new Outcome[n](_ => None);
    assert a[..] == ErrorsByIndex(n, []);
    if first.idx < n {
      a[first.idx] := Some(first.err);
    }
    assert ([first] + rest)[..1] == [first];
    for j := 0 to |rest|
      invariant a[..] == ErrorsByIndex(n, ([first] + rest)[..j + 1])
    {
      var pairs := ([first] + rest)[..j + 2];
      assert pairs[..|pairs| - 1] == ([first] + rest)[..j + 1];
      assert pairs[|pairs| - 1] == rest[j];
      if rest[j].idx < n {
        a[rest[j].idx] := Some(rest[j].err);
      }
    }
    assert ([first] + rest)[..|rest| + 1] == [first] + rest;
    errMulti := a[..];
  }

  /** MultiErrors.Error: the messages in index order, with ", " before every one but the first. */
  method ErrorString(errs: seq<Outcome>, message: Error -> string) returns (s: string)
    requires forall i :: 0 <= i < |errs| ==> errs[i].Some?
    ensures s == Joined(Messages(errs, message))
  {
    s := "";
    for idx := 0 to |errs|
      invariant s == Joined(Messages(errs[..idx], message))
    {
      assert errs[..idx + 1][..idx] == errs[..idx];
      var ms := Messages(errs[..idx + 1], message);
      assert ms[..idx] == Messages(errs[..idx], message);
      if idx > 0 {
        s := s + ", ";
      } else {
        assert ms[..0] == [];
      }
      s := s + message(errs[idx].value);
    }
    assert errs[..|errs|] == errs;
  }

  class Runner {
    var resourceServices: seq<Unit>
    var reporter: bool

    /** NewRunner, with WithReporter among its options exactly when `reporter`. */
    constructor (reporter: bool)
      ensures resourceServices == [] && this.reporter == reporter
    {
      resourceServices := [];
      this.reporter := reporter;
    }

    /** Runner.WithReporter: sets the reporter and nothing else. */
    method WithReporter(reporter: bool)
      modifies this
      ensures this.reporter == reporter && resourceServices == old(resourceServices)
    {
      this.reporter := reporter;
    }

    /**
     * Runner.Run: the loop over the services, the last check, the
     * blocking phase when servers were launched, and (deferred, on every
     * way out) stopServers.
     */
    method Run(w: World, wake: Wake, services: seq<Unit>, log: Log) returns (err: Outcome, log': Log)
      modifies this
      ensures var r := RunServices(w, reporter, wake, services, old(resourceServices), log);
        err == r.err && resourceServices == r.resources && log' == r.log
      ensures reporter == old(reporter)
    {
      var servers;
      err, servers, log' := RunEach(w, services, log);
      if err.None? {
        var (c, log1) := PollSelect(w, log');
        log' := log1;
        if servers == [] {
          err := CheckError(c);
        } else {
          match wake
          case ListenFailed(first, rest) =>
            var errMulti := CollectErrors(|servers|, first, rest);
            err := Some(Multi(errMulti));
          case Signalled =>
            err := None;
          case ContextEnded(e) =>
            err := Some(e);
        }
      }
      log' := StopServers(w, reporter, servers, log');
    }

    /** The loop of Run over the services; returns the first error and the recorded servers. */
    method RunEach(w: World, services: seq<Unit>, log: Log) returns (err: Outcome, servers: seq<Unit>, log': Log)
      modifies this
      ensures RunLoop(RunStepOf(w, reporter), services, RunState(old(resourceServices), [], log))
        == (err, RunState(resourceServices, servers, log'))
      ensures reporter == old(reporter)
    {
      ghost var step := RunStepOf(w, reporter);
      ghost var st0 := RunState(resourceServices, [], log);
      servers := [];
      log' := log;
      var i := 0;
      err := None;
      while i < |services|
        invariant i <= |services| && err.None?
        invariant reporter == old(reporter)
        invariant RunLoop(step, services, st0) == RunLoop(step, services[i..], RunState(resourceServices, servers, log'))
      {
        var u := services[i];
        ghost var st := RunState(resourceServices, servers, log');
        var e, cur := RunIteration(w, u, servers != [], log');
        RunLoopAdvance(w, reporter, services, i, st, e, cur);
        log' := cur;
        if e.Some? {
          return e, servers, log';
        }
        if u.resource {
          resourceServices := resourceServices + [u];
        } else if u.server {
          servers := servers + [u];
        }
        i := i + 1;
      }
      assert services[i..] == [];
    }

    /** One iteration of Run: check, Load a Configurable, check again, BeforeStart, Start a Resource. */
    method RunIteration(w: World, u: Unit, hasServer: bool, log: Log) returns (err: Outcome, log': Log)
      ensures (err, log') == RunCalls(w, reporter, u, hasServer, log)
    {
      var (c1, log1) := PollSelect(w, log);
      if !hasServer && !c1.Clear? {
        return CheckError(c1), log1;
      }
      var (le, log2) := LoadStage(w, reporter, u, log1);
      if le.Some? {
        return le, log2;
      }
      var (c2, log3) := PollSelect(w, log2);
      if !hasServer && !c2.Clear? {
        return CheckError(c2), log3;
      }
      if u.resource {
        var (se, log4) := StartReported(w, reporter, log3, u, StartOp);
        err, log' := se, log4;
      } else {
        err, log' := None, Notify(log3, reporter, BeforeStart(u));
      }
    }

    /**
     * Runner.Finish: stop the resources from last to first, dropping each
     * after its Stop succeeded and returning the first Stop error; then
     * cancel the derived context.
     */
    method Finish(w: World, log: Log) returns (err: Outcome, log': Log)
      modifies this
      ensures var t := FinishResources(w, reporter, old(resourceServices), log);
        err == t.err && resourceServices == t.remaining && log' == t.log
      ensures old(resourceServices) == [] ==> err.None? && resourceServices == [] && log'.stopped == log.stopped
      ensures err.None? <==> resourceServices == []
      ensures reporter == old(reporter)
    {
      HaltingShape(w, reporter, resourceServices, log);
      log' := log;
      var i := |resourceServices| - 1;
      while i >= 0
        invariant i == |resourceServices| - 1
        invariant reporter == old(reporter)
        invariant Halting(w, reporter, old(resourceServices), log) == Halting(w, reporter, resourceServices, log')
      {
        var u := resourceServices[i];
        var (e, log1) := StopReported(w, reporter, log', u);
        log' := log1;
        if e.Some? {
          log' := Record(log', CancelCalled);
          return e, log';
        }
        resourceServices := resourceServices[..i];
        i := i - 1;
      }
      err := None;
      log' := Record(log', CancelCalled);
    }
  }
}
