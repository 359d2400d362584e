/*
 * ResourceStarter (resource_starter.go): the same start and stop
 * algorithm as Manager, in its own type.
 *
 * Fields kept: `resourceServices`; whether a cancel function has been
 * stored (`hasCancel`); whether a reporter is set. The mutexes are not
 * modelled; `listenCh` is never assigned in this file, so the wait on it
 * in Stop never happens and is not modelled either.
 */
module ResourceStarter {
  import opened Lifecycle
  import opened Teardown
  import opened Sequential

  class ResourceStarter {
    var resourceServices: seq<Unit>
    var hasCancel: bool
    var reporter: bool

    /** NewManager (of this file), with WithReporter among its options exactly when `reporter`. */
    constructor (reporter: bool)
      ensures resourceServices == [] && !hasCancel && this.reporter == reporter
    {
      resourceServices := [];
      hasCancel := false;
      this.reporter := reporter;
    }

    /** ResourceStarter.WithReporter: sets the reporter and nothing else. */
    method WithReporter(reporter: bool)
      modifies this
      ensures this.reporter == reporter
      ensures resourceServices == old(resourceServices) && hasCancel == old(hasCancel)
    {
      this.reporter := reporter;
    }

    /**
     * ResourceStarter.Start: derive a cancellable context and store its cancel
     * function, run the start loop, then (the deferred functions) cancel
     * the derived context and, if the loop failed, call Stop, dropping its
     * error; the start error is returned.
     */
    method Start(w: World, units: seq<Unit>, log: Log) returns (err: Outcome, log': Log)
      modifies this
      ensures var g := GuardedStart(w, reporter, units, old(resourceServices), log);
        err == g.err && resourceServices == g.started && log' == g.log
      ensures hasCancel && reporter == old(reporter)
    {
      hasCancel := true;
      err, log' := StartEach(w, units, log);
      log' := Record(log', CancelCalled);
      if err.Some? {
        var _, stopLog := Stop(w, log');
        log' := stopLog;
      }
    }

    /**
     * The loop of ResourceStarter.Start: for each unit poll the context, Load it if
     * it is Configurable, poll again, Start it and append it; return the
     * first error.
     */
    method StartEach(w: World, units: seq<Unit>, log: Log) returns (err: Outcome, log': Log)
      modifies this
      ensures StartLoop(StartStepOf(w, reporter), units, Progress(old(resourceServices), log))
        == (err, Progress(resourceServices, log'))
      ensures hasCancel == old(hasCancel) && reporter == old(reporter)
    {
      ghost var step := StartStepOf(w, reporter);
      ghost var p0 := Progress(resourceServices, log);
      log' := log;
      var i := 0;
      err := None;
      while i < |units|
        invariant i <= |units| && err.None?
        invariant hasCancel == old(hasCancel) && reporter == old(reporter)
        invariant StartLoop(step, units, p0) == StartLoop(step, units[i..], Progress(resourceServices, log'))
      {
        var u := units[i];
        ghost var p := Progress(resourceServices, log');
        var e, cur := StartIteration(w, u, log');
        StartLoopHead(step, units[i..], p);
        assert units[i..][0] == u && units[i..][1..] == units[i + 1..];
        log' := cur;
        if e.Some? {
          return e, log';
        }
        resourceServices := resourceServices + [u];
        i := i + 1;
      }
      assert units[i..] == [];
    }

    /** One iteration of the start loop: poll the context, Load a Configurable, poll again, Start. */
    method StartIteration(w: World, u: Unit, log: Log) returns (err: Outcome, log': Log)
      ensures (err, log') == StartAttempt(w, reporter, u, log)
    {
      var (e, cur) := PollDone(w, log);
      if e.None? && u.configurable {
        var (le, log1) := LoadReported(w, reporter, cur, u);
        e, cur := le, log1;
      }
      if e.None? {
        var (c2, log2) := PollDone(w, cur);
        e, cur := c2, log2;
      }
      if e.None? {
        var (se, log3) := StartReported(w, reporter, cur, u, StartOp);
        e, cur := se, log3;
      }
      err, log' := e, cur;
    }

    /**
     * ResourceStarter.Stop: call the stored cancel function if there is one, then
     * stop the units from last to first, dropping each one after its Stop
     * succeeded and returning the first Stop error.
     */
    method Stop(w: World, log: Log) returns (err: Outcome, log': Log)
      modifies this
      ensures var t := CancelThenHalt(w, reporter, old(hasCancel), old(resourceServices), log);
        err == t.err && resourceServices == t.remaining && log' == t.log
      ensures hasCancel == old(hasCancel) && reporter == old(reporter)
    {
      log' := log;
      if hasCancel {
        log' := Record(log', CancelCalled);
      }
      ghost var log0 := log';
      var i := |resourceServices| - 1;
      while i >= 0
        invariant i == |resourceServices| - 1
        invariant hasCancel == old(hasCancel) && reporter == old(reporter)
        invariant Halting(w, reporter, old(resourceServices), log0) == Halting(w, reporter, resourceServices, log')
      {
        var u := resourceServices[i];
        var (e, log1) := StopReported(w, reporter, log', u);
        log' := log1;
        if e.Some? {
          return e, log';
        }
        resourceServices := resourceServices[..i];
        i := i - 1;
      }
      err := None;
    }
  }
}
