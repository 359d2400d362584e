/*
 * Retrier (retrier.go): a builder of ServiceRetrier values, and the
 * ServiceRetrier itself, which starts a wrapped service up to `tries`
 * times (`-1`: without bound), checking the context before each attempt.
 *
 * Durations are int nanoseconds; only their sign matters here. The
 * timeout's derived context is part of the context oracle `done`; its
 * deferred cancel is recorded as CancelCalled. A sleep between tries is
 * recorded as Slept.
 */
module Retrier {
  import opened Lifecycle
  import opened Sequential

  /**
   * A built ServiceRetrier. Its fields are set once by Build and never
   * written again, so it is a value.
   */
  datatype ServiceRetrier = ServiceRetrier(
    service: Unit,
    tries: int,
    timeout: int,
    waitBetweenTries: int,
    reporter: bool)
  {
    /** ServiceRetrier.Name: the wrapped service's name. */
    function Name(): (n: string)
      ensures n == service.name
    {
      service.name
    }

    /** ServiceRetrier.Stop: one Stop call on the wrapped service, its answer returned as is. */
    method Stop(w: World, log: Log) returns (err: Outcome, log': Log)
      ensures err == w.stop(|log.stopped|)
      ensures log' == Record(log.(stopped := log.stopped + [service]), Called(StopOp, service))
    {
      var (e, log1) := Invoke(w, log, StopOp, service);
      err, log' := e, log1;
    }

    /**
     * ServiceRetrier.StartWithContext. With `tries == -1` the loop has no
     * bound; the model then stops after `horizon` attempts and answers
     * OutOfTries, meaning that it is still retrying.
     */
    method StartWithContext(w: World, horizon: nat, log: Log) returns (x: Exit)
      ensures x == Retry(w, this, horizon, log)
    {
      var n := Bound(tries, horizon);
      var cur := log;
      var i := 0;
      while i < n
        invariant i <= n
        invariant Attempts(w, this, 0, n, log) == Attempts(w, this, i, n, cur)
      {
        var (d, log1) := PollDone(w, cur);
        if d.Some? {
          return Returned(d, Deferred(this, Notify(log1, reporter, AfterGiveUp(service, i, d.value))));
        }
        cur := log1;
        if i > 0 {
          cur := Notify(cur, reporter, BeforeRetry(service, i));
        }
        var p := StartOnce(w, i, cur);
        if p.Exits? {
          return Returned(p.err, Deferred(this, p.log));
        }
        cur := p.log;
        if waitBetweenTries > 0 {
          cur := Record(cur, Slept);
        }
        i := i + 1;
      }
      if tries == -1 {
        x := OutOfTries(cur);
      } else {
        x := Returned(Some(ExhaustedAttempts), Deferred(this, Notify(cur, reporter, AfterGiveUp(service, tries, ExhaustedAttempts))));
      }
    }

    /** One call of the wrapped start, through StartWithContext first, else Start. */
    method StartOnce(w: World, i: nat, log: Log) returns (p: Pass)
      ensures p == Attempt(w, this, i, log)
    {
      if service.startableWithContext {
        var (e, log1) := Invoke(w, log, StartWithContextOp, service);
        if e.None? {
          return Exits(None, log1);
        }
        var (c, log2) := PollDone(w, log1);
        if c.Some? {
          return Exits(c, Notify(log2, reporter, AfterGiveUp(service, i, c.value)));
        }
        p := Continues(log2);
      } else if service.startable {
        var (e, log1) := Invoke(w, log, StartOp, service);
        if e.None? {
          return Exits(None, log1);
        }
        p := Continues(Notify(log1, reporter, AfterStart(service, e)));
      } else {
        p := Continues(log);
      }
    }
  }

  /**
   * The value Build returns: the retrier, and whether it also carries the
   * wrapped service's Configurable capability (the embedding struct).
   */
  datatype Built = Built(retrier: ServiceRetrier, configurable: bool)

  /** RetrierBuilder: the settings a ServiceRetrier will be built with. */
  class RetrierBuilder {
    var tries: int
    var timeout: int
    var waitBetweenTries: int
    var reporter: bool

    /** Retrier(): three tries, no timeout, no wait between tries, no reporter. */
    constructor ()
      ensures tries == 3 && timeout == 0 && waitBetweenTries == 0 && !reporter
    {
      tries := 3;
      timeout := 0;
      waitBetweenTries := 0;
      reporter := false;
    }

    /** RetrierBuilder.Tries: sets tries only and returns the same builder. */
    method Tries(value: int) returns (b: RetrierBuilder)
      modifies this
      ensures b == this && tries == value
      ensures timeout == old(timeout) && waitBetweenTries == old(waitBetweenTries) && reporter == old(reporter)
    {
      tries := value;
      b := this;
    }

    /** RetrierBuilder.Timeout: sets timeout only and returns the same builder. */
    method Timeout(value: int) returns (b: RetrierBuilder)
      modifies this
      ensures b == this && timeout == value
      ensures tries == old(tries) && waitBetweenTries == old(waitBetweenTries) && reporter == old(reporter)
    {
      timeout := value;
      b := this;
    }

    /** RetrierBuilder.WaitBetweenTries: sets waitBetweenTries only and returns the same builder. */
    method WaitBetweenTries(value: int) returns (b: RetrierBuilder)
      modifies this
      ensures b == this && waitBetweenTries == value
      ensures tries == old(tries) && timeout == old(timeout) && reporter == old(reporter)
    {
      waitBetweenTries := value;
      b := this;
    }

    /** RetrierBuilder.Reporter: sets the reporter only and returns the same builder. */
    method Reporter(value: bool) returns (b: RetrierBuilder)
      modifies this
      ensures b == this && reporter == value
      ensures tries == old(tries) && timeout == old(timeout) && waitBetweenTries == old(waitBetweenTries)
    {
      reporter := value;
      b := this;
    }

    /**
     * RetrierBuilder.Build: a retrier with the builder's settings around
     * `service`, Configurable exactly when `service` is.
     */
    method Build(service: Unit) returns (built: Built)
      ensures built.retrier.service == service && built.configurable == service.configurable
      ensures built.retrier.tries == tries && built.retrier.timeout == timeout
      ensures built.retrier.waitBetweenTries == waitBetweenTries && built.retrier.reporter == reporter
    {
      var sr := ServiceRetrier(service, tries, timeout, waitBetweenTries, reporter);
      built := Built(sr, service.configurable);
    }
  }

  // ---------------------------------------------------------------------
  // The attempt loop as functions

  /** Where StartWithContext ends: a returned error (nil on success), or still retrying. */
  datatype Exit = Returned(err: Outcome, log: Log) | OutOfTries(log: Log)

  /** Where one pass of the loop body ends: an early return, or on to the next attempt. */
  datatype Pass = Exits(err: Outcome, log: Log) | Continues(log: Log)

  /** How many attempts the loop makes at most: `tries`, none when it is negative, `horizon` when it is -1. */
  function Bound(tries: int, horizon: nat): nat
  {
    if tries == -1 then horizon else if tries > 0 then tries else 0
  }

  /** The deferred cancel of the timeout context, when there is one. */
  function Deferred(r: ServiceRetrier, log: Log): Log
  {
    if r.timeout > 0 then Record(log, CancelCalled) else log
  }

  /**
   * The wrapped start, once: StartWithContext if the service has it (a
   * failure while the context is done gives up), else Start (a failure
   * is reported with AfterStart), else no call at all.
   */
  function Attempt(w: World, r: ServiceRetrier, i: nat, log: Log): Pass
  {
    var u := r.service;
    if u.startableWithContext then
      var (e, log1) := Invoke(w, log, StartWithContextOp, u);
      if e.None? then Exits(None, log1)
      else
        var (c, log2) := PollDone(w, log1);
        if c.Some? then Exits(c, Notify(log2, r.reporter, AfterGiveUp(u, i, c.value)))
        else Continues(log2)
    else if u.startable then
      var (e, log1) := Invoke(w, log, StartOp, u);
      if e.None? then Exits(None, log1)
      else Continues(Notify(log1, r.reporter, AfterStart(u, e)))
    else Continues(log)
  }

  /** Attempt number i: check the context, report a retry, start, wait. */
  function Round(w: World, r: ServiceRetrier, i: nat, log: Log): Pass
  {
    var (d, log1) := PollDone(w, log);
    if d.Some? then Exits(d, Notify(log1, r.reporter, AfterGiveUp(r.service, i, d.value)))
    else
      var log2 := if i > 0 then Notify(log1, r.reporter, BeforeRetry(r.service, i)) else log1;
      var p := Attempt(w, r, i, log2);
      if p.Exits? then p
      else Continues(if r.waitBetweenTries > 0 then Record(p.log, Slept) else p.log)
  }

  /** Attempts i, i+1, ..., n-1, up to the first that returns. */
  function Attempts(w: World, r: ServiceRetrier, i: nat, n: nat, log: Log): Exit
    decreases n - i
  {
    if i >= n then OutOfTries(log)
    else
      match Round(w, r, i, log)
      case Exits(e, l) => Returned(e, l)
      case Continues(l) => Attempts(w, r, i + 1, n, l)
  }

  /** m attempts from number i, stopping at the first that returns. */
  function Rounds(w: World, r: ServiceRetrier, i: nat, m: nat, log: Log): Pass
    decreases m
  {
    if m == 0 then Continues(log)
    else
      match Round(w, r, i, log)
      case Exits(e, l) => Exits(e, l)
      case Continues(l) => Rounds(w, r, i + 1, m - 1, l)
  }

  /**
   * After the loop: with a bound, ErrExhaustedAttempts, reported with
   * AfterGiveUp when a reporter is set. Then the deferred cancel.
   */
  function Conclude(r: ServiceRetrier, x: Exit): Exit
  {
    match x
    case Returned(e, l) => Returned(e, Deferred(r, l))
    case OutOfTries(l) =>
      if r.tries == -1 then x
      else Returned(Some(ExhaustedAttempts), Deferred(r, Notify(l, r.reporter, AfterGiveUp(r.service, r.tries, ExhaustedAttempts))))
  }

  /** The same as written: AfterGiveUp is called on the reporter even when none is set; None is that nil call's panic. */
  function ConcludeAsWritten(r: ServiceRetrier, x: Exit): Option<Exit>
  {
    match x
    case Returned(e, l) => Some(Returned(e, Deferred(r, l)))
    case OutOfTries(l) =>
      if r.tries == -1 then Some(x)
      else if !r.reporter then None
      else Some(Returned(Some(ExhaustedAttempts), Deferred(r, Record(l, AfterGiveUp(r.service, r.tries, ExhaustedAttempts)))))
  }

  /** StartWithContext: the whole loop, with at most `horizon` attempts when unbounded. */
  function Retry(w: World, r: ServiceRetrier, horizon: nat, log: Log): Exit
  {
    Conclude(r, Attempts(w, r, 0, Bound(r.tries, horizon), log))
  }

  /** StartWithContext as written. */
  function RetryAsWritten(w: World, r: ServiceRetrier, horizon: nat, log: Log): Option<Exit>
  {
    ConcludeAsWritten(r, Attempts(w, r, 0, Bound(r.tries, horizon), log))
  }

  // ---------------------------------------------------------------------
  // Properties

  /** k copies of u. */
  function Repeat(u: Unit, k: nat): (s: seq<Unit>)
    ensures |s| == k && forall j :: 0 <= j < k ==> s[j] == u
  {
    if k == 0 then [] else Repeat(u, k - 1) + [u]
  }

  /** Whether an attempt calls the wrapped service at all. */
  predicate Calls(u: Unit)
  {
    u.startable || u.startableWithContext
  }

  /** The context polls a failed attempt makes: the select, and ctx.Err() after a failed StartWithContext. */
  function FailPolls(u: Unit, m: nat): nat
  {
    if u.startableWithContext then 2 * m else m
  }

  /** The start answers numbered from..from+n-1 are all failures. */
  ghost predicate StartsFail(w: World, from: nat, n: nat)
  {
    forall k :: from <= k < from + n ==> w.start(k).Some?
  }

  /** The next m attempts find the context live and the wrapped start failing. */
  ghost predicate Quiet(w: World, u: Unit, log: Log, m: nat)
  {
    PollsClear(w, log.checks, FailPolls(u, m)) && (Calls(u) ==> StartsFail(w, |log.started|, m))
  }

  /** The calls m attempts make. */
  function Tried(u: Unit, m: nat): nat
  {
    if Calls(u) then m else 0
  }

  /** The events the loop may record from attempt `from` on, when it stops before attempt n. */
  ghost predicate Allowed(e: Event, r: ServiceRetrier, from: int, n: int)
  {
    match e
    case Called(op, v) => v == r.service && (op == StartOp || op == StartWithContextOp)
    case Slept => r.waitBetweenTries > 0
    case CancelCalled => r.timeout > 0
    case BeforeRetry(v, c) => r.reporter && v == r.service && 0 < c && from <= c < n
    case AfterStart(v, _) => r.reporter && v == r.service
    case AfterGiveUp(v, _, _) => r.reporter && v == r.service
    case _ => false
  }

  /** Every event after position `from` of `t` is allowed. */
  ghost predicate AllowedAfter(t: seq<Event>, from: nat, r: ServiceRetrier, lo: int, n: int)
  {
    forall k :: from <= k < |t| ==> Allowed(t[k], r, lo, n)
  }

  /** Allowed events over two stretches of a trace are allowed over both. */
  lemma AllowedJoin(t0: seq<Event>, t1: seq<Event>, t2: seq<Event>, r: ServiceRetrier, lo: int, mid: int, hi: int)
    requires t0 <= t1 <= t2 && lo <= mid <= hi
    requires AllowedAfter(t1, |t0|, r, lo, mid) && AllowedAfter(t2, |t1|, r, mid, hi)
    ensures AllowedAfter(t2, |t0|, r, lo, hi)
  {
    forall k | |t0| <= k < |t2|
      ensures Allowed(t2[k], r, lo, hi)
    {
      if k < |t1| {
        assert t2[k] == t1[k];
      }
    }
  }

  /** One attempt records only allowed events, BeforeRetry with its own number if that is not 0. */
  lemma RoundAllowed(w: World, r: ServiceRetrier, i: nat, log: Log)
    ensures var p := Round(w, r, i, log);
      log.trace <= p.log.trace && AllowedAfter(p.log.trace, |log.trace|, r, i, i + 1)
  {
    var u := r.service;
    var (d, log1) := PollDone(w, log);
    if d.Some? {
      if r.reporter {
        SnocAllowed(log1.trace, |log.trace|, r, i, i + 1, AfterGiveUp(u, i, d.value));
      }
    } else {
      var log2 := if i > 0 then Notify(log1, r.reporter, BeforeRetry(u, i)) else log1;
      if i > 0 && r.reporter {
        SnocAllowed(log1.trace, |log.trace|, r, i, i + 1, BeforeRetry(u, i));
      }
      AttemptAllowed(w, r, i, log2);
      var p := Attempt(w, r, i, log2);
      AllowedJoin(log.trace, log2.trace, p.log.trace, r, i, i + 1, i + 1);
      if p.Continues? && r.waitBetweenTries > 0 {
        SnocAllowed(p.log.trace, |log.trace|, r, i, i + 1, Slept);
      }
    }
  }

  /** The wrapped start records its call and, with a reporter, AfterStart or AfterGiveUp. */
  lemma AttemptAllowed(w: World, r: ServiceRetrier, i: nat, log: Log)
    ensures var p := Attempt(w, r, i, log);
      log.trace <= p.log.trace && AllowedAfter(p.log.trace, |log.trace|, r, i, i + 1)
  {
    var u := r.service;
    if u.startableWithContext {
      var (e, log1) := Invoke(w, log, StartWithContextOp, u);
      SnocAllowed(log.trace, |log.trace|, r, i, i + 1, Called(StartWithContextOp, u));
      if e.Some? {
        var (c, log2) := PollDone(w, log1);
        if c.Some? && r.reporter {
          SnocAllowed(log2.trace, |log.trace|, r, i, i + 1, AfterGiveUp(u, i, c.value));
        }
      }
    } else if u.startable {
      var (e, log1) := Invoke(w, log, StartOp, u);
      SnocAllowed(log.trace, |log.trace|, r, i, i + 1, Called(StartOp, u));
      if e.Some? && r.reporter {
        SnocAllowed(log1.trace, |log.trace|, r, i, i + 1, AfterStart(u, e));
      }
    }
  }

  /** Appending an allowed event keeps the stretch allowed. */
  lemma SnocAllowed(t: seq<Event>, from: nat, r: ServiceRetrier, lo: int, n: int, e: Event)
    requires from <= |t| && AllowedAfter(t, from, r, lo, n) && Allowed(e, r, lo, n)
    ensures AllowedAfter(t + [e], from, r, lo, n)
  {
    forall k | from <= k < |t| + 1
      ensures Allowed((t + [e])[k], r, lo, n)
    {
      if k < |t| {
        assert (t + [e])[k] == t[k];
      }
    }
  }

  /** Stretches without AfterGiveUp join into one. */
  lemma NoGiveUpJoin(t0: seq<Event>, t1: seq<Event>, t2: seq<Event>)
    requires t0 <= t1 <= t2 && NoGiveUp(t1, |t0|) && NoGiveUp(t2, |t1|)
    ensures NoGiveUp(t2, |t0|)
  {
    assert forall k :: |t0| <= k < |t1| ==> t2[k] == t1[k];
  }

  lemma QuietTail(w: World, u: Unit, log: Log, l: Log, m: nat)
    requires 0 < m && Quiet(w, u, log, m)
    requires l.checks == log.checks + FailPolls(u, 1)
    requires |l.started| == |log.started| + Tried(u, 1)
    ensures Quiet(w, u, l, m - 1)
  {
    PollsClearTail(w, log.checks, FailPolls(u, m), FailPolls(u, 1));
  }

  /** A Quiet attempt goes on to the next one after one call and FailPolls(u, 1) polls. */
  lemma QuietRound(w: World, r: ServiceRetrier, i: nat, log: Log)
    requires Quiet(w, r.service, log, 1)
    ensures var p := Round(w, r, i, log);
      && p.Continues?
      && p.log.started == log.started + Repeat(r.service, Tried(r.service, 1))
      && p.log.checks == log.checks + FailPolls(r.service, 1)
      && log.trace <= p.log.trace && NoGiveUp(p.log.trace, |log.trace|)
  {
    assert w.done(log.checks).None?;
    var u := r.service;
    if u.startableWithContext {
      assert w.done(log.checks + 1).None?;
    }
    if Calls(u) {
      assert w.start(|log.started|).Some?;
    }
    ContinuesWithoutGiveUp(w, r, i, log);
  }

  /** AfterGiveUp is reported only on the way out: a round that goes on adds none. */
  lemma ContinuesWithoutGiveUp(w: World, r: ServiceRetrier, i: nat, log: Log)
    requires Round(w, r, i, log).Continues?
    ensures var p := Round(w, r, i, log);
      log.trace <= p.log.trace && NoGiveUp(p.log.trace, |log.trace|)
  {
    var (d, log1) := PollDone(w, log);
    var log2 := if i > 0 then Notify(log1, r.reporter, BeforeRetry(r.service, i)) else log1;
    var a := Attempt(w, r, i, log2);
    assert log2.trace <= a.log.trace && NoGiveUp(a.log.trace, |log2.trace|);
    var l := if r.waitBetweenTries > 0 then Record(a.log, Slept) else a.log;
    assert Round(w, r, i, log).log == l;
  }

  /** Splitting the loop after m attempts. */
  lemma {:induction false} AttemptsSplit(w: World, r: ServiceRetrier, i: nat, m: nat, n: nat, log: Log)
    requires i + m <= n
    ensures Attempts(w, r, i, n, log) ==
      match Rounds(w, r, i, m, log)
      case Exits(e, l) => Returned(e, l)
      case Continues(l) => Attempts(w, r, i + m, n, l)
    decreases m
  {
    if m > 0 {
      match Round(w, r, i, log)
      case Exits(e, l) =>
      case Continues(l) => AttemptsSplit(w, r, i + 1, m - 1, n, l);
    }
  }

  /**
   * m Quiet attempts all go on: they make exactly m calls (if the service
   * can be started at all) and FailPolls(u, m) polls.
   */
  lemma {:induction false} QuietRounds(w: World, r: ServiceRetrier, i: nat, m: nat, log: Log)
    requires Quiet(w, r.service, log, m)
    ensures var p := Rounds(w, r, i, m, log);
      && p.Continues?
      && p.log.started == log.started + Repeat(r.service, Tried(r.service, m))
      && p.log.checks == log.checks + FailPolls(r.service, m)
      && log.trace <= p.log.trace && NoGiveUp(p.log.trace, |log.trace|)
    decreases m
  {
    if m > 0 {
      var u := r.service;
      assert Quiet(w, u, log, 1) by {
        PollsClearTail(w, log.checks, FailPolls(u, m), 0);
      }
      QuietRound(w, r, i, log);
      var l := Round(w, r, i, log).log;
      QuietTail(w, u, log, l, m);
      QuietRounds(w, r, i + 1, m - 1, l);
      RepeatCons(u, Tried(u, 1), Tried(u, m - 1), Tried(u, m));
      assert Rounds(w, r, i, m, log) == Rounds(w, r, i + 1, m - 1, l);
      NoGiveUpJoin(log.trace, l.trace, Rounds(w, r, i + 1, m - 1, l).log.trace);
    }
  }

  /** Calls after calls: a + b copies are a copies, then b. */
  lemma RepeatCons(u: Unit, a: nat, b: nat, c: nat)
    requires a + b == c
    ensures Repeat(u, a) + Repeat(u, b) == Repeat(u, c)
  {
    assert forall j :: 0 <= j < c ==> (Repeat(u, a) + Repeat(u, b))[j] == u;
  }

  /** Without a reporter nothing but calls, sleeps and the deferred cancel enter the trace. */
  lemma {:induction false} AttemptsAllowed(w: World, r: ServiceRetrier, i: nat, n: nat, log: Log)
    ensures var x := Attempts(w, r, i, n, log);
      log.trace <= x.log.trace && AllowedAfter(x.log.trace, |log.trace|, r, i, n)
    decreases n - i
  {
    if i < n {
      RoundAllowed(w, r, i, log);
      match Round(w, r, i, log)
      case Exits(e, l) =>
        AllowedJoin(log.trace, l.trace, l.trace, r, i, i + 1, n);
      case Continues(l) =>
        AttemptsAllowed(w, r, i + 1, n, l);
        AllowedJoin(log.trace, l.trace, Attempts(w, r, i + 1, n, l).log.trace, r, i, i + 1, n);
    }
  }

  /** An attempt makes at most one call, on the wrapped service. */
  lemma RoundCalls(w: World, r: ServiceRetrier, i: nat, log: Log)
    ensures var p := Round(w, r, i, log);
      p.log.started == log.started || p.log.started == log.started + [r.service]
  {
  }

  lemma {:induction false} AttemptsCalls(w: World, r: ServiceRetrier, i: nat, n: nat, log: Log)
    requires i <= n
    ensures var x := Attempts(w, r, i, n, log);
      && log.started <= x.log.started && |x.log.started| <= |log.started| + (n - i)
      && (forall k :: |log.started| <= k < |x.log.started| ==> x.log.started[k] == r.service)
    decreases n - i
  {
    if i < n {
      RoundCalls(w, r, i, log);
      match Round(w, r, i, log)
      case Exits(e, l) =>
        assert Attempts(w, r, i, n, log).log == l;
      case Continues(l) =>
        AttemptsCalls(w, r, i + 1, n, l);
        var x := Attempts(w, r, i + 1, n, l);
        assert Attempts(w, r, i, n, log) == x;
        assert |l.started| <= |log.started| + 1;
        assert forall k :: |log.started| <= k < |l.started| ==> x.log.started[k] == l.started[k];
    }
  }

  /**
   * The wrapped start is called on the wrapped service only, at most
   * `tries` times when tries is not -1, and the retrier then always
   * returns; with tries == -1 the number of calls is bounded only by the
   * horizon.
   */
  lemma RetryCallsBounded(w: World, r: ServiceRetrier, horizon: nat, log: Log)
    ensures var x := Retry(w, r, horizon, log);
      && log.started <= x.log.started
      && (forall k :: |log.started| <= k < |x.log.started| ==> x.log.started[k] == r.service)
      && (r.tries != -1 ==> x.Returned? && |x.log.started| <= |log.started| + (if r.tries > 0 then r.tries else 0))
      && (r.tries == -1 ==> |x.log.started| <= |log.started| + horizon)
  {
    AttemptsCalls(w, r, 0, Bound(r.tries, horizon), log);
  }

  /**
   * Every event StartWithContext records is a call of the wrapped start, a
   * sleep, the timeout's cancel or, only with a reporter, a notification
   * about the wrapped service; BeforeRetry carries a count between 1 and
   * the last attempt's number.
   */
  lemma RetryEvents(w: World, r: ServiceRetrier, horizon: nat, log: Log)
    ensures var x := Retry(w, r, horizon, log);
      log.trace <= x.log.trace && AllowedAfter(x.log.trace, |log.trace|, r, 0, Bound(r.tries, horizon))
  {
    var n := Bound(r.tries, horizon);
    AttemptsAllowed(w, r, 0, n, log);
    var a := Attempts(w, r, 0, n, log);
    var t := a.log.trace;
    match a
    case Returned(e, l) =>
      if r.timeout > 0 {
        SnocAllowed(t, |log.trace|, r, 0, n, CancelCalled);
      }
    case OutOfTries(l) =>
      if r.tries != -1 {
        var l1 := Notify(l, r.reporter, AfterGiveUp(r.service, r.tries, ExhaustedAttempts));
        if r.reporter {
          SnocAllowed(t, |log.trace|, r, 0, n, AfterGiveUp(r.service, r.tries, ExhaustedAttempts));
        }
        if r.timeout > 0 {
          SnocAllowed(l1.trace, |log.trace|, r, 0, n, CancelCalled);
        }
      }
  }

  /** `e` is the last event before the deferred cancel, which ends the trace when there is a timeout. */
  ghost predicate ReportedLast(r: ServiceRetrier, t: seq<Event>, e: Event)
  {
    if r.timeout > 0 then |t| >= 2 && t[|t| - 2] == e && t[|t| - 1] == CancelCalled
    else |t| >= 1 && t[|t| - 1] == e
  }

  /** No AfterGiveUp from position `from` of `t` on. */
  ghost predicate NoGiveUp(t: seq<Event>, from: nat)
  {
    forall k :: from <= k < |t| ==> !t[k].AfterGiveUp?
  }

  /** From position `from` on, AfterGiveUp appears at most at the place ReportedLast names: it is reported at most once. */
  ghost predicate GiveUpOnlyLast(r: ServiceRetrier, t: seq<Event>, from: nat)
  {
    forall k :: from <= k < |t| && t[k].AfterGiveUp? ==> k == |t| - (if r.timeout > 0 then 2 else 1)
  }

  /** The loop goes on from attempt i with the log m Quiet attempts leave. */
  lemma QuietPrefix(w: World, r: ServiceRetrier, m: nat, n: nat, log: Log) returns (l: Log)
    requires m <= n && Quiet(w, r.service, log, m)
    ensures Attempts(w, r, 0, n, log) == Attempts(w, r, m, n, l)
    ensures l.started == log.started + Repeat(r.service, Tried(r.service, m))
    ensures l.checks == log.checks + FailPolls(r.service, m)
    ensures log.trace <= l.trace && NoGiveUp(l.trace, |log.trace|)
  {
    AttemptsSplit(w, r, 0, m, n, log);
    QuietRounds(w, r, 0, m, log);
    l := Rounds(w, r, 0, m, log).log;
  }

  /** A returned answer passes through the deferred cancel unchanged, which may only add CancelCalled at the end. */
  lemma ConcludeReturned(r: ServiceRetrier, x: Exit, e: Event)
    requires x.Returned?
    ensures var y := Conclude(r, x);
      && y == Returned(x.err, y.log) && y.log.started == x.log.started
      && (|x.log.trace| >= 1 && x.log.trace[|x.log.trace| - 1] == e ==> ReportedLast(r, y.log.trace, e))
  {
  }

  /** An attempt that returns ends the loop with its answer. */
  lemma AttemptsExit(w: World, r: ServiceRetrier, i: nat, n: nat, log: Log)
    requires i < n && Round(w, r, i, log).Exits?
    ensures Attempts(w, r, i, n, log) == Returned(Round(w, r, i, log).err, Round(w, r, i, log).log)
  {
  }

  /** A live context and a successful call make attempt i return nil after that one call. */
  lemma RoundSucceeds(w: World, r: ServiceRetrier, i: nat, log: Log)
    requires Calls(r.service) && w.done(log.checks).None? && w.start(|log.started|).None?
    ensures var p := Round(w, r, i, log);
      p == Exits(None, p.log) && p.log.started == log.started + [r.service]
  {
  }

  /** A done context makes attempt i return ctx.Err() without a call, reported with AfterGiveUp(i). */
  lemma RoundCancelled(w: World, r: ServiceRetrier, i: nat, log: Log)
    requires w.done(log.checks).Some?
    ensures var p := Round(w, r, i, log);
      && p == Exits(w.done(log.checks), p.log) && p.log.started == log.started
      && p.log.trace == log.trace + (if r.reporter then [AfterGiveUp(r.service, i, w.done(log.checks).value)] else [])
  {
  }

  /** A failed StartWithContext found with the context done makes attempt i give up, reported with AfterGiveUp(i). */
  lemma RoundGivesUp(w: World, r: ServiceRetrier, i: nat, log: Log)
    requires r.service.startableWithContext
    requires w.done(log.checks).None? && w.start(|log.started|).Some? && w.done(log.checks + 1).Some?
    ensures var p := Round(w, r, i, log);
      && p == Exits(w.done(log.checks + 1), p.log) && p.log.started == log.started + [r.service]
      && (r.reporter ==> p.log.trace[|p.log.trace| - 1] == AfterGiveUp(r.service, i, w.done(log.checks + 1).value))
  {
  }

  /**
   * If the first success is attempt j, StartWithContext returns nil after
   * exactly j + 1 calls of the wrapped start.
   */
  lemma SucceedsAt(w: World, r: ServiceRetrier, horizon: nat, log: Log, j: nat)
    requires Calls(r.service) && j < Bound(r.tries, horizon)
    requires Quiet(w, r.service, log, j) && w.done(log.checks + FailPolls(r.service, j)).None?
    requires w.start(|log.started| + j).None?
    ensures var x := Retry(w, r, horizon, log);
      x.Returned? && x.err.None? && x.log.started == log.started + Repeat(r.service, j) + [r.service]
  {
    var n := Bound(r.tries, horizon);
    var l := QuietPrefix(w, r, j, n, log);
    RoundSucceeds(w, r, j, l);
    AttemptsExit(w, r, j, n, l);
  }

  /**
   * With no cancellation and every call failing, a bounded retrier returns
   * ErrExhaustedAttempts after exactly `tries` calls (none for a service it
   * cannot start), reported with AfterGiveUp(tries) when a reporter is set.
   */
  lemma ExhaustsAfterTries(w: World, r: ServiceRetrier, horizon: nat, log: Log)
    requires r.tries >= 0 && Quiet(w, r.service, log, r.tries)
    ensures var x := Retry(w, r, horizon, log);
      && x.Returned? && x.err == Some(ExhaustedAttempts)
      && x.log.started == log.started + Repeat(r.service, Tried(r.service, r.tries))
      && (r.reporter ==> ReportedLast(r, x.log.trace, AfterGiveUp(r.service, r.tries, ExhaustedAttempts)))
      && log.trace <= x.log.trace && GiveUpOnlyLast(r, x.log.trace, |log.trace|)
      && (!r.reporter ==> NoGiveUp(x.log.trace, |log.trace|))
  {
    var n := Bound(r.tries, horizon);
    var l := QuietPrefix(w, r, n, n, log);
    var g := Notify(l, r.reporter, AfterGiveUp(r.service, r.tries, ExhaustedAttempts));
    assert Retry(w, r, horizon, log).log == Deferred(r, g);
    assert l.trace <= g.trace && NoGiveUp(g.trace, |l.trace| + (if r.reporter then 1 else 0));
  }

  /**
   * With tries == -1 the retrier never gives up by itself: after any
   * number h of failed attempts with the context live it is still
   * retrying, having made h calls.
   */
  lemma UnboundedKeepsRetrying(w: World, r: ServiceRetrier, horizon: nat, log: Log)
    requires r.tries == -1 && Quiet(w, r.service, log, horizon)
    ensures var x := Retry(w, r, horizon, log);
      x.OutOfTries? && x.log.started == log.started + Repeat(r.service, Tried(r.service, horizon))
  {
    var l := QuietPrefix(w, r, horizon, horizon, log);
  }

  /**
   * A context found done before attempt i ends the retrier with ctx.Err(),
   * after i calls, reported with AfterGiveUp(i) when a reporter is set.
   */
  lemma CancelledBeforeAttempt(w: World, r: ServiceRetrier, horizon: nat, log: Log, i: nat)
    requires i < Bound(r.tries, horizon) && Quiet(w, r.service, log, i)
    requires w.done(log.checks + FailPolls(r.service, i)).Some?
    ensures var x := Retry(w, r, horizon, log);
      && x.Returned? && x.err == w.done(log.checks + FailPolls(r.service, i))
      && x.log.started == log.started + Repeat(r.service, Tried(r.service, i))
      && (r.reporter ==> ReportedLast(r, x.log.trace, AfterGiveUp(r.service, i, x.err.value)))
  {
    var n := Bound(r.tries, horizon);
    var l := QuietPrefix(w, r, i, n, log);
    RoundCancelled(w, r, i, l);
    AttemptsExit(w, r, i, n, l);
  }

  /**
   * A failed StartWithContext while the context is done gives up at once:
   * ctx.Err() after i + 1 calls, reported with AfterGiveUp(i).
   */
  lemma CancelledDuringStart(w: World, r: ServiceRetrier, horizon: nat, log: Log, i: nat)
    requires r.service.startableWithContext
    requires i < Bound(r.tries, horizon) && Quiet(w, r.service, log, i)
    requires w.done(log.checks + FailPolls(r.service, i)).None? && w.start(|log.started| + i).Some?
    requires w.done(log.checks + FailPolls(r.service, i) + 1).Some?
    ensures var x := Retry(w, r, horizon, log);
      && x.Returned? && x.err == w.done(log.checks + FailPolls(r.service, i) + 1)
      && x.log.started == log.started + Repeat(r.service, i) + [r.service]
      && (r.reporter ==> ReportedLast(r, x.log.trace, AfterGiveUp(r.service, i, x.err.value)))
  {
    var n := Bound(r.tries, horizon);
    var l := QuietPrefix(w, r, i, n, log);
    GivesUpFrom(w, r, n, l, i);
    ConcludeReturned(r, Attempts(w, r, i, n, l), AfterGiveUp(r.service, i, w.done(l.checks + 1).value));
  }


  /** Attempt i gives up with the context's error after a failed StartWithContext, and ends the loop. */
  lemma GivesUpFrom(w: World, r: ServiceRetrier, n: nat, l: Log, i: nat)
    requires r.service.startableWithContext && i < n
    requires w.done(l.checks).None? && w.start(|l.started|).Some? && w.done(l.checks + 1).Some?
    ensures var x := Attempts(w, r, i, n, l);
      && x == Returned(w.done(l.checks + 1), x.log)
      && x.log.started == l.started + [r.service]
      && (r.reporter ==> |x.log.trace| >= 1 && x.log.trace[|x.log.trace| - 1] == AfterGiveUp(r.service, i, w.done(l.checks + 1).value))
  {
    RoundGivesUp(w, r, i, l);
    AttemptsExit(w, r, i, n, l);
  }



  /**
   * Where no attempt is left and no reporter is set, the code as written
   * calls AfterGiveUp on the nil reporter: it panics, where ExhaustsAfterTries
   * shows the corrected retrier returning ErrExhaustedAttempts.
   */
  lemma ExhaustedWithoutReporterPanics(w: World, r: ServiceRetrier, horizon: nat, log: Log)
    requires r.tries >= 0 && !r.reporter && Quiet(w, r.service, log, r.tries)
    ensures RetryAsWritten(w, r, horizon, log).None?
    ensures Retry(w, r, horizon, log).err == Some(ExhaustedAttempts)
  {
    ExhaustsAfterTries(w, r, horizon, log);
    var n := Bound(r.tries, horizon);
    var l := QuietPrefix(w, r, n, n, log);
  }

  /** With a reporter set, or when the loop returns early, the code as written and the corrected one agree. */
  lemma AsWrittenAgrees(w: World, r: ServiceRetrier, horizon: nat, log: Log)
    requires r.reporter || r.tries == -1 || Attempts(w, r, 0, Bound(r.tries, horizon), log).Returned?
    ensures RetryAsWritten(w, r, horizon, log) == Some(Retry(w, r, horizon, log))
  {
  }
}
