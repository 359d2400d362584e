/*
 * Shared vocabulary of the lifecycle orchestrators: units and their
 * capabilities, errors, the event trace, and the outside world (what each
 * call to a unit, a context or a select statement answers).
 *
 * The outside world is a set of oracles: the n-th Load call made in a run
 * answers `load(n)`, the n-th Stop call answers `stop(n)`, and so on. Any
 * behaviour of the units and contexts in a sequential run is one choice of
 * oracles, so every property proved for all oracles holds for every unit.
 */
module Lifecycle {

  datatype Option<+T> = None | Some(value: T)

  /** The errors the orchestrators produce or pass through. */
  datatype Error =
    | Failure(msg: string)                  // any error returned by a unit
    | Canceled                              // context.Canceled
    | DeadlineExceeded                      // context.DeadlineExceeded
    | StartCancelledBySignal                // ErrStartCancelledBySignal
    | NotStartable(typeName: string)        // ErrNotStartable wrapped with the unit's type name
    | ExhaustedAttempts                     // ErrExhaustedAttempts
    | Multi(errs: seq<Option<Error>>)       // MultiErrors, index-aligned, nil entries kept

  /** A Go `error` value: None is nil. */
  type Outcome = Option<Error>

  /**
   * A managed unit and the capability interfaces it implements. `id`
   * tells apart units that are otherwise alike (two mocks of one type).
   */
  datatype Unit = Unit(
    id: nat,
    name: string,
    typeName: string,
    configurable: bool,         // Configurable: has Load
    resource: bool,             // Resource / ResourceService: Start(ctx) and Stop(ctx)
    server: bool,               // Server: Listen(ctx) and Close(ctx)
    startable: bool,            // Startable: Start()
    startableWithContext: bool) // StartableWithContext: StartWithContext(ctx)

  /** The calls the orchestrators make on units. */
  datatype Op = LoadOp | StartOp | StartWithContextOp | StopOp | CloseOp

  /** What one run records, in order: calls on units, cancellations, reporter notifications. */
  datatype Event =
    | Called(op: Op, unit: Unit)
    | CancelCalled                               // a cancel function the operation answers for was invoked
    | BeforeLoad(unit: Unit)
    | AfterLoad(unit: Unit, err: Outcome)
    | BeforeStart(unit: Unit)
    | AfterStart(unit: Unit, err: Outcome)
    | BeforeStop(unit: Unit)
    | AfterStop(unit: Unit, err: Outcome)
    | BeforeStopAll                              // Reporter.BeforeStop(nil)
    | AfterStopAll                               // Reporter.AfterStop(nil, nil)
    | BeforeRetry(unit: Unit, count: int)
    | AfterGiveUp(unit: Unit, count: int, reason: Error)
    | Slept                                      // time.Sleep between retries

  /** What a two-channel `select` with a `default` branch observes. */
  datatype Check = Clear | ContextDone(ctxErr: Error) | SignalDone

  /** The oracles: the answer to the n-th call of each kind. */
  datatype World = World(
    load: nat -> Outcome,
    start: nat -> Outcome,      // Start and StartWithContext share one count
    stop: nat -> Outcome,
    close: nat -> Outcome,
    done: nat -> Outcome,       // n-th poll of <-ctx.Done(): Some(ctx.Err()) once done
    select: nat -> Check)       // n-th poll of select { ctx.Done, ctxSignal.Done, default }

  /**
   * The history of one run: the units each kind of call was made on, in
   * call order (Start and StartWithContext share `started`), how many
   * context polls were made, and the whole trace of events.
   */
  datatype Log = Log(
    loaded: seq<Unit>, started: seq<Unit>, stopped: seq<Unit>, closed: seq<Unit>,
    checks: nat, selects: nat,
    trace: seq<Event>)

  function Record(log: Log, e: Event): (r: Log)
    ensures r.trace == log.trace + [e]
    ensures r.(trace := log.trace) == log
  {
    log.(trace := log.trace + [e])
  }

  /** A reporter notification: recorded only when a reporter is set. */
  function Notify(log: Log, reporter: bool, e: Event): (r: Log)
    ensures r.trace == if reporter then log.trace + [e] else log.trace
    ensures r.(trace := log.trace) == log
  {
    if reporter then Record(log, e) else log
  }

  /** Calls `op` on `u`; the oracle of that kind answers the n-th such call. */
  function Invoke(w: World, log: Log, op: Op, u: Unit): (Outcome, Log)
  {
    match op
    case LoadOp => (w.load(|log.loaded|), Record(log.(loaded := log.loaded + [u]), Called(op, u)))
    case StartOp => (w.start(|log.started|), Record(log.(started := log.started + [u]), Called(op, u)))
    case StartWithContextOp => (w.start(|log.started|), Record(log.(started := log.started + [u]), Called(op, u)))
    case StopOp => (w.stop(|log.stopped|), Record(log.(stopped := log.stopped + [u]), Called(op, u)))
    case CloseOp => (w.close(|log.closed|), Record(log.(closed := log.closed + [u]), Called(op, u)))
  }

  /** Polls `<-ctx.Done()` non-blockingly: Some(ctx.Err()) if the context is done. */
  function PollDone(w: World, log: Log): (Outcome, Log)
  {
    (w.done(log.checks), log.(checks := log.checks + 1))
  }

  /** Polls the caller's context and the signal context together. */
  function PollSelect(w: World, log: Log): (Check, Log)
  {
    (w.select(log.selects), log.(selects := log.selects + 1))
  }

  /** BeforeLoad, Load, AfterLoad. */
  function LoadReported(w: World, reporter: bool, log: Log, u: Unit): (Outcome, Log)
  {
    var (e, log1) := Invoke(w, Notify(log, reporter, BeforeLoad(u)), LoadOp, u);
    (e, Notify(log1, reporter, AfterLoad(u, e)))
  }

  /** BeforeStart, Start (through `op`), AfterStart. */
  function StartReported(w: World, reporter: bool, log: Log, u: Unit, op: Op): (Outcome, Log)
  {
    var (e, log1) := Invoke(w, Notify(log, reporter, BeforeStart(u)), op, u);
    (e, Notify(log1, reporter, AfterStart(u, e)))
  }

  /** BeforeStop, Stop, AfterStop. */
  function StopReported(w: World, reporter: bool, log: Log, u: Unit): (Outcome, Log)
  {
    var (e, log1) := Invoke(w, Notify(log, reporter, BeforeStop(u)), StopOp, u);
    (e, Notify(log1, reporter, AfterStop(u, e)))
  }

  function Reverse<T>(s: seq<T>): (r: seq<T>)
    ensures |r| == |s|
  {
    if s == [] then [] else [s[|s| - 1]] + Reverse(s[..|s| - 1])
  }

  lemma {:induction false} ReverseAt<T>(s: seq<T>, k: nat)
    requires k < |s|
    ensures Reverse(s)[k] == s[|s| - 1 - k]
    decreases |s|
  {
    if k > 0 {
      ReverseAt(s[..|s| - 1], k - 1);
    }
  }
}
