# services — a Dafny model of the lifecycle orchestrators

`setare/services` is a Go library that starts a list of services in order,
loads configuration for the `Configurable` ones, reports every step to an
optional reporter, and stops the started ones again from last to first. The
repository carries several versions of this orchestrator side by side, which
cannot be compiled together. This project models each version in its own
Dafny module:

| module | Go file | what it is |
|---|---|---|
| `Lifecycle` | (shared) | services, errors, events, the outside world as an oracle, the call log |
| `Teardown` | (shared) | the halting reverse teardown and the draining rollback |
| `Sequential` | (shared by manager.go and resource_starter.go) | the start loop with two cancellation polls per unit, and its deferred rollback |
| `Manager` | manager.go | class `Manager` |
| `ResourceStarter` | resource_starter.go | class `ResourceStarter` |
| `Starter` | starter.go | class `Starter`: priority dispatch and a rollback that drains |
| `Runner` | runner.go | class `Runner`: no rollback, `Finish`, `MultiErrors.Error`, the index-aligned `errMulti` |
| `Retrier` | retrier.go | `ServiceRetrier`, class `RetrierBuilder`, the attempt loop |

**The world as an input.** Nothing the services answer is fixed by the
model. A `World` value supplies:

- the answer of the n-th `Load`, `Start` (or `StartWithContext`), `Stop` and `Close` call;
- the state of the context at the n-th poll;
- the result of the n-th `select` over the caller's context and the signal context.

The `Log` counts the calls made so far, holding the units called in call
order, and keeps an event trace. Every service call is recorded as
`Called(op, unit)`. Reporter notifications (`BeforeStart`, `AfterStart`,
`BeforeStop`, `AfterStop`, `BeforeRetry`, `AfterGiveUp`, …) are recorded only
when a reporter is set. The scripted per-unit result queues of the test
doubles are a special case of such a world.

**Form.** The orchestrators are classes whose fields the Go methods update in
place: `resourceServices`, `servicesStarted`, whether a cancel function or
context is stored, and whether a reporter is set. Their methods carry the
Go loops with invariants. Each method is proved equal to a specification
function on values (`GuardedStart`, `CancelThenHalt`, `StartServices`,
`StopServices`, `RunServices`, `FinishResources`, `Retry`). The lemmas state
the promised behaviour of those functions for every world: order, prefixes,
"nothing else is called", the error returned in each case, and the reporter
trace.

## Model

| member | source | states |
|---|---|---|
| Lifecycle.Notify | runner.go:198-200 | a reporter call adds its event to the trace exactly when a reporter is set, and changes nothing else |
| Teardown.StopReportedShape | manager.go:161-166 | one reported Stop consumes the next Stop answer, returns it, records the unit as stopped and calls nothing else |
| Teardown.HaltingShape | manager.go:159-172 | the reverse teardown drops a suffix of the list, one unit per successful Stop; it returns nil exactly when the list is drained; on the first failing Stop it returns that error, with the failing unit still last in the list |
| Teardown.HaltingDrains | runner.go:280-294 | the teardown empties the list if and only if every Stop it calls succeeds |
| Teardown.HaltingOrder | resource_starter.go:151-165 | Stop is called from last to first, on a prefix of the reversed list, one call per answer consumed |
| Teardown.HaltingOnlyStops | manager.go:159-172 | the teardown calls nothing but Stop: no Load, Start or Close, and no poll |
| Teardown.DrainingShape | starter.go:92-102 | the rollback calls Stop on every unit exactly once, from last to first, whatever the answers are, and calls nothing else |
| Teardown.HaltingSingle | manager.go:159-172 | one unit whose Stop succeeds is dropped, after BeforeStop, Stop and AfterStop(nil) |
| Sequential.StartLoopHead | manager.go:90-134 | the start loop is its first iteration, then the loop on the rest unless that iteration failed |
| Sequential.StartAttemptStarts | manager.go:123-133 | one iteration calls Start at most once, on its own unit; success implies that Start was called and answered nil |
| Sequential.StartStepWellShaped | manager.go:90-134 | the iteration polls, Loads a Configurable, polls again and Starts, exiting on the first error |
| Sequential.StartLoopStarted | manager.go:90-134 | the loop appends, in order, a prefix of the units, all of them exactly when it returns nil; those units' Start answers were all nil |
| Sequential.StartLoopCalls | manager.go:123-133 | Start was called, in order, on the appended prefix and at most one unit more; if there was one more, the loop returns that Start's error |
| Sequential.StepsClear | manager.go:90-134 | after k clear iterations, exactly the first k units are loaded (if Configurable), started and appended, after two polls each |
| Sequential.StartLoopPrefix | manager.go:90-134 | after k clear iterations the loop continues from the state they reached |
| Sequential.StartLoopEndsAt | manager.go:90-134 | when the k-th iteration fails after k clear ones, the loop returns that iteration's result |
| Sequential.StartLoopAllSucceed | manager.go:90-134 | with every poll live and every Load and Start succeeding, the loop returns nil with every unit started and appended in order, and the Configurable ones loaded |
| Sequential.StartLoopFailsAt | manager.go:123-133 | if the k-th Start fails, the loop returns that error; the first k units stay appended; Start was called on exactly the first k+1 |
| Sequential.StartLoopLoadFailsAt | manager.go:101-112 | if the k-th unit's Load fails, the loop returns that error before calling its Start |
| Sequential.StartLoopCancelledBeforeLoad | manager.go:93-98 | a context found done before the k-th Load gives ctx.Err(), and nothing further is started |
| Sequential.StartLoopCancelledAfterLoad | manager.go:115-120 | a context found done after the k-th Load gives ctx.Err(), and that unit is not started |
| Sequential.GuardedStartOutcome | manager.go:64-74 | Start returns the loop's error. On success every unit is kept and nothing is stopped. On error the deferred Stop tears down the started units from last to first, halting at the first failing Stop; it keeps a prefix, which is empty exactly when every Stop succeeded |
| Sequential.OneUnitStart | manager.go:123-128 | with a reporter and one plain unit, Start records BeforeStart, Start, AfterStart(nil), then the deferred cancel |
| Sequential.OneUnitStep | manager.go:123-128 | with a reporter, one plain unit, a live context and a successful Start, the iteration appends the unit after BeforeStart, Start, AfterStart(nil), and stops nothing |
| Sequential.OneUnitTrace | manager.go:161-166 | for one unit, Start then Stop record BeforeStart, Start, AfterStart(nil), the two cancels, BeforeStop, Stop, AfterStop(nil), in that order |
| Manager.Manager.constructor | manager.go:31-45 | nothing started, no cancel function stored, a reporter exactly when one is given |
| Manager.Manager.WithReporter | manager.go:192-195 | sets the reporter and nothing else |
| Manager.Manager.Start | manager.go:63-136 | stores the cancel function; the new resourceServices, the error and the log are those of `GuardedStart`, which includes the deferred cancel and rollback |
| Manager.Manager.StartEach | manager.go:90-134 | the loop's result and the new resourceServices are those of the start-loop specification |
| Manager.Manager.StartIteration | manager.go:93-133 | one iteration is the specified poll, Load, poll, Start sequence |
| Manager.Manager.Stop | manager.go:140-174 | calls the stored cancel function first, if there is one; then the halting reverse teardown, whose remaining list becomes resourceServices |
| ResourceStarter.ResourceStarter.constructor | resource_starter.go:28-37 | nothing started, no cancel function stored, a reporter exactly when one is given |
| ResourceStarter.ResourceStarter.WithReporter | resource_starter.go:169-172 | sets the reporter and nothing else |
| ResourceStarter.ResourceStarter.Start | resource_starter.go:48-121 | stores the cancel function; the result is that of `GuardedStart`, with the deferred cancel and the rollback through Stop |
| ResourceStarter.ResourceStarter.StartEach | resource_starter.go:75-119 | the loop's result and the new resourceServices are those of the start-loop specification |
| ResourceStarter.ResourceStarter.StartIteration | resource_starter.go:78-118 | one iteration is the specified poll, Load, poll, Start sequence |
| ResourceStarter.ResourceStarter.Stop | resource_starter.go:125-166 | calls the stored cancel function first, if there is one; then the halting reverse teardown |
| Starter.DispatchPriority | starter.go:132-163 | a unit with StartWithContext is started through it even when it also has Start; a unit with only Start uses Start; a unit with neither gets NotStartable with its type name, and nothing is called |
| Starter.DispatchGrows | starter.go:132-163 | the dispatch calls at most one start, on its unit; it records the unit exactly when it calls |
| Starter.StarterAttemptShape | starter.go:110-164 | one iteration only grows the log and calls a start at most once, on its own unit |
| Starter.StarterStepAppends | starter.go:110-164 | the iteration appends its unit exactly when it succeeds |
| Starter.StarterAttemptLoaded | starter.go:119-130 | after a live poll and a successful Load, the iteration goes on to the dispatch |
| Starter.StarterAttemptExits | starter.go:111-130 | a done context, or a failing Load, ends the iteration with that error and no start call |
| Starter.StarterStepShaped | starter.go:110-164 | the iteration has the shape the loop lemmas rely on |
| Starter.StepsClear | starter.go:110-164 | after k clear iterations, exactly the first k units are loaded (if Configurable), started and appended, after one poll each, and nothing is stopped |
| Starter.LoopPrefix | starter.go:110-164 | after k clear iterations the loop continues from the state they reached |
| Starter.LoopEndsAt | starter.go:110-164 | when the k-th iteration fails after k clear ones, the loop returns its result |
| Starter.LoopNotStartableAt | starter.go:161-163 | a k-th unit with neither start interface ends the loop with NotStartable and its type name; the first k stay appended |
| Starter.LoopLoadFailsAt | starter.go:119-130 | a failing k-th Load ends the loop with that error before that unit's start |
| Starter.AllSucceed | starter.go:110-165 | when every iteration is clear, startWithContext returns nil; servicesStarted is the input list in order; the Configurables are loaded; nothing is stopped |
| Starter.RollbackShape | starter.go:87-103 | the rollback keeps the loop's error. After success it changes nothing. After an error it stops every appended unit from last to first, calls nothing else and empties the list |
| Starter.RollbackDrains | starter.go:87-103 | on any error startWithContext returns it with servicesStarted empty, every unit appended before the failure stopped from last to first, whatever Stop answered |
| Starter.RolledBackNotStartableAt | starter.go:161-163 | NotStartable at unit k: the first k units are stopped from last to first and forgotten |
| Starter.RolledBackLoadFailsAt | starter.go:119-130 | a Load failure at unit k: that error is returned, the unit is not started, and the first k are rolled back |
| Starter.NotStartableAt | starter.go:161-163 | startWithContext returns NotStartable for a unit with neither interface; the earlier units were started, then rolled back in reverse |
| Starter.LoadFailsAt | starter.go:119-130 | startWithContext returns a Load error without starting that unit; the earlier units were rolled back in reverse |
| Starter.StopShape | starter.go:170-216 | with a context, Stop cancels it, then reports BeforeStop(nil) first and AfterStop(nil, nil) last. In between is the halting teardown: a prefix stays, empty exactly when every Stop succeeded, and the error is the first failing Stop's |
| Starter.StopKeepsFailingUnit | starter.go:201-214 | one started unit whose Stop fails: Stop returns that error and the unit stays in servicesStarted |
| Starter.Starter.constructor | starter.go:37-43 | the services to start, nothing started, no context, no reporter, no starting channel |
| Starter.Starter.WithReporter | starter.go:239-242 | sets the reporter and nothing else |
| Starter.Starter.WithStartingChannel | starter.go:246-249 | sets the starting channel and nothing else |
| Starter.Starter.Start | starter.go:49-54 | stores a context, then runs startWithContext; the result is that of `StartServices` |
| Starter.Starter.StartWithContext | starter.go:60-166 | the loop, then the deferred rollback; the given starting channel is closed and forgotten; the result is that of `StartServices` |
| Starter.Starter.StartEach | starter.go:110-164 | the loop's result and the new servicesStarted are those of the loop specification |
| Starter.Starter.StartIteration | starter.go:111-163 | one iteration is the specified poll, Load, dispatch sequence |
| Starter.Starter.StartOne | starter.go:132-163 | the start of one unit is the specified priority dispatch |
| Starter.Starter.Rollback | starter.go:87-103 | servicesStarted becomes empty; every unit is stopped from last to first |
| Starter.Starter.Stop | starter.go:170-216 | without a context it returns nil and changes nothing. Otherwise it is the specified teardown, and afterwards no context is stored, so a second Stop is a no-op |
| Runner.CheckError | runner.go:153-166 | a clear check gives nil; a done caller context gives ctx.Err(); a signal gives ErrStartCancelledBySignal |
| Runner.ErrorsByIndex | runner.go:253-264 | errMulti has one entry per server |
| Runner.ErrorsByIndexAt | runner.go:253-264 | an entry of errMulti is non-nil exactly when some failing Listen names that index, and it then holds the last such error |
| Runner.CollectErrors | runner.go:253-264 | the first pair received, then the buffered rest, written at their indices |
| Runner.Messages | runner.go:24-33 | one message per error, each at its index |
| Runner.CommaAt | runner.go:24-33 | the first comma of a message, or its end |
| Runner.JoinedCons | runner.go:24-33 | the join is the first message, then ", " and the join of the rest |
| Runner.JoinedStartsWithFirst | runner.go:24-33 | no leading separator: the joined string begins with the first message |
| Runner.JoinedLength | runner.go:24-33 | exactly one ", " is added for each message after the first: n-1 separators |
| Runner.SplitJoined | runner.go:24-33 | round trip: when no message holds a comma, splitting the joined string at its separators gives back the messages, in index order |
| Runner.ErrorString | runner.go:24-33 | MultiErrors.Error builds exactly the separator join of the messages, in index order |
| Runner.RunCallsKeeps | runner.go:151-211 | one iteration stops and closes nothing, and calls Start at most on its own unit, only for a Resource |
| Runner.CancelIgnoredWithServer | runner.go:153-196 | once a server is recorded, the checks no longer end an iteration; its only errors are its own Load's and Start's |
| Runner.RunStepShaped | runner.go:151-232 | the iteration checks, Loads a Configurable, checks again, then Starts a Resource |
| Runner.RunLoopAdvance | runner.go:151-232 | one iteration of the loop: its error ends Run's loop with the state unchanged but the log; otherwise a started Resource is appended, a Server is recorded, and the loop goes on |
| Runner.StartReached | runner.go:202-211 | with no server, clear checks and a successful Load, a Resource iteration returns its Start's answer after one Start call, stops and closes nothing, and on an error keeps the resources |
| Runner.LoadFailReached | runner.go:169-180 | with no server and a clear check, a failing Load is the iteration's error; nothing is started, stopped or appended |
| Runner.CheckFailReached | runner.go:153-166 | with no server, a first check that is not clear is the iteration's error; nothing is started, stopped or appended |
| Runner.SecondCheckFailReached | runner.go:183-196 | with no server, after a clear check and a successful Load, a second check that is not clear is the iteration's error; nothing is started |
| Runner.RunStepsClear | runner.go:151-211 | after k clear iterations, exactly the first k resources are loaded (if Configurable), started and appended in order, with nothing stopped or closed |
| Runner.RunLoopPrefix | runner.go:151-232 | after k clear iterations the loop continues from the state they reached |
| Runner.RunLoopEndsAt | runner.go:151-232 | when the k-th iteration fails after k clear ones, the loop returns its result |
| Runner.RunLoopKeeps | runner.go:151-232 | the loop stops and closes nothing, and only appends to the resources and the servers |
| Runner.CloseAllShape | runner.go:83-90 | stopServers closes every server once, first to last, and calls nothing else |
| Runner.AfterLoopServers | runner.go:249-268 | with servers launched and no error from the loop, Run's result is the blocking phase's: errMulti with one entry per server when a Listen fails, nil on a signal, the context's error when it ends; every server is closed and the resources are kept |
| Runner.AfterLoopShape | runner.go:236-268 | Run returns the loop's error, else the last check's, nil without servers; every recorded server is closed in launch order on every way out; the resources started are kept |
| Runner.RunNeverStops | runner.go:111-270 | no rollback: Run never calls Stop, and resourceServices only gains units |
| Runner.RunAllResources | runner.go:151-251 | with only resources and clear checks, Run starts them in declaration order; resourceServices gains exactly those units in that order; the result is nil; nothing is stopped or closed |
| Runner.RunStartFailsAt | runner.go:202-211 | if the k-th Start fails, Run returns that error; no later unit is started; the first k stay in resourceServices |
| Runner.RunLoadFailsAt | runner.go:169-180 | a failing Load of the k-th unit is returned before its Start is called |
| Runner.RunCancelledBeforeLoadAt | runner.go:153-166 | a check before the k-th Load that finds the context done or a signal returns ctx.Err() or ErrStartCancelledBySignal; nothing further is started |
| Runner.RunCancelledAfterLoadAt | runner.go:183-196 | the same for the check after the Load; that unit is not started |
| Runner.StopServers | runner.go:83-90 | closes the servers as `CloseAll` specifies |
| Runner.Runner.constructor | runner.go:72-81 | no resources, a reporter exactly when one is given |
| Runner.Runner.WithReporter | runner.go:298-301 | sets the reporter and nothing else |
| Runner.Runner.Run | runner.go:111-270 | the result and the new resourceServices are those of `RunServices` |
| Runner.Runner.RunEach | runner.go:151-232 | the loop's result, the recorded servers and resourceServices are those of the loop specification |
| Runner.Runner.RunIteration | runner.go:153-231 | one iteration is the specified check, Load, check, BeforeStart, Start sequence |
| Runner.Runner.Finish | runner.go:274-295 | the halting reverse teardown of resourceServices, then the cancel. It returns nil exactly when it drained the list. On an empty list it returns nil and changes nothing, so a second Finish after a drain is a no-op |
| Retrier.ServiceRetrier.Name | retrier.go:79-81 | the wrapped service's name |
| Retrier.ServiceRetrier.Stop | retrier.go:88-90 | one Stop call on the wrapped service, its answer returned unchanged |
| Retrier.ServiceRetrier.StartWithContext | retrier.go:93-142 | the loop's answer and log are those of `Retry` |
| Retrier.ServiceRetrier.StartOnce | retrier.go:114-134 | one call of the wrapped start: StartWithContext if the service has it, else Start |
| Retrier.RetrierBuilder.constructor | retrier.go:27-31 | defaults: three tries, no timeout, no wait, no reporter |
| Retrier.RetrierBuilder.Tries | retrier.go:55-58 | sets tries only, and returns the same builder |
| Retrier.RetrierBuilder.Timeout | retrier.go:61-64 | sets timeout only, and returns the same builder |
| Retrier.RetrierBuilder.WaitBetweenTries | retrier.go:67-70 | sets waitBetweenTries only, and returns the same builder |
| Retrier.RetrierBuilder.Reporter | retrier.go:73-76 | sets the reporter only, and returns the same builder |
| Retrier.RetrierBuilder.Build | retrier.go:34-52 | a retrier with the builder's settings around the service, Configurable exactly when the service is |
| Retrier.RoundAllowed | retrier.go:100-137 | one attempt records only the events the retrier may record, BeforeRetry with its own number when that is not 0 |
| Retrier.ContinuesWithoutGiveUp | retrier.go:100-137 | AfterGiveUp is reported only on the way out: an attempt that goes on to the next one only appends to the trace, and adds no AfterGiveUp |
| Retrier.QuietRounds | retrier.go:99-137 | m attempts that find the context live and whose calls fail all go on, making one call each (if the service can be started at all), and report no AfterGiveUp |
| Retrier.AttemptsSplit | retrier.go:99 | the loop after m attempts is the loop from attempt m, unless one of them returned |
| Retrier.AttemptsAllowed | retrier.go:99-137 | the loop records only allowed events |
| Retrier.AttemptsCalls | retrier.go:99-137 | the loop calls only the wrapped service, at most once per attempt |
| Retrier.RetryCallsBounded | retrier.go:99 | the wrapped start is called at most `tries` times when tries is not -1, and the retrier then always returns; with -1 it stops only within the horizon |
| Retrier.RetryEvents | retrier.go:100-137 | only calls of the wrapped start, sleeps, the timeout's cancel, and (with a reporter) notifications about the wrapped service are recorded; BeforeRetry is reported only for i > 0, with count i |
| Retrier.RoundSucceeds | retrier.go:114-130 | a live context and a successful call make the attempt return nil after that one call |
| Retrier.RoundCancelled | retrier.go:100-108 | a done context makes attempt i return ctx.Err() without a call, reported with AfterGiveUp(i) |
| Retrier.RoundGivesUp | retrier.go:119-125 | a failed StartWithContext with the context done gives up at once, reported with AfterGiveUp(i) |
| Retrier.SucceedsAt | retrier.go:114-130 | if the first success is attempt j, StartWithContext returns nil after exactly j+1 calls of the wrapped start |
| Retrier.ExhaustsAfterTries | retrier.go:139-141 | with every call failing and no cancellation, the result is ErrExhaustedAttempts after exactly `tries` calls, reported with AfterGiveUp(tries) when a reporter is set, and only then: AfterGiveUp appears once in the new part of the trace, as its last notification (before the timeout's cancel), and never without a reporter |
| Retrier.UnboundedKeepsRetrying | retrier.go:99 | with tries == -1 the retrier never gives up by itself: after any number of failed attempts it is still retrying |
| Retrier.CancelledBeforeAttempt | retrier.go:100-108 | a context found done before attempt i gives ctx.Err() after i calls, reported with AfterGiveUp(i) |
| Retrier.CancelledDuringStart | retrier.go:119-125 | a context-aware failure while the context is done gives ctx.Err() after i+1 calls, reported with AfterGiveUp(i) |
| Retrier.GivesUpFrom | retrier.go:119-125 | attempt i giving up ends the loop with the context's error |
| Retrier.ExhaustedWithoutReporterPanics | retrier.go:139-141 | as written, exhausting the attempts without a reporter calls AfterGiveUp on a nil reporter, which panics; the corrected retrier returns ErrExhaustedAttempts |
| Retrier.AsWrittenAgrees | retrier.go:99-141 | with a reporter, or when the loop returns early, the code as written and the corrected code agree |

## Left out

- Concurrency: the Listen goroutines, the WaitGroups and the `errs` channel of `Runner.Run`, and server_starter.go. How the blocking phase of Run ends is an input (`Wake`): some Listen failed, a signal arrived, or the context ended. The model does not wait for the Listen calls to finish.
- Signal listeners: `startListener` in manager.go, the goroutine and `ListenSignals` in starter.go, and the signal listener in `Runner.Run`. A signal is one possible answer of the `select` oracle.
- Mutexes: the model has a single sequential caller.
- Panics and `recover`: the deferred recover-and-re-panic blocks in starter.go, manager.go and resource_starter.go are modelled on their error path only. The model has no notion of a unit that panics, so it does not capture that starter.go:105 re-panics with `err` rather than the recovered value.
- Time: a timeout is the context-done oracle, and its deferred cancel is the `CancelCalled` event; sleeping between tries is the `Slept` event. Durations are integers, compared with 0 as the source does.
- Retrier.ServiceRetrier.StartWithContext: with `tries == -1` the Go loop has no bound. The model runs at most `horizon` attempts and then answers `OutOfTries`, meaning that it is still retrying.
- ResourceStarter.ResourceStarter.Stop: the wait on `listenCh` (resource_starter.go:132-137) is not modelled. The field (resource_starter.go:13) is never assigned in the file, so it is always nil and that branch never runs.
- Local cancels: the cancel of the context Stop derives for itself in Manager.Stop (manager.go:153-157) and ResourceStarter.Stop (resource_starter.go:145-149), and the `ctxSignal` cancel in Run (runner.go:120-121), are not recorded as `CancelCalled`. Only the stored cancel functions, Finish's cancel and the retrier's timeout cancel are.
- Starter.Starter.Stop: the wait for the starting process to finish (starter.go:200) is not modelled. With a single sequential caller, starting has always finished.
- Starter.Starter.StartWithContext: whether a starting channel was given is kept as a flag, and its closing is not recorded as an event.
- Runner.ErrorString: requires every entry to be non-nil. The Go code would call `.Error()` on a nil entry, yet errMulti holds nils at the indices of servers that did not fail.
- Runner.ErrorsByIndex: an index outside the server count is ignored. In the source every index is a server's own position, so this never happens.
- Retrier.RetrierBuilder.Build: the Configurable wrapper delegates Load to the wrapped service. The model keeps only the fact that the result is Configurable exactly when the service is.
- Integer widths: counts and durations are unbounded integers. Nothing in the core depends on overflow.
- bootstrap.go, examples/example1/main.go and the interface-only files (service.go, configurable.go, reporter.go, errors.go) are not part of this model. Their types appear as the abstract `Unit` (with its capabilities) and the `Error` values.

## Findings

| source | as written | input that shows it | evidently intended | confidence | as-written member | corrected member |
|---|---|---|---|---|---|---|
| retrier.go:140 | after the last failed attempt, `AfterGiveUp` is called on the reporter without checking it for nil | a retrier built without a reporter whose every attempt fails (retrier_test.go:41-52 expects ErrExhaustedAttempts here) | return ErrExhaustedAttempts, reporting AfterGiveUp only when a reporter is set, as every other reporter call in the loop does | not executed | Retrier.ExhaustedWithoutReporterPanics | Retrier.ExhaustsAfterTries |
