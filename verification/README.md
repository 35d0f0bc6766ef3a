# TriggerLink, modelled in Dafny

TriggerLink is a durable execution engine. An application's handler is run again from
the top on every callback; steps it has completed are answered from a memo table; the
platform moves a run forward through a leased queue, wait records and retries. This
project models that engine and proves what it promises about runs, events and time.

`dafny verify dfyconfig.toml` checks the whole project.

## How the model is laid out

The replay core comes first. A handler is a total function from its input and the
outputs of the steps it has completed to its next action, which is the determinism rule
of the protocol. `Sdk` has the execution context and one callback, `StepKeys` the keys.

The run protocol is a state machine (`RunMachine`) for one run: its row, its step rows in
seq order, its waits and its queue items, a program counter for every dispatch goroutine
and one for the runner. Each step is one store call or transaction, or the callback
itself, so a sequence of steps is any interleaving of executor goroutines, runner,
timeout scan, API cancel and platform restarts. `RunSafety` proves what every history
keeps, restarts included; `RunProgress` what crash-free histories keep; `RunRestart` what
a restart does: when it can lead to two callbacks at once, and when the run is taken up
again at all; `RestartMemos` when a restart can cut a sleep short or let a memo be written
again, and that sleeps and memos are safe in all other histories. `RunOrigins` traces every
memo, item, wait and end of a run to what was said in its history, and `DispatchEffects`
says in columns what one dispatch does.
`RunStore`, `Executor`, `WaitRunner` and `RunEnding` are the store, `dispatch`, the wait
loops and the cancelOn and timeout loops as they are written, as classes that write to
tables; `Executor` and `WaitRunner` are proved to take paths of that machine, and the
path of a dispatch is shown to be the only one. `Polling` is the poll round with its
limit per function.

Tables are grouped by run, so that the world is a product of per-run machines. A runner
program counter per run allows more interleavings than the single runner goroutine has.

Flow control (`Throttle`, `Batching`, `Debounce`), `Routing`, the function registry and
its persisted form (`FunctionRegistry`), run lists and their cursors (`Timestamps`,
`RunPages`), the cron scheduler (`CronScheduler`), retry delays (`Backoff`) and the agent
loop of the TypeScript SDK (`MessageShape`, `Agent`) each have a module of their own. The
agent is also given as a handler of the replay core, so that what holds for handlers
holds for agents.

## What is assumed

- SHA-256, and the 12 or 8 bytes of it that make a run id or an event id, is injective; the
  text of a digest is some colon-free text of its own. JSON values are kept
  in decoded form; a null output of a Go step is excluded, since it is omitted on the wire
  and cannot be decoded on replay.
- Match, cancel and key expressions, cron expressions, models, tools, the redact hook and
  the history hook are arbitrary total functions. A cron schedule is due at whole seconds
  and always has a next instant.
- Limits, batch sizes, periods and timeouts of flow control are positive, which decoding
  enforces (internal/registry/flowcontrol.go:65-160).
- Store calls succeed. Clock readings, new ids and transport outcomes are parameters; new
  queue item ids are unused.
- One process leases an item once: expired leases are requeued at start-up only, which is
  the restart step of the machine.
- An instant in `Timestamps` is its UTC calendar fields, compared field by field.

## Where code and documentation differ

- The comment on pruning throttle rows says a row older than 24 hours has expired. That
  holds up to a period of 24 hours and a nanosecond (`Throttle.PruningInvisibleIff`).
- The comment on the scheduler's first check says that an expression due at that very
  instant fires. The next instant is strictly later, so nothing does
  (`CronScheduler.Scheduler.Check`, `CronScheduler.DueAtFirstCheck`).
- The comment on retry delays says that they are capped at 30 seconds. The shift can
  overflow to a negative delay or to none (`Backoff.DelayDocumentedIff`,
  `Backoff.DefaultDelays`).
- The user guide says that after a restart a run waits at most 30 seconds for its lease.
  Leases are looked at when the platform starts and never later, so a run is taken up
  again only if its lease had expired by then (`RunRestart.RestartResumesIff`).
- The comment at internal/executor/executor.go:334-335 says that a run goes on waiting
  after a restart because its queue item is stored. A restart between saving the sleep and
  removing the item requeues the item of the dispatch instead, if its lease has expired by
  then, and the run can be woken before its time (`RestartMemos.RestartCutsSleepIff`, `RestartMemos.SleepCutAfterRestart`).
- Replay is safe across restarts in the sense of `RunSafety.ReplayRefinesDirect` except
  between creating a wait and removing the queue item (`RunRestart`). Histories with a
  restart in that window are excluded by the condition `Tame` and treated there. Two further
  windows do not endanger the result of a run: the one just named for sleeps, and the one
  between saving the outcome of a wait and settling the wait, in which a restart lets
  another outcome take its place before any callback has seen the first
  (`RestartMemos.RestartForgetsIff`).

## Model

| member | source | states |
|---|---|---|
| `StepKeys.Itoa` | sdk/internal/execx/execx.go:61-70 | The decimal counter is not empty and has no colon. |
| `StepKeys.KeyInjective` | sdk/internal/execx/execx.go:61-70 | Within a function a memo key determines the step id and its occurrence number, whatever characters the step id has. |
| `StepKeys.RunIdsApartIff` | internal/runner/runner.go:468-473 | Derived run ids tell (event, function) pairs apart for all events if and only if no function id ends in a colon and another function id. |
| `StepKeys.DerivedRunIdInjective` | internal/runner/runner.go:468-473 | For such function ids equal run ids mean the same event and the same function. |
| `StepKeys.ColonFreeApart` | internal/runner/runner.go:468-473 | Function ids without colons meet that condition. |
| `Sdk.ExecCtx.NextHash` | sdk/internal/execx/execx.go:54-73 | The n-th use of a step id in an invocation gets the key of occurrence n; the counters of other step ids do not move. |
| `Sdk.HandleExec` | sdk/serve.go:122-174 | One callback answers the first step calls from completed memos and leaves at the first call without one, or at the return or error that follows the answered calls; the opcode reports exactly that point, with the outcome of the one step body that was run. |
| `Sdk.KeysDiffer` | sdk/internal/execx/execx.go:61-70 | Two different step calls of one invocation never have the same key. |
| `Sdk.StopsUnique` | docs/protocol.md:281-296 | Any two invocations on the same memos answer the same calls with the same outputs and stop at the same point. |
| `Sdk.UsesUpMemos` | sdk/step/step.go:19-41 | Answered calls use up distinct memos, so a callback answers at most as many calls as there are memos. |
| `RunStore.Store.MarkRunRunning` | internal/store/store.go:349-358 | A run becomes Running unless it is terminal, and the caller learns which. |
| `RunStore.Store.CompleteRun` | internal/store/store.go:362-367 | Output, status and end time are written together, and only while the run is queued or running. |
| `RunStore.Store.FailRun` | internal/store/store.go:370-375 | Error, status and end time are written together, and only while the run is queued or running. |
| `RunStore.Store.CancelRun` | internal/store/store.go:380-403 | A live run ends as Cancelled and loses exactly its pending queue items; a leased one stays; output, error, attempt, steps and waits are as they were; a terminal run is untouched. |
| `RunStore.Store.TimeoutRun` | internal/store/store.go:408-431 | The same with status Failed and the given error; output, attempt, steps and waits are as they were, and exactly the leased items stay. |
| `RunStore.Store.IncrementRunAttempt` | internal/store/store.go:434-441 | The counter goes up by one and its new value is returned. |
| `RunStore.Store.SaveStepResult` | internal/store/store.go:485-498 | The row of a key keeps its place in seq order when it is overwritten and its attempt is counted; a new key is appended. |
| `RunStore.Store.CompleteSleepingSteps` | internal/store/store.go:502-507 | Every sleeping row, and no other, becomes completed. |
| `RunStore.Store.CreateWait` | internal/store/store.go:511-522 | A second wait for the same run and step changes nothing. |
| `RunStore.Store.SetWaitStatus` | internal/store/store.go:568-571 | Only the status of the one wait changes. |
| `RunStore.Store.CancelWaitsForRun` | internal/store/store.go:574-582 | Exactly the waiting waits of the run become cancelled. |
| `RunStore.Store.ReleaseLease` | internal/store/store.go:652-657 | A leased item is pending again, at the given time. |
| `RunStore.UpsertSaves` | internal/store/store.go:485-498 | In columns: the row of the key, at its old place or at the end, gets the status, output, error and instant that were written; an old row keeps its step id and op and counts the attempt; every other row is as it was. |
| `RunStore.Store.StepResults` | internal/executor/executor.go:267-272 | The memos handed to a callback are the completed rows of the run, by key. |
| `RunStore.Upsert` | internal/store/store.go:485-498 | Writing a step result replaces the row of its key in place or appends one; all other rows stay. |
| `RunSafety.StepInv` | internal/executor/executor.go:171-358 | Every step of every actor, tame restarts included, keeps the invariant: at most one place to go on from, rows in program order, memos of settled waits completed, a completed run carrying its handler's result. |
| `RunSafety.ReplayRefinesDirect` | internal/executor/executor.go:238-358 | Under any interleaving of dispatches, failures, cancels, timeouts and restarts, a completed run has the output of one uninterrupted execution over the committed outputs, and its rows in seq order are that execution's step calls with their keys, in program order and all completed. |
| `RunSafety.OneCallbackInFlight` | internal/executor/executor.go:44-87 | One platform process never has two callbacks of one run in flight together, restarts outside the wait window included. |
| `RunSafety.SettledWaitHasMemo` | internal/runner/runner.go:365-376 | A wait that is resolved or timed out has a completed memo that is the matched event or null, so it is there before the resume item exists. |
| `RunSafety.TerminalAbsorbs` | internal/store/store.go:349-431 | Once a run is terminal no sequence of steps of any actor changes its status, output, error or end time. |
| `RunSafety.RunEndsOnce` | internal/store/store.go:349-431 | In every reachable state a run has an end time if and only if it is terminal. |
| `RunProgress.OneContinuation` | internal/executor/executor.go:315-358 | In every crash-free interleaving a live run has exactly one place to go on from: a pending item, a dispatch, a waiting wait, or an enqueue under way. |
| `RunProgress.CallbackBound` | internal/executor/executor.go:215-225 | In crash-free histories a run of a handler with at most N steps makes at most N + maxAttempts callbacks, of which at most maxAttempts fail. |
| `RunProgress.GivesUpLate` | internal/executor/executor.go:477-488 | In crash-free histories a run is given up for its attempts only after at least maxAttempts callbacks. |
| `RunProgress.WaitSettlesOnce` | internal/runner/runner.go:346-413 | From the point where a wait has left `waiting` it never changes again, across restarts too. |
| `RunProgress.OneResumePerWait` | internal/runner/runner.go:365-376 | In crash-free histories the number of waits resolved or timed out is the number of resume items enqueued, plus the one under way. |
| `RunRestart.RestartKeepsOneIff` | internal/executor/executor.go:431-441 | A restart leaves at most one place to go on from if and only if no dispatch was between creating its wait and removing its item, or one was and nothing else of the run survives. |
| `RunRestart.TwoCallbacksAfterRestart` | internal/executor/executor.go:431-441 | A restart in that window, followed by a matching event, reaches two callbacks of one run in flight. |
| `RestartMemos.SleepNotCutShort` | internal/executor/executor.go:329-342 | In every history whose restarts requeue no item that is due before a sleep of the run is over, a sleeping memo becomes completed only in a dispatch whose item was leased at or after the instant the sleep asked for. |
| `RestartMemos.RestartRushesIff` | internal/executor/executor.go:329-342 | After any such history, a restart lets a sleep be cut short if and only if the run is live and an item is requeued that is due before the sleep is over. |
| `RestartMemos.RestartCutsSleepIff` | internal/executor/executor.go:329-342 | For a first restart: if and only if it falls between saving a sleep and removing the item of that dispatch, which is requeued and due before the sleep is over, and the run is live. |
| `RestartMemos.SleepCutAfterRestart` | internal/executor/executor.go:329-342 | A concrete history: a sleep until 100 is saved, the platform restarts, and the run is woken in a dispatch leased at 0. |
| `RestartMemos.MemosMoveForward` | internal/store/store.go:485-507 | In every history none of whose restarts is forgetful (see the next row) a completed memo keeps its status and output at every later point: it is committed once. |
| `RestartMemos.RestartForgetsIff` | internal/runner/runner.go:365-376 | A restart lets a completed memo be changed if and only if it falls between saving the outcome of a wait and settling the wait, the run is live, and the wait could still have another outcome (another matching event, or its timeout). |
| `RestartMemos.MemoChangedAfterRestart` | internal/runner/runner.go:365-376 | A concrete history: the memo of a wait is saved with one event, the platform restarts, and another event of that name takes its place. |
| `ProgramOrder.MemosStop` | internal/executor/executor.go:267-272 | The completed rows of an ordered history answer exactly the finished calls and stop before the next one. |
| `ProgramOrder.AnswerReports` | internal/executor/executor.go:267-303 | Any answer to those memos is about the action after the finished calls. |
| `ProgramOrder.CommitNext` | internal/store/store.go:485-498 | Writing the result of the next call keeps the rows in program order. |
| `RunRestart.RestartResumesIff` | internal/executor/executor.go:44-51 | A run whose dispatch a restart cuts short is taken up again without another restart if and only if its item was not between removal and re-enqueue and its lease has expired when the platform starts. |
| `RunRestart.RestartStrandsEnqueue` | internal/runner/runner.go:109-138 | A restart between creating a run, or settling its wait, and enqueueing its item leaves the run with nothing that could ever take it up. |
| `StepKeys.DerivedEventIdInjective` | internal/executor/executor.go:408-411 | Derived event ids tell runs, steps and positions apart. |
| `RunOrigins.StepOutputReturned` | internal/executor/executor.go:316-322 | In every history the memo of a completed step holds what its body returned: some callback was answered with just that output under that key and step id. |
| `RunOrigins.MemosAreAnswers` | internal/executor/executor.go:315-358 | In every history every step row is what was said about it: the output or error of a body, the instant of a sleep, the ids of the events sent, and for a wait an event that was seen for it or null once it was seen to have expired. |
| `RunOrigins.RowsFitCalls` | internal/executor/executor.go:315-358 | In every history row i has the step id and the kind of the handler's i-th call, and the memo of a SendEvent step the ids of the very events the handler sends. |
| `RunOrigins.WaitExpires` | internal/executor/executor.go:416-443 | In every history each wait was opened for a WaitForEvent call of the handler, with its event, pattern and timeout; while it waits the clock can expire it at t if and only if it has a timeout d and t is later than the opening plus d. |
| `WaitRunner.ExpiredIff` | internal/store/store.go:530-546 | A waiting wait opened at an instant is listed as expired at t if and only if it has a timeout that has passed by then. |
| `RunOrigins.ItemsAreAsked` | internal/store/store.go:612-660 | In every history a queue item is due when whoever put it there said: a first enqueue, a resume, a next hop, the end of a sleep, or a put-back. |
| `RunOrigins.EndsAreCaused` | internal/store/store.go:349-431 | In every history a completed run has the output and time of a RunComplete answer, a failed one the error and time of its timeout or of its last attempt, a cancelled one the time of a cancel; a run that has not ended has none of them. |
| `RunOrigins.ThrottledRunsWait` | internal/executor/executor.go:190-213 | No attempt of a throttled run counts before the throttle has granted it a slot. |
| `Polling.Poller.Round` | internal/executor/executor.go:67-85 | Of every function the first leased items start, in order, until it has `Concurrency` dispatches in flight; exactly the others are put back. |
| `Polling.Poller.Take` | internal/executor/executor.go:72-80 | An item starts if and only if its function is below the limit, and is counted. |
| `Polling.Poller.Done` | internal/executor/executor.go:81-84 | The end of a dispatch is counted off, and no function exceeds the limit. |
| `Executor.Dispatcher.Dispatch` | internal/executor/executor.go:171-243 | A whole dispatch takes the path of the run machine that its surroundings dictate (registration, throttle decision, transport outcome, how the step body ends, clock, new id) and leaves the store in the state at its end, with nothing of it in flight. In columns: a completed step has the output of its body in its memo, a failed one its error; a sleep, a fan-out, a wait with its expiry, a result or an error is written as answered; and the queue item goes, is put back, or is replaced by the next hop at the right time. |
| `Executor.DispatchDetermined` | internal/executor/executor.go:171-358 | Two ends of a dispatch from the same state in the same surroundings are the same state: the contract of Dispatch leaves its body no choice. |
| `Executor.Dispatcher.Callback` | internal/executor/executor.go:245-313 | From request to opcode switch: the application is called with the completed memos, and a run that ended meanwhile is left alone. |
| `Executor.Dispatcher.HandleSendEvent` | internal/executor/executor.go:364-400 | The fan-out ends in a memo with the event ids, each the given one or derived from run, step and position, and one next hop; or, without events or with a nameless one, in a failed attempt. |
| `Executor.Dispatcher.HandleWaitForEvent` | internal/executor/executor.go:416-443 | The memo, the wait and the end of the queue item are written in that order and nothing is enqueued, or the attempt fails. The wait expires when the timeout has passed since the clock reading, or never. |
| `Executor.Dispatcher.RetryOrFail` | internal/executor/executor.go:477-488 | Below maxAttempts the item is put back for later and the run is as it was; from there on the run fails with the message and the item goes. |
| `Executor.FanOut` | internal/executor/executor.go:364-411 | Each event keeps the id it has, and one without gets the id derived from run, step and position; an event without a name is reported, and only then. |
| `WaitRunner.Runner.ResumeWaits` | internal/runner/runner.go:346-378 | Every wait that waits for the event's name is resolved with its memo and a resume item, cancelled if its run is over, or left alone if it does not match, by the steps each run's machine takes for that event and no others. |
| `WaitRunner.Runner.ScanWaitTimeouts` | internal/runner/runner.go:383-413 | Every expired wait is timed out with a null memo and a resume item, or cancelled if its run is over, by the steps each run's machine takes for the clock and no others. |
| `RunEnding.RunEnder.ApplyCancelOn` | internal/runner/runner.go:417-439 | Exactly the live runs that a cancelOn rule of their function hits are cancelled together with their waits: status and end time are set, waiting waits are cancelled, pending items go, all else stays. |
| `RunEnding.RunEnder.ScanRunTimeouts` | internal/executor/executor.go:448-475 | Exactly the live runs older than a positive timeout of their function are failed with the error of that timeout, at that time, and lose exactly their pending items; all else stays. |
| `RunEnding.RunEnder.CancelMatchHit` | internal/runner/runner.go:442-449 | True if and only if some rule of the event's name matches. |
| `RunEnding.CancelPath` | internal/runner/runner.go:428-434 | Cancelling a live run by a rule is a path of its machine. |
| `RunEnding.TimeoutPath` | internal/store/store.go:408-431 | Failing a run by timeout is a step of its machine. |
| `Backoff.DelayDocumentedIff` | internal/executor/executor.go:526-532 | The retry delay is the base doubled per attempt and capped, as documented, if and only if the product does not overflow 63 bits, or its low 64 bits read as a positive number that is at least the cap. |
| `Backoff.DefaultDelays` | internal/executor/executor.go:526-532 | With the default base the delay is the documented one if and only if the attempt is at most 33 or one of 37, 41, 42, 45, 47, 50, 51, 53. |
| `Backoff.UndelayedRetries` | internal/executor/executor.go:526-532 | With the default base the delay of attempt 34 is negative and from attempt 55 on it is zero. |
| `Throttle.ThrottleTable.ReserveThrottleSlot` | internal/store/store.go:863-905 | The decision and the key's new window follow from the old window alone, and no other key is touched. |
| `Throttle.ThrottleBound` | internal/store/store.go:863-905 | For calls at nondecreasing times any half-open interval of k periods holds at most (k + 1) * limit grants. |
| `Throttle.WindowsDisjoint` | internal/store/store.go:888-899 | A grant counts within the limit of the open window, or opens one that starts at least a period after the old one. |
| `Throttle.DenialRetrySucceeds` | internal/executor/executor.go:190-206 | A denial names a strictly later time at which a retry, with no call in between, is granted; at any time before it is denied again. |
| `Throttle.DeniedOnlyWhenFull` | internal/store/store.go:863-905 | The throttle denies only a key that has had the limit of grants, or more, since some instant less than a period ago. |
| `Throttle.PruningInvisibleIff` | internal/janitor/janitor.go:22-25 | Pruning rows older than an age changes no decision of any history if and only if the period is at most one nanosecond longer than the age. |
| `Throttle.ThrottleTable.DeleteThrottleStateBefore` | internal/store/store.go:909-917 | Exactly the windows that start before the cutoff disappear. |
| `Batching.BatchTables.AppendBatchEntry` | internal/store/store.go:728-762 | Conservation holds after an append: the entry goes behind all others with a larger seq, and the window opens if it was not open. |
| `Batching.BatchTables.FlushBatch` | internal/store/store.go:816-853 | Conservation holds after a flush: what was read becomes a run, what came later stays, and the window keeps the earliest remaining time or closes. |
| `Batching.AllFlushKeeps` | internal/store/store.go:816-853 | For every (function, key): flushed batches in order followed by the remaining entries are the appended events, and the window is open exactly if entries remain, with their earliest time. |
| `Batching.AllAppendKeeps` | internal/store/store.go:728-762 | The same after an append. |
| `Batching.BatchRouter.FlushOne` | internal/runner/runner.go:199-246 | A flush emits the first MaxSize entries at most, none if there are none; arrivals between the read and the flush stay, behind the ones left over. |
| `Batching.BatchRouter.RouteBatched` | internal/runner/runner.go:155-168 | An event fills a window that leaves at once as a batch of MaxSize, or waits; every batch has 1 to MaxSize events and no window stays full. |
| `Batching.BatchRouter.ScanBatchTimeouts` | internal/runner/runner.go:172-194 | After a scan no window of a configured function is overdue, overdue ones are empty and all others are as they were. |
| `Debounce.TriggerMeans` | internal/runner/runner.go:333-341 | A window triggers at the last event plus the period or the first plus the timeout, whichever is earlier, and more events never move it back. |
| `Debounce.DebounceTables.RouteDebounced` | internal/runner/runner.go:266-330 | An event joins the open window of its key, or opens one with a run of its own, or is dropped if it already had a run; snapshot and trigger time stay those of the events the window has taken. |
| `Debounce.DebounceTables.Dispatch` | internal/executor/executor.go:207-214 | A dispatch is never before the trigger time; it closes exactly the run's own window, so no later event reaches its snapshot. |
| `Debounce.DebounceTables.Defer` | internal/executor/executor.go:190-206 | A throttled dispatch leaves the window open and its run waiting. |
| `Debounce.OneLivePerSlot` | internal/runner/runner.go:266-330 | A (function, key) has at most one routed run that is not dispatched. |
| `Debounce.JoinKeeps` | internal/store/store.go:664-722 | Joining a window keeps: one run per window, its snapshot the last event, its trigger time from first and last event. |
| `Debounce.CloseKeeps` | internal/store/store.go:704-709 | Closing by run id removes the window of the run's own key and no other. |
| `Routing.Router.Route` | internal/runner/runner.go:67-141 | New runs carry the routed event and are due at its time or now, whichever is later. Over any sequence of routings each pair of event and function that passed at least once has exactly one run and one first queue item, not before the event's time; a routing that brings no new pair changes nothing. |
| `Routing.Router.CreateRun` | internal/store/store.go:300-311 | A taken id changes nothing and is reported. |
| `Routing.RunEachKept` | internal/runner/runner.go:107-125 | A run id is taken exactly if its pair has passed before. |
| `Routing.TakenExact` | internal/runner/runner.go:73-106 | The pairs of a routing are those of its unpaused subscribers whose match is empty or hits. |
| `FunctionRegistry.Registry.Register` | internal/registry/registry.go:110-124 | The function replaces one of its id, and every event still lists exactly the registered functions with that event, each once. |
| `FunctionRegistry.Registry.Sync` | internal/registry/registry.go:185-215 | The id map becomes the synced map and the event index lists exactly its functions, also when a function moves in from another app or an id is given twice. |
| `FunctionRegistry.Registry.Match` | internal/registry/registry.go:127-131 | The subscribers of an event, each once, and no one else. |
| `FunctionRegistry.Registry.Lookup` | internal/registry/registry.go:134-139 | The function of the id, if there is one. |
| `FunctionRegistry.Registry.CancelMatchers` | internal/registry/registry.go:142-155 | The functions with at least one rule for the event, each once. |
| `FunctionRegistry.SyncMapAt` | internal/registry/registry.go:185-215 | After a sync an id has the last function given for it, now of this app; or else what another app had; and nothing the app had before. |
| `FunctionRegistry.FunctionTable.ReplaceAppFunctions` | internal/store/store.go:1016-1045 | The table becomes the same synced map as the registry. |
| `FunctionRegistry.RestoreAnyOrder` | cmd/triggerlink/main.go:146-168 | Syncing the rows app by app, whatever the order of the apps and of the rows within one, rebuilds exactly the rows. |
| `FunctionRegistry.Restore` | cmd/triggerlink/main.go:146-168 | A fresh registry restored from the table holds exactly the table, with a sound index. |
| `FunctionRegistry.Introspected` | cmd/triggerlink/main.go:181-184 | Registry and table that agree still agree after an introspection result reached both. |
| `MessageShape.CheckShape` | sdk-ts/src/agent.ts:213-237 | The check accepts exactly the non-empty lists with legal roles in which every tool-result answers a call still open and no call is left open; each refusal names what is wrong. |
| `MessageShape.ShapeOkIff` | sdk-ts/src/agent.ts:213-237 | The same for the set of pending ids computed part by part. |
| `MessageShape.PendingExact` | sdk-ts/src/agent.ts:219-233 | The pending set holds exactly the ids of open calls. |
| `Agent.Run` | sdk-ts/src/agent.ts:272-380 | One callback of a handler that an agent run is part of, wherever the steps before it end: it takes memos for as long as there are any and leaves at the step without one, with the history and key that step has, or with the result or error of the agent, from where the handler goes on. |
| `Agent.AgentResumes` | sdk-ts/src/agent.ts:272-380 | From any prefix of an uninterrupted run's outputs the agent stands before the first missing step with the history that run had there, and with all of them it ends as that run did. |
| `Agent.AgentAnswers` | sdk-ts/src/step.ts:47-65 | From the memo table of a callback, whatever the application answers is the step the uninterrupted run took next, under its key, or the run's own end. |
| `Agent.LlmStepsBounded` | sdk-ts/src/agent.ts:294-308 | The model is called once per iteration, at most maxIterations times, and a result's iterations are the number of model calls. |
| `Agent.NothingUncounted` | sdk-ts/src/agent.ts:300-380 | The outputs a run is given read as rounds (a response and the outputs of its tool calls). The history at the step that is due is the prompt and all rounds, as the hook left them; input and output tokens are the sums over all responses; records are all tool executions in order; a result has the last response's text; and a run fails only for its iterations, a history that does not pair, an unknown tool or a damaged memo. Memo hits count like calls just made. |
| `Agent.ModelIsTold` | sdk-ts/src/agent.ts:300-380 | Without a hook the history at the due step is the prompt, then for each response its messages and for each of its calls in order one tool message with the call's id, its tool and what it returned, null where that is missing. |
| `Agent.IterationPairsIff` | sdk-ts/src/agent.ts:346-378 | After an iteration a well-formed history is well formed again if and only if the tool-call ids of the response are distinct. |
| `Agent.HistoriesPair` | sdk-ts/src/agent.ts:289-378 | With well-formed responses every history a model call gets, and the one returned, passes the check; only the hook can make it fail. |
| `Agent.StepIdsTellAgent` | sdk-ts/src/agent.ts:245-248 | The step ids of an agent tell its name, so agents of different slash-free names share none. |
| `Agent.StepRun` | sdk-ts/src/step.ts:47-65 | `step.run` takes the memo of the next occurrence of its id if it is completed; otherwise the invocation stops at that call, under its key. |
| `Agent.RunTools` | sdk-ts/src/agent.ts:353-378 | The tool calls of a response are taken in order, one durable step each, up to the first without a memo or an unknown tool. |
| `Timestamps.TextOrderIsTimeOrder` | internal/store/store.go:246-248 | The text order of stored timestamps is their time order (fixed width, as section 5.1 of RFC 3339 asks for). |
| `Timestamps.StoredTimeReads` | internal/store/store.go:248-250 | A time survives storing it. |
| `Timestamps.NanoTextReads` | internal/store/query.go:29-31 | The variable-width text of a time parses back to it. |
| `Timestamps.VariableWidthMisorders` | internal/store/store.go:246-248 | Variable-width texts are not in time order: a whole second sorts after each of its fractions. |
| `Timestamps.CursorReads` | internal/store/query.go:32-42 | The cursor a client makes of a run splits back into its time and id. |
| `RunPages.ClampLimit` | internal/store/query.go:22-27 | A limit from 1 to 200 is kept, any other becomes 50. |
| `RunPages.RunTable.ListRuns` | internal/store/query.go:46-82 | A page is the first rows matching the filters under the cursor, in descending order of creation time and id; a malformed cursor counts as none. |
| `RunPages.PageUnique` | internal/store/query.go:46-82 | Rows, filters, cursor and limit determine a page. |
| `RunPages.ChainDescends` | internal/store/query.go:46-82 | Pages chained by cursors are in strictly descending order together, whatever is inserted in between, so nothing is listed twice. |
| `RunPages.ChainMissesNone` | internal/store/query.go:46-82 | Followed to a page that is not full they list every matching run there was at the start. |
| `RunPages.PaginationExact` | internal/store/query.go:46-82 | If runs inserted meanwhile are later, the pages list exactly the matching runs of the start, each once, in descending order. |
| `RunPages.RunList.LoadMore` | web/src/pages/RunListPage.jsx:20-31 | A request with the cursor made of the last run shown gets the page that goes on after that run. |
| `RunPages.RunList.LoadAll` | web/src/pages/RunListPage.jsx:20-31 | Requests until a page is not full, with any inserts in between, make a chain of pages; if what is inserted is later, the list shows exactly what matched at the first request, each run once, latest first. |
| `CronScheduler.Scheduler.Check` | internal/scheduler/scheduler.go:71-103 | A check creates runs for exactly the first instant that came due for each unpaused function since the last check; the very first check of a scheduler that was not started creates no run. |
| `CronScheduler.DueAtFirstCheck` | internal/scheduler/scheduler.go:81-83 | An expression due exactly at the instant of a check fires if the last check was before that instant and does not fire if this is the very first check. |
| `CronScheduler.Scheduler.Run` | internal/scheduler/scheduler.go:42-67 | Over a start and any sequence of ticks, the runs a function gets are, in order, the instants its own schedule fires over its own sequence of checks. |
| `CronScheduler.Scheduler.Fire` | internal/scheduler/scheduler.go:123-163 | A fire later than the last check is never taken for a repetition. |
| `CronScheduler.Scheduler.ScheduleFor` | internal/scheduler/scheduler.go:106-119 | The cache never answers with the schedule of another expression. |
| `CronScheduler.FiredExact` | internal/scheduler/scheduler.go:85-101 | Over any sequence of checks, what fires is for each unpaused check the first instant due in its window. |
| `CronScheduler.FiresOnce` | internal/scheduler/scheduler.go:121-129 | For nondecreasing check times the fired instants are strictly ascending: each fires at most once. |
| `CronScheduler.AllFireIff` | internal/scheduler/scheduler.go:85-101 | Without pauses everything due after the baseline fires if and only if no window between two checks holds two due instants. |
| `CronScheduler.CloseChecksFireAll` | internal/scheduler/scheduler.go:85-101 | With checks no further apart than the smallest gap between due instants, exactly the instants due outside paused windows fire. |

## Left out

- HTTP, signing, webhooks, metrics, logs, dashboard and SQL text, schema and dialects: I/O.
- The events table, the event stream and the reconciliation scan: an event is routed any number of times, at any time.
- Events the platform emits itself: that a SendEvent step inserts its events before its memo, and the `run.failed` event, which is emitted even when failing the run changed nothing.
- SDK argument errors that are handed to the handler (SendEvent without events, WaitForEvent without a name): a handler that goes on after them is not modelled.
- The TypeScript execution context as a class of its own: it concatenates the same three parts as the Go one (sdk-ts/src/execx.ts:64-68).
- Opcode names other than the seven of the protocol, responses that do not parse beyond a failed attempt, and the text of error messages other than where it is stored.
- The score order of the queue: any pending item that is due may be leased next. Lease times other than at a restart.
- In the run machine, concurrency limits other than as the put-back of a leased item for later; `Polling` has them.
- Polling.Poller.Round: no dispatch ends within a round.
- Keys of the wait table: a wait is identified by its run and step, which the table enforces.
- A debounced run's snapshot changes while it is queued; the run machine takes the input of a run as fixed, and `Debounce` takes a dispatch as one step.
- Debounce windows left behind by a run that was cancelled or timed out before its dispatch.
- Retention: deletion of old runs, waits and events.
- Batches of a function whose configuration changes or disappears; runs made by dashboard replay of a batch.
- Batching.BatchRouter.ScanBatchTimeouts: no event arrives during the scan, since one goroutine routes events and scans in turn (internal/runner/runner.go:52-63); arrivals during a single flush are allowed in `FlushOne`.
- Negative function timeouts that are not persisted, and other losses of duration strings: settings are carried unchanged.
- Leniencies of the time parser: offsets, a comma before the fraction, single-digit hours; and collations of a database other than byte order.
- Agent.Run: two agents of one name in one function, which is refused; what the hook does to the list it was given beyond returning one; `onResponse`.
- MessageShape.CheckShape: parts without a string id, which the check skips, are plain parts here.
- CronScheduler.Scheduler.Check: clocks that go back, and expressions that are never due.
- CronScheduler.Scheduler.Run: functions that are registered or change their expression between two ticks.
- RunPages.RunList.LoadAll: the dashboard's refresh of the first page every two seconds while further pages are shown.
- RunSafety.OneCallbackInFlight: dispatches of one platform process only. A callback that the application is still executing when the platform restarts can overlap with the next one; the protocol asks applications to tolerate that (docs/protocol.md:303).
- Executor.Dispatcher.RetryOrFail: the instant of the retry is a parameter; `Backoff` has the delay.
- RunEnding.RunEnder.ApplyCancelOn: the runs of one loop see no other actor in between; interleavings are the machine's (`CancelPath`).
- Status changes of runs between two pages of a list filtered by status.
- RunProgress.OneContinuation: crash-free histories only; completing an item and then enqueueing the next, and creating a run and then enqueueing it, are not atomic.
