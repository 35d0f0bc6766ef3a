/** The run protocol as a state machine. The actors are the executor's dispatch
    goroutines, the runner, the run-timeout scan and API cancel; every step is one
    store call (or the callback itself), so any interleaving of them is a sequence
    of steps. `Crash` is a platform restart. */
module RunMachine {
  import opened StepKeys
  import opened Sdk
  import opened RunStore
  import opened Wrappers

  /** What is fixed for a run: its handler, its input and its function's settings.
      `matches` evaluates a wait's match expression. */
  datatype Config = Config(handler: Handler, functionId: string, runId: RunId, input: Input,
                           throttled: bool, maxAttempts: nat,
                           matches: (string, Event, Input) -> bool)

  /** A response of the application: a failed callback or an opcode. */
  datatype Response = NoAnswer(msg: string) | Answer(op: Opcode)

  /** Where a dispatch goroutine is: the store call it makes next. */
  datatype Pc =
    | Start                                         // GetRun, registry lookup
    | Gate                                          // ReserveThrottleSlot
    | Bump                                          // IncrementRunAttempt
    | Mark(attempt: nat)                            // MarkRunRunning
    | Wake(attempt: nat)                            // CompleteSleepingSteps
    | Load(attempt: nat)                            // StepResults, then the callback is sent
    | Calling(attempt: nat, memos: Memos)           // callback in flight
    | Recheck(attempt: nat, op: Opcode)             // GetRun again
    | Apply(attempt: nat, op: Opcode)               // the opcode's own write
    | OpenWait(key: Hash, wait: Wait)               // CreateWait
    | Drop(until: Option<Time>)                     // CompleteQueueItem, next hop to follow
    | Hop(until: Option<Time>)                      // Enqueue the next hop
    | Retry(attempt: nat, msg: string)              // ReleaseLease, or give up
    | GiveUp(msg: string)                           // FailRun
    | Sweep                                         // CompleteQueueItem of a finished run
    | Spent                                         // CompleteQueueItem after CreateWait

  datatype Flight = Flight(pc: Pc, leasedAt: Time)

  /** Where the runner (or whoever creates the run) is with respect to this run. */
  datatype RunnerPc =
    | Idle
    | Create                                                   // run created, first Enqueue to follow
    | Saw(key: Hash, output: Json, final: WaitStatus)          // SaveStepResult
    | Saved(key: Hash, output: Json, final: WaitStatus)        // SetWaitStatus
    | Resume                                                   // Enqueue
    | Clear(key: Hash)                                         // SetWaitStatus cancelled: the run is over

  /** History: callbacks sent, attempts that failed, resume items enqueued. */
  datatype Stats = Stats(callbacks: nat, failures: nat, resumes: nat)

  datatype RunSt = RunSt(db: RunDb, flights: map<ItemId, Flight>, runner: RunnerPc, stats: Stats)

  datatype FlightStep =
    | Defer(retryAt: Time)                  // concurrency limit reached: ReleaseLease
    | ReadRun(registered: bool)
    | Admit(granted: bool, retryAt: Time)
    | Increment
    | MarkIt
    | WakeIt
    | LoadIt
    | Respond(resp: Response)
    | RecheckIt
    | Commit(now: Time)
    | OpenIt
    | DropIt
    | HopIt(newId: ItemId, now: Time)
    | RetryIt(retryAt: Time)
    | FailIt(now: Time)
    | SweepIt

  datatype Act =
    | Lease(id: ItemId, now: Time)
    | Fly(id: ItemId, step: FlightStep)
    | FirstEnqueue(newId: ItemId, at: Time)
    | SeeEvent(key: Hash, event: Event)
    | SeeExpired(key: Hash, now: Time)
    | SaveMemo
    | SettleWait
    | EnqueueResume(newId: ItemId, now: Time)
    | ClearWait
    | ClearWaits
    | CancelRun(now: Time)
    | TimeoutRun(msg: string, now: Time)
    | Crash(requeued: set<ItemId>)

  function Init(): RunSt {
    RunSt(NewRun(), map[], Create, Stats(0, 0, 0))
  }

  function Put(s: RunSt, id: ItemId, pc: Pc): RunSt
    requires id in s.flights
  {
    s.(flights := s.flights[id := s.flights[id].(pc := pc)])
  }

  function End(s: RunSt, id: ItemId): RunSt {
    s.(flights := s.flights - {id})
  }

  /** `retryOrFail` is entered: the attempt has failed. */
  function FailAttempt(s: RunSt, id: ItemId, attempt: nat, msg: string): RunSt
    requires id in s.flights
  {
    Put(s.(stats := s.stats.(failures := s.stats.failures + 1)), id, Retry(attempt, msg))
  }

  /** Ids of the events a SendEvent step fans out: the given one or one derived from
      the run, the step key and the position. */
  function OutIds(runId: RunId, key: Hash, events: seq<OutEvent>): seq<string> {
    seq(|events|, i requires 0 <= i < |events| => if events[i].id != "" then events[i].id else DerivedEventId(runId, key, i))
  }

  predicate Sendable(events: seq<OutEvent>) {
    events != [] && forall e :: e in events ==> e.name != ""
  }

  function SendProblem(events: seq<OutEvent>): string {
    if events == [] then "send_event: no events" else "send_event: event name required"
  }

  predicate Waitable(event: string, timeout: Timeout) {
    event != "" && !timeout.Malformed?
  }

  function WaitProblem(event: string): string {
    if event == "" then "wait_for_event: event name required" else "wait_for_event: invalid timeout"
  }

  function OrElse(msg: string, fallback: string): string {
    if msg == "" then fallback else msg
  }

  function ExpiresAt(t: Timeout, now: Time): Option<Time>
    requires !t.Malformed?
  {
    if t.After? then Some(now + t.d) else None
  }

  /** The opcode switch of `dispatch`. */
  function ApplyOp(cfg: Config, s: RunSt, id: ItemId, attempt: nat, op: Opcode, now: Time): RunSt
    requires id in s.flights
  {
    match op
    case StepComplete(k, sid, out) =>
      Put(s.(db := s.db.SaveStep(StepRow(k, sid, OpRun, StepCompleted, out, "", attempt, 0))), id, Drop(None))
    case StepError(k, sid, msg) =>
      var m := OrElse(msg, "step error");
      FailAttempt(s.(db := s.db.SaveStep(StepRow(k, sid, OpRun, StepFailed, Absent, m, attempt, 0))), id, attempt, m)
    case Sleep(k, sid, until) =>
      if until == 0 then FailAttempt(s, id, attempt, "sleep opcode missing until") else
        Put(s.(db := s.db.SaveStep(StepRow(k, sid, OpSleep, StepSleeping, Absent, "", attempt, until))), id, Drop(Some(until)))
    case SendEvent(k, sid, events) =>
      if !Sendable(events) then FailAttempt(s, id, attempt, SendProblem(events)) else
        Put(s.(db := s.db.SaveStep(StepRow(k, sid, OpSendEvent, StepCompleted, EventIds(OutIds(cfg.runId, k, events)), "", attempt, 0))),
            id, Drop(None))
    case WaitForEvent(k, sid, event, pattern, timeout) =>
      if !Waitable(event, timeout) then FailAttempt(s, id, attempt, WaitProblem(event)) else
        Put(s.(db := s.db.SaveStep(StepRow(k, sid, OpWait, StepWaiting, Absent, "", attempt, 0))),
            id, OpenWait(k, Wait(sid, event, pattern, ExpiresAt(timeout, now), Waiting)))
    case RunComplete(out) =>
      Put(s.(db := s.db.Complete(out, now)), id, Sweep)
    case RunError(msg) =>
      FailAttempt(s, id, attempt, OrElse(msg, "run error"))
  }

  predicate FreshItem(s: RunSt, id: ItemId) {
    id !in s.db.items && id !in s.flights
  }

  ghost predicate CanFly(cfg: Config, s: RunSt, id: ItemId, step: FlightStep) {
    && id in s.flights
    && match (s.flights[id].pc, step)
       case (Start, Defer(t)) => t >= s.flights[id].leasedAt
       case (Start, ReadRun(_)) => true
       case (Gate, Admit(granted, t)) => granted || t > s.flights[id].leasedAt
       case (Bump, Increment) => true
       case (Mark(_), MarkIt) => true
       case (Wake(_), WakeIt) => true
       case (Load(_), LoadIt) => true
       case (Calling(_, memos), Respond(resp)) =>
         resp.Answer? ==> Answers(cfg.handler, cfg.functionId, cfg.input, memos, resp.op)
       case (Recheck(_, _), RecheckIt) => true
       case (Apply(_, _), Commit(_)) => true
       case (OpenWait(_, _), OpenIt) => true
       case (Drop(_), DropIt) => true
       case (Hop(_), HopIt(newId, _)) => FreshItem(s, newId)
       case (Retry(_, _), RetryIt(_)) => true
       case (GiveUp(_), FailIt(_)) => true
       case (Sweep, SweepIt) => true
       case (Spent, SweepIt) => true
       case _ => false
  }

  function FlyNext(cfg: Config, s: RunSt, id: ItemId, step: FlightStep): RunSt
    requires id in s.flights
  {
    match (s.flights[id].pc, step)
    case (Start, Defer(t)) => End(s.(db := s.db.Release(id, t)), id)
    case (Start, ReadRun(registered)) =>
      if s.db.row.status.Terminal() then Put(s, id, Sweep)
      else if !registered then Put(s, id, GiveUp("function not registered: " + cfg.functionId))
      else if cfg.throttled && s.db.row.attempt == 0 then Put(s, id, Gate)
      else Put(s, id, Bump)
    case (Gate, Admit(granted, t)) =>
      if granted then Put(s, id, Bump) else End(s.(db := s.db.Release(id, t)), id)
    case (Bump, Increment) =>
      Put(s.(db := s.db.IncrementAttempt()), id, Mark(s.db.row.attempt + 1))
    case (Mark(n), MarkIt) =>
      Put(s.(db := s.db.MarkRunning()), id, if s.db.Live() then Wake(n) else Sweep)
    case (Wake(n), WakeIt) => Put(s.(db := s.db.CompleteSleeping()), id, Load(n))
    case (Load(n), LoadIt) =>
      Put(s.(stats := s.stats.(callbacks := s.stats.callbacks + 1)), id, Calling(n, CompletedMemos(s.db.steps)))
    case (Calling(n, _), Respond(resp)) =>
      if resp.NoAnswer? then FailAttempt(s, id, n, resp.msg) else Put(s, id, Recheck(n, resp.op))
    case (Recheck(n, op), RecheckIt) => Put(s, id, if s.db.Live() then Apply(n, op) else Sweep)
    case (Apply(n, op), Commit(now)) => ApplyOp(cfg, s, id, n, op, now)
    case (OpenWait(k, w), OpenIt) => Put(s.(db := s.db.CreateWait(k, w)), id, Spent)
    case (Drop(u), DropIt) => Put(s.(db := s.db.Remove(id)), id, Hop(u))
    case (Hop(u), HopIt(newId, now)) =>
      End(s.(db := s.db.Enqueue(newId, if u.Some? then u.value else now)), id)
    case (Retry(n, msg), RetryIt(t)) =>
      if n >= cfg.maxAttempts then Put(s, id, GiveUp(msg)) else End(s.(db := s.db.Release(id, t)), id)
    case (GiveUp(msg), FailIt(now)) => Put(s.(db := s.db.Fail(msg, now)), id, Sweep)
    case (Sweep, SweepIt) => End(s.(db := s.db.Remove(id)), id)
    case (Spent, SweepIt) => End(s.(db := s.db.Remove(id)), id)
    case _ => s
  }

  /** The outcome a wait may be given: an event it matches, or its timeout. */
  predicate Settles(cfg: Config, w: Wait, output: Json, final: WaitStatus) {
    || (final == Resolved && output.Arrived? && output.event.name == w.event && cfg.matches(w.pattern, output.event, cfg.input))
    || (final == TimedOut && output == Null && w.expires.Some?)
  }

  ghost predicate Enabled(cfg: Config, s: RunSt, a: Act) {
    match a
    case Lease(id, now) => id in s.db.items && !s.db.items[id].leased && s.db.items[id].at <= now && id !in s.flights
    case Fly(id, step) => CanFly(cfg, s, id, step)
    case FirstEnqueue(newId, _) => s.runner.Create? && FreshItem(s, newId)
    case SeeEvent(k, e) =>
      s.runner.Idle? && k in s.db.waits && s.db.waits[k].status == Waiting && s.db.waits[k].event == e.name
    case SeeExpired(k, now) =>
      s.runner.Idle? && k in s.db.waits && s.db.waits[k].status == Waiting
      && s.db.waits[k].expires.Some? && s.db.waits[k].expires.value < now
    case SaveMemo => s.runner.Saw?
    case SettleWait => s.runner.Saved?
    case EnqueueResume(newId, _) => s.runner.Resume? && FreshItem(s, newId)
    case ClearWait => s.runner.Clear?
    case ClearWaits => s.runner.Idle? && s.db.row.status == Cancelled
    case CancelRun(_) => true
    case TimeoutRun(_, _) => true
    case Crash(_) => true
  }

  function Next(cfg: Config, s: RunSt, a: Act): RunSt {
    match a
    case Lease(id, now) => s.(db := s.db.Lease(id), flights := s.flights[id := Flight(Start, now)])
    case Fly(id, step) => if id in s.flights then FlyNext(cfg, s, id, step) else s
    case FirstEnqueue(newId, at) => s.(db := s.db.Enqueue(newId, at), runner := Idle)
    case SeeEvent(k, e) =>
      if k !in s.db.waits then s
      else if s.db.row.status.Terminal() then s.(runner := Clear(k))
      else if cfg.matches(s.db.waits[k].pattern, e, cfg.input) then s.(runner := Saw(k, Arrived(e), Resolved))
      else s
    case SeeExpired(k, _) =>
      if s.db.row.status.Terminal() then s.(runner := Clear(k)) else s.(runner := Saw(k, Null, TimedOut))
    case SaveMemo =>
      if s.runner.Saw? && s.runner.key in s.db.waits then
        s.(db := s.db.SaveStep(StepRow(s.runner.key, s.db.waits[s.runner.key].stepId, OpWait, StepCompleted, s.runner.output, "", 0, 0)),
           runner := Saved(s.runner.key, s.runner.output, s.runner.final))
      else s
    case SettleWait =>
      if s.runner.Saved? then s.(db := s.db.SetWait(s.runner.key, s.runner.final), runner := Resume) else s
    case EnqueueResume(newId, now) =>
      s.(db := s.db.Enqueue(newId, now), runner := Idle, stats := s.stats.(resumes := s.stats.resumes + 1))
    case ClearWait =>
      if s.runner.Clear? then s.(db := s.db.SetWait(s.runner.key, WaitCancelled), runner := Idle) else s
    case ClearWaits => s.(db := s.db.CancelWaits())
    case CancelRun(now) => s.(db := s.db.Cancel(now))
    case TimeoutRun(msg, now) => s.(db := s.db.TimeOut(msg, now))
    case Crash(requeued) =>
      RunSt(s.db.(items := map i | i in s.db.items ::
              if i in requeued then s.db.items[i].(leased := false) else s.db.items[i]),
            map[], Idle, s.stats)
  }

  /** A crash between CreateWait and the CompleteQueueItem after it is not tame. */
  predicate Tame(s: RunSt, a: Act) {
    a.Crash? ==> forall id :: id in s.flights ==> !s.flights[id].pc.Spent?
  }

  /** `acts` can be taken one after the other from `s`. */
  ghost predicate Possible(cfg: Config, s: RunSt, acts: seq<Act>)
    decreases |acts|
  {
    acts == [] || (Enabled(cfg, s, acts[0]) && Tame(s, acts[0]) && Possible(cfg, Next(cfg, s, acts[0]), acts[1..]))
  }

  function Exec(cfg: Config, s: RunSt, acts: seq<Act>): RunSt
    decreases |acts|
  {
    if acts == [] then s else Exec(cfg, Next(cfg, s, acts[0]), acts[1..])
  }

  predicate CrashFree(acts: seq<Act>) {
    forall a :: a in acts ==> !a.Crash?
  }

  lemma {:induction false} ExecSnoc(cfg: Config, s: RunSt, acts: seq<Act>, a: Act)
    ensures Exec(cfg, s, acts + [a]) == Next(cfg, Exec(cfg, s, acts), a)
    ensures Possible(cfg, s, acts) && Enabled(cfg, Exec(cfg, s, acts), a) && Tame(Exec(cfg, s, acts), a)
            ==> Possible(cfg, s, acts + [a])
    decreases |acts|
  {
    if acts == [] {
      assert (acts + [a])[1..] == [];
    } else {
      ExecSnoc(cfg, Next(cfg, s, acts[0]), acts[1..], a);
      assert (acts + [a])[1..] == acts[1..] + [a];
    }
  }
}
