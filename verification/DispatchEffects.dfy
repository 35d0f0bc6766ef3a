/** What one dispatch does to the tables, column by column: the outcome each response of
    the application has, said without the steps that bring it about. */
module DispatchEffects {
  import opened StepKeys
  import opened Sdk
  import opened RunStore
  import opened RunMachine
  import opened Wrappers

  /** What the surroundings contribute to one dispatch: whether the function is
      registered, the throttle's decision, a transport failure, how the executed step
      body ends, clock readings and a fresh queue item id. */
  datatype Surroundings = Surroundings(
    registered: bool, granted: bool, throttledUntil: Time, failure: Option<string>,
    outcome: Outcome, wakeAt: Time, now: Time, retryAt: Time, newId: ItemId)

  /** The item is pending again at `at`. */
  predicate PutBack(d: RunDb, u: RunDb, id: ItemId, at: Time) {
    u.items == if id in d.items then d.items[id := Item(at, false)] else d.items
  }

  /** The item is replaced by the next hop, due at `at`; the run goes on. */
  predicate GoesOn(env: Surroundings, id: ItemId, at: Time, d: RunDb, u: RunDb) {
    u.row == d.row && u.waits == d.waits && u.items == (d.items - {id})[env.newId := Item(at, false)]
  }

  /** The n-th attempt has failed: another one later, or the end of the run. */
  predicate Retried(cfg: Config, env: Surroundings, id: ItemId, n: nat, msg: string, d: RunDb, u: RunDb) {
    && u.waits == d.waits
    && if n < cfg.maxAttempts then u.row == d.row && PutBack(d, u, id, env.retryAt)
       else
         && u.items == d.items - {id}
         && if d.row.status.Queued? || d.row.status.Running?
            then u.row == RunRow(Failed, d.row.output, msg, d.row.attempt, Some(env.now)) else u.row == d.row
  }

  /** `r` is written among the steps. */
  ghost predicate Saved(d: RunDb, u: RunDb, r: StepRow) {
    exists i :: RowSaved(d.steps, u.steps, r, i)
  }

  /** Each event keeps its id, or gets one of the run, the step and its place. */
  predicate FannedOut(runId: RunId, key: Hash, events: seq<OutEvent>, ids: seq<string>) {
    && |ids| == |events|
    && forall i :: 0 <= i < |events| ==> ids[i] == if events[i].id == "" then DerivedEventId(runId, key, i) else events[i].id
  }

  /** When a wait opened at `now` expires. */
  predicate ExpiresFor(timeout: Timeout, now: Time, expires: Option<Time>) {
    match timeout
    case Forever => expires == None
    case After(d) => expires == Some(now + d)
    case Malformed => false
  }

  function Text(msg: string, fallback: string): string {
    if msg != "" then msg else fallback
  }

  /** The opcode of the n-th attempt of a run has been carried out. */
  ghost predicate Applied(cfg: Config, env: Surroundings, id: ItemId, n: nat, op: Opcode, d: RunDb, u: RunDb) {
    match op
    case StepComplete(k, sid, out) =>
      Saved(d, u, StepRow(k, sid, OpRun, StepCompleted, out, "", n, 0)) && GoesOn(env, id, env.now, d, u)
    case StepError(k, sid, msg) =>
      Saved(d, u, StepRow(k, sid, OpRun, StepFailed, Absent, Text(msg, "step error"), n, 0))
      && Retried(cfg, env, id, n, Text(msg, "step error"), d, u)
    case Sleep(k, sid, until) =>
      if until == 0 then u.steps == d.steps && Retried(cfg, env, id, n, "sleep opcode missing until", d, u)
      else Saved(d, u, StepRow(k, sid, OpSleep, StepSleeping, Absent, "", n, until)) && GoesOn(env, id, until, d, u)
    case SendEvent(k, sid, events) =>
      if events == [] then u.steps == d.steps && Retried(cfg, env, id, n, "send_event: no events", d, u)
      else if exists e :: e in events && e.name == ""
      then u.steps == d.steps && Retried(cfg, env, id, n, "send_event: event name required", d, u)
      else GoesOn(env, id, env.now, d, u) && exists ids ::
             FannedOut(cfg.runId, k, events, ids) && Saved(d, u, StepRow(k, sid, OpSendEvent, StepCompleted, EventIds(ids), "", n, 0))
    case WaitForEvent(k, sid, event, pattern, timeout) =>
      if event == "" then u.steps == d.steps && Retried(cfg, env, id, n, "wait_for_event: event name required", d, u)
      else if timeout.Malformed? then u.steps == d.steps && Retried(cfg, env, id, n, "wait_for_event: invalid timeout", d, u)
      else
        && Saved(d, u, StepRow(k, sid, OpWait, StepWaiting, Absent, "", n, 0))
        && u.row == d.row && u.items == d.items - {id}
        && Opened(d, u, k, sid, event, pattern, timeout, env.now)
    case RunComplete(out) =>
      && u.steps == d.steps && u.waits == d.waits && u.items == d.items - {id}
      && (d.row.status.Queued? || d.row.status.Running? ==>
            u.row == RunRow(Completed, out, d.row.error, d.row.attempt, Some(env.now)))
    case RunError(msg) =>
      u.steps == d.steps && Retried(cfg, env, id, n, Text(msg, "run error"), d, u)
  }

  /** The wait is there, or there is a new one that waits for the event until its timeout. */
  ghost predicate Opened(d: RunDb, u: RunDb, k: Hash, sid: string, event: string, pattern: string, timeout: Timeout, now: Time) {
    if k in d.waits then u.waits == d.waits
    else
      && k in u.waits && u.waits == d.waits[k := u.waits[k]]
      && u.waits[k] == Wait(sid, event, pattern, u.waits[k].expires, Waiting) && ExpiresFor(timeout, now, u.waits[k].expires)
  }

  /** The n-th callback of a run has been made and its response carried out. */
  ghost predicate Called(cfg: Config, env: Surroundings, id: ItemId, n: nat, d: RunDb, u: RunDb) {
    if env.failure.Some? then u.steps == d.steps && Retried(cfg, env, id, n, env.failure.value, d, u)
    else exists op ::
      && Answers(cfg.handler, cfg.functionId, cfg.input, CompletedMemos(d.steps), op)
      && (op.StepComplete? ==> env.outcome == Ok(op.output)) && (op.StepError? ==> env.outcome == Err(op.msg))
      && (op.Sleep? ==> op.until == env.wakeAt)
      && Applied(cfg, env, id, n, op, d, u)
  }

  /** The attempt is counted, the run is running and its sleeping steps are over. */
  predicate Begun(d: RunDb, u: RunDb) {
    && u.row == d.row.(status := Running, attempt := d.row.attempt + 1) && u.waits == d.waits && u.items == d.items
    && |u.steps| == |d.steps|
    && forall i :: 0 <= i < |d.steps| ==>
         u.steps[i] == if d.steps[i].status.StepSleeping? then d.steps[i].(status := StepCompleted) else d.steps[i]
  }

  ghost predicate Attempted(cfg: Config, env: Surroundings, id: ItemId, d: RunDb, u: RunDb) {
    exists c :: Begun(d, c) && Called(cfg, env, id, d.row.attempt + 1, c, u)
  }

  /** A whole dispatch, from the tables `d` it finds to the tables `u` it leaves. */
  ghost predicate Dispatched(cfg: Config, env: Surroundings, id: ItemId, d: RunDb, u: RunDb) {
    if d.row.status.Completed? || d.row.status.Failed? || d.row.status.Cancelled? then u == d.(items := d.items - {id})
    else if !env.registered then
      && u.row == RunRow(Failed, d.row.output, "function not registered: " + cfg.functionId, d.row.attempt, Some(env.now))
      && u.steps == d.steps && u.waits == d.waits && u.items == d.items - {id}
    else if cfg.throttled && d.row.attempt == 0 && !env.granted then
      u == d.(items := u.items) && PutBack(d, u, id, env.throttledUntil)
    else Attempted(cfg, env, id, d, u)
  }

  // ---------- the opcodes ----------

  lemma BegunIs(d: RunDb)
    requires d.Live()
    ensures Begun(d, d.IncrementAttempt().MarkRunning().CompleteSleeping())
  {}

  lemma SavedIs(d: RunDb, u: RunDb, r: StepRow)
    requires u.steps == d.SaveStep(r).steps
    ensures Saved(d, u, r)
  {
    UpsertSaves(d.steps, r);
  }

  lemma ErrorApplied(cfg: Config, env: Surroundings, id: ItemId, n: nat, op: Opcode, d: RunDb, u: RunDb)
    requires op.StepError?
    requires var r := StepRow(op.key, op.stepId, OpRun, StepFailed, Absent, Text(op.msg, "step error"), n, 0);
             u.steps == d.SaveStep(r).steps && Retried(cfg, env, id, n, Text(op.msg, "step error"), d.SaveStep(r), u)
    ensures Applied(cfg, env, id, n, op, d, u)
  {
    SavedIs(d, u, StepRow(op.key, op.stepId, OpRun, StepFailed, Absent, Text(op.msg, "step error"), n, 0));
  }

  lemma WaitOpened(d: RunDb, u: RunDb, k: Hash, sid: string, event: string, pattern: string, timeout: Timeout, now: Time, expires: Option<Time>)
    requires u.waits == d.CreateWait(k, Wait(sid, event, pattern, expires, Waiting)).waits && ExpiresFor(timeout, now, expires)
    ensures Opened(d, u, k, sid, event, pattern, timeout, now)
  {}
}
