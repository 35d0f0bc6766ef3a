/** The executor's `dispatch` as it is written: a sequence of store calls. Left alone,
    each method takes exactly a path of the run machine, so whatever the machine keeps
    under every interleaving, this code keeps. */
module Executor {
  import opened StepKeys
  import opened Sdk
  import opened RunStore
  import opened RunMachine
  import opened DispatchEffects
  import opened Wrappers

  /** The steps a dispatch takes in those surroundings. */
  predicate Given(env: Surroundings, step: FlightStep) {
    match step
    case Defer(_) => false
    case ReadRun(registered) => registered == env.registered
    case Admit(granted, retryAt) => granted == env.granted && retryAt == env.throttledUntil
    case Respond(NoAnswer(msg)) => env.failure == Some(msg)
    case Respond(Answer(op)) =>
      && env.failure.None?
      && (op.StepComplete? ==> env.outcome == Ok(op.output)) && (op.StepError? ==> env.outcome == Err(op.msg))
      && (op.Sleep? ==> op.until == env.wakeAt)
    case Commit(now) => now == env.now
    case HopIt(newId, now) => newId == env.newId && now == env.now
    case RetryIt(retryAt) => retryAt == env.retryAt
    case FailIt(now) => now == env.now
    case _ => true
  }

  /** `t` is reached from `s` by steps of dispatch `id` alone, in surroundings `env`. */
  ghost predicate Flies(cfg: Config, env: Surroundings, s: RunSt, t: RunSt, id: ItemId) {
    exists acts: seq<Act> :: FliesBy(cfg, env, s, t, id, acts)
  }

  ghost predicate FliesBy(cfg: Config, env: Surroundings, s: RunSt, t: RunSt, id: ItemId, acts: seq<Act>) {
    && Possible(cfg, s, acts) && Exec(cfg, s, acts) == t
    && (forall i :: 0 <= i < |acts| ==> acts[i].Fly? && acts[i].id == id && Given(env, acts[i].step))
  }

  lemma FliesNot(cfg: Config, env: Surroundings, s: RunSt, id: ItemId)
    ensures Flies(cfg, env, s, s, id)
  {
    assert FliesBy(cfg, env, s, s, id, []);
  }

  lemma FliesOn(cfg: Config, env: Surroundings, s: RunSt, t: RunSt, id: ItemId, step: FlightStep)
    requires Flies(cfg, env, s, t, id) && CanFly(cfg, t, id, step) && Given(env, step)
    ensures Flies(cfg, env, s, FlyNext(cfg, t, id, step), id)
  {
    var acts :| FliesBy(cfg, env, s, t, id, acts);
    ExecSnoc(cfg, s, acts, Fly(id, step));
    assert FliesBy(cfg, env, s, FlyNext(cfg, t, id, step), id, acts + [Fly(id, step)]);
  }

  /** The run is read. */
  lemma ReadOn(cfg: Config, env: Surroundings, s: RunSt, t: RunSt, id: ItemId) returns (t': RunSt)
    requires Flies(cfg, env, s, t, id) && id in t.flights && t.flights[id].pc == Start
    ensures Flies(cfg, env, s, t', id) && t'.db == t.db && t'.flights.Keys == t.flights.Keys
    ensures t'.flights[id].leasedAt == t.flights[id].leasedAt
    ensures t'.flights[id].pc ==
              if !t.db.Live() then Sweep
              else if !env.registered then GiveUp("function not registered: " + cfg.functionId)
              else if cfg.throttled && t.db.row.attempt == 0 then Gate else Bump
  {
    FliesOn(cfg, env, s, t, id, ReadRun(env.registered));
    t' := FlyNext(cfg, t, id, ReadRun(env.registered));
  }

  /** The throttle decides. */
  lemma AdmitOn(cfg: Config, env: Surroundings, s: RunSt, t: RunSt, id: ItemId) returns (t': RunSt)
    requires Flies(cfg, env, s, t, id) && id in t.flights && t.flights[id].pc == Gate
    requires env.granted || env.throttledUntil > t.flights[id].leasedAt
    ensures Flies(cfg, env, s, t', id)
    ensures if env.granted then t'.db == t.db && t'.flights.Keys == t.flights.Keys && t'.flights[id].pc == Bump
            else t'.db == t.db.Release(id, env.throttledUntil) && id !in t'.flights
  {
    FliesOn(cfg, env, s, t, id, Admit(env.granted, env.throttledUntil));
    t' := FlyNext(cfg, t, id, Admit(env.granted, env.throttledUntil));
  }

  /** The attempt is counted. */
  lemma IncrementOn(cfg: Config, env: Surroundings, s: RunSt, t: RunSt, id: ItemId) returns (t': RunSt)
    requires Flies(cfg, env, s, t, id) && id in t.flights && t.flights[id].pc == Bump
    ensures Flies(cfg, env, s, t', id) && t'.db == t.db.IncrementAttempt() && t'.flights.Keys == t.flights.Keys
    ensures t'.flights[id].pc == Mark(t.db.row.attempt + 1)
  {
    FliesOn(cfg, env, s, t, id, Increment);
    t' := FlyNext(cfg, t, id, Increment);
  }

  /** The queue item goes. */
  lemma DropOn(cfg: Config, env: Surroundings, s: RunSt, t: RunSt, id: ItemId, until: Option<Time>) returns (t': RunSt)
    requires Flies(cfg, env, s, t, id) && id in t.flights && t.flights[id].pc == Drop(until)
    ensures Flies(cfg, env, s, t', id) && t'.db == t.db.Remove(id) && t'.flights.Keys == t.flights.Keys
    ensures t'.flights[id].pc == Hop(until)
  {
    FliesOn(cfg, env, s, t, id, DropIt);
    t' := FlyNext(cfg, t, id, DropIt);
  }

  /** The run is marked running, unless it has ended. */
  lemma MarkOn(cfg: Config, env: Surroundings, s: RunSt, t: RunSt, id: ItemId, attempt: nat) returns (t': RunSt)
    requires Flies(cfg, env, s, t, id) && id in t.flights && t.flights[id].pc == Mark(attempt)
    ensures Flies(cfg, env, s, t', id) && t'.db == t.db.MarkRunning() && t'.flights.Keys == t.flights.Keys
    ensures t'.flights[id].pc == if t.db.Live() then Wake(attempt) else Sweep
  {
    FliesOn(cfg, env, s, t, id, MarkIt);
    t' := FlyNext(cfg, t, id, MarkIt);
  }

  /** The memos are loaded and the callback is sent. */
  lemma LoadOn(cfg: Config, env: Surroundings, s: RunSt, t: RunSt, id: ItemId, attempt: nat) returns (t': RunSt)
    requires Flies(cfg, env, s, t, id) && id in t.flights && t.flights[id].pc == Load(attempt)
    ensures Flies(cfg, env, s, t', id) && t'.db == t.db && t'.flights.Keys == t.flights.Keys
    ensures t'.flights[id].pc == Calling(attempt, CompletedMemos(t.db.steps))
  {
    FliesOn(cfg, env, s, t, id, LoadIt);
    t' := FlyNext(cfg, t, id, LoadIt);
  }

  /** The application responds. */
  lemma RespondOn(cfg: Config, env: Surroundings, s: RunSt, t: RunSt, id: ItemId, attempt: nat, resp: Response) returns (t': RunSt)
    requires Flies(cfg, env, s, t, id) && id in t.flights && t.flights[id].pc.Calling? && t.flights[id].pc.attempt == attempt
    requires CanFly(cfg, t, id, Respond(resp)) && Given(env, Respond(resp))
    ensures Flies(cfg, env, s, t', id) && t'.db == t.db && t'.flights.Keys == t.flights.Keys
    ensures t'.flights[id].pc == if resp.NoAnswer? then Retry(attempt, resp.msg) else Recheck(attempt, resp.op)
  {
    FliesOn(cfg, env, s, t, id, Respond(resp));
    t' := FlyNext(cfg, t, id, Respond(resp));
  }

  /** The opcode switch. */
  lemma CommitOn(cfg: Config, env: Surroundings, s: RunSt, t: RunSt, id: ItemId, attempt: nat, op: Opcode) returns (t': RunSt)
    requires Flies(cfg, env, s, t, id) && id in t.flights && t.flights[id].pc == Apply(attempt, op)
    ensures Flies(cfg, env, s, t', id) && t' == ApplyOp(cfg, t, id, attempt, op, env.now)
  {
    FliesOn(cfg, env, s, t, id, Commit(env.now));
    t' := FlyNext(cfg, t, id, Commit(env.now));
  }

  /** The switch at a SendEvent opcode. */
  lemma CommitSend(cfg: Config, env: Surroundings, s: RunSt, t: RunSt, id: ItemId, attempt: nat, op: Opcode) returns (t': RunSt)
    requires Flies(cfg, env, s, t, id) && id in t.flights && t.flights[id].pc == Apply(attempt, op) && op.SendEvent?
    ensures Flies(cfg, env, s, t', id) && t'.flights.Keys == t.flights.Keys
    ensures if Sendable(op.events)
            then t'.db == t.db.SaveStep(StepRow(op.key, op.stepId, OpSendEvent, StepCompleted,
                                                EventIds(OutIds(cfg.runId, op.key, op.events)), "", attempt, 0))
                 && t'.flights[id].pc == Drop(None)
            else t'.db == t.db && t'.flights[id].pc == Retry(attempt, SendProblem(op.events))
  {
    t' := CommitOn(cfg, env, s, t, id, attempt, op);
  }

  /** The switch at a StepError opcode. */
  lemma CommitError(cfg: Config, env: Surroundings, s: RunSt, t: RunSt, id: ItemId, attempt: nat, op: Opcode) returns (t': RunSt)
    requires Flies(cfg, env, s, t, id) && id in t.flights && t.flights[id].pc == Apply(attempt, op) && op.StepError?
    ensures Flies(cfg, env, s, t', id) && id in t'.flights
    ensures var text := OrElse(op.msg, "step error");
            && t'.db == t.db.SaveStep(StepRow(op.key, op.stepId, OpRun, StepFailed, Absent, text, attempt, 0))
            && t'.flights[id].pc == Retry(attempt, text)
  {
    t' := CommitOn(cfg, env, s, t, id, attempt, op);
  }

  /** The switch at a WaitForEvent opcode. */
  lemma CommitWait(cfg: Config, env: Surroundings, s: RunSt, t: RunSt, id: ItemId, attempt: nat, op: Opcode) returns (t': RunSt)
    requires Flies(cfg, env, s, t, id) && id in t.flights && t.flights[id].pc == Apply(attempt, op) && op.WaitForEvent?
    ensures Flies(cfg, env, s, t', id) && id in t'.flights
    ensures if Waitable(op.event, op.timeout)
            then t'.db == t.db.SaveStep(StepRow(op.key, op.stepId, OpWait, StepWaiting, Absent, "", attempt, 0))
                 && t'.flights[id].pc == OpenWait(op.key, Wait(op.stepId, op.event, op.pattern, ExpiresAt(op.timeout, env.now), Waiting))
            else t'.db == t.db && t'.flights[id].pc == Retry(attempt, WaitProblem(op.event))
  {
    t' := CommitOn(cfg, env, s, t, id, attempt, op);
  }

  /** The surroundings leave a dispatch no choice, ... */
  lemma StepGiven(cfg: Config, env: Surroundings, s: RunSt, id: ItemId, x: FlightStep, y: FlightStep)
    requires CanFly(cfg, s, id, x) && CanFly(cfg, s, id, y) && Given(env, x) && Given(env, y)
    ensures x == y
  {
    if x.Respond? && x.resp.Answer? {
      var memos := s.flights[id].pc.memos;
      var a :| StopsAt(cfg.handler, cfg.functionId, cfg.input, memos, a) && Reports(cfg.handler, cfg.functionId, cfg.input, a, x.resp.op);
      var b :| StopsAt(cfg.handler, cfg.functionId, cfg.input, memos, b) && Reports(cfg.handler, cfg.functionId, cfg.input, b, y.resp.op);
      StopsUnique(cfg.handler, cfg.functionId, cfg.input, memos, a, b);
    }
  }

  lemma {:induction false} EndGiven(cfg: Config, env: Surroundings, s: RunSt, t: RunSt, u: RunSt, id: ItemId, xs: seq<Act>, ys: seq<Act>)
    requires FliesBy(cfg, env, s, t, id, xs) && FliesBy(cfg, env, s, u, id, ys)
    requires id !in t.flights && id !in u.flights
    ensures t == u
    decreases |xs|
  {
    if id in s.flights {
      StepGiven(cfg, env, s, id, xs[0].step, ys[0].step);
      EndGiven(cfg, env, Next(cfg, s, xs[0]), t, u, id, xs[1..], ys[1..]);
    }
  }

  /** ... so what a finished dispatch leaves behind is determined by them. */
  lemma DispatchDetermined(cfg: Config, env: Surroundings, s: RunSt, t: RunSt, u: RunSt, id: ItemId)
    requires Flies(cfg, env, s, t, id) && Flies(cfg, env, s, u, id)
    requires id !in t.flights && id !in u.flights
    ensures t == u
  {
    var xs :| FliesBy(cfg, env, s, t, id, xs);
    var ys :| FliesBy(cfg, env, s, u, id, ys);
    EndGiven(cfg, env, s, t, u, id, xs, ys);
  }

  /** The machine state that goes with the store while dispatch `id` is at `pc`. */
  ghost predicate At(store: Store, cfg: Config, m: RunSt, id: ItemId)
    reads store
  {
    cfg.runId in store.db && store.db[cfg.runId] == m.db && id in m.flights
  }

  /** The loop of `handleSendEvent`: the ids of the events in order, or a nameless one. An
      event keeps the id it has; one without gets an id of the run, the step and its place. */
  method FanOut(runId: RunId, key: Hash, events: seq<OutEvent>) returns (ids: seq<string>, bad: bool)
    ensures bad <==> exists e :: e in events && e.name == ""
    ensures !bad ==> |ids| == |events|
    ensures !bad ==> forall i :: 0 <= i < |events| ==>
              ids[i] == if events[i].id == "" then DerivedEventId(runId, key, i) else events[i].id
    ensures !bad ==> ids == OutIds(runId, key, events)
  {
    ids, bad := [], false;
    var i := 0;
    while i < |events|
      invariant i <= |events| && ids == OutIds(runId, key, events[..i])
      invariant forall j :: 0 <= j < i ==> events[j].name != ""
    {
      if events[i].name == "" {
        bad := true;
        return;
      }
      ids := ids + [if events[i].id != "" then events[i].id else DerivedEventId(runId, key, i)];
      i := i + 1;
    }
    assert events[..i] == events;
  }

  class Dispatcher {
    const store: Store
    const cfg: Config

    constructor (store: Store, cfg: Config)
      ensures this.store == store && this.cfg == cfg
    {
      this.store, this.cfg := store, cfg;
    }

    method Dispatch(id: ItemId, env: Surroundings, ghost m: RunSt)
      returns (ghost m': RunSt)
      requires At(store, cfg, m, id) && m.flights[id].pc == Start
      requires FreshItem(m, env.newId) && (env.granted || env.throttledUntil > m.flights[id].leasedAt)
      modifies store
      ensures store.db == old(store.db)[cfg.runId := m'.db]
      ensures Flies(cfg, env, m, m', id) && id !in m'.flights
      ensures Dispatched(cfg, env, id, old(store.db)[cfg.runId], store.db[cfg.runId])
    {
      FliesNot(cfg, env, m, id);
      var run := store.db[cfg.runId].row;
      m' := ReadOn(cfg, env, m, m, id);
      if run.status == Completed || run.status == Failed || run.status == Cancelled {
        m' := CompleteItem(id, env, m, m');
        return;
      }
      if !env.registered {
        m' := FailRun(id, env, "function not registered: " + cfg.functionId, m, m');
        return;
      }
      if cfg.throttled && run.attempt == 0 {
        m' := AdmitOn(cfg, env, m, m', id);
        if !env.granted {
          store.ReleaseLease(cfg.runId, id, env.throttledUntil);
          return;
        }
      }
      m' := Launch(id, env, m, m');
    }

    /** The attempt is counted and the run marked running. */
    method Launch(id: ItemId, env: Surroundings, ghost m: RunSt, ghost c: RunSt)
      returns (ghost m': RunSt)
      requires At(store, cfg, c, id) && Flies(cfg, env, m, c, id) && c.flights[id].pc == Bump
      requires FreshItem(c, env.newId)
      modifies store
      ensures store.db == old(store.db)[cfg.runId := m'.db]
      ensures Flies(cfg, env, m, m', id) && id !in m'.flights
      ensures c.db.Live() ==> Attempted(cfg, env, id, c.db, m'.db)
    {
      var attempt := store.IncrementRunAttempt(cfg.runId);
      m' := IncrementOn(cfg, env, m, c, id);
      m' := MarkRunning(id, env, attempt, m, m');
      if c.db.Live() { BegunIs(c.db); }
    }

    method MarkRunning(id: ItemId, env: Surroundings, attempt: nat, ghost m: RunSt, ghost c: RunSt)
      returns (ghost m': RunSt)
      requires At(store, cfg, c, id) && Flies(cfg, env, m, c, id) && c.flights[id].pc == Mark(attempt)
      requires FreshItem(c, env.newId)
      modifies store
      ensures store.db == old(store.db)[cfg.runId := m'.db]
      ensures Flies(cfg, env, m, m', id) && id !in m'.flights
      ensures c.db.Live() ==> Called(cfg, env, id, attempt, c.db.MarkRunning().CompleteSleeping(), m'.db)
    {
      var running := store.MarkRunRunning(cfg.runId);
      m' := MarkOn(cfg, env, m, c, id, attempt);
      if !running {
        m' := CompleteItem(id, env, m, m');
        return;
      }
      m' := WakeUp(id, env, attempt, m, m');
    }

    method WakeUp(id: ItemId, env: Surroundings, attempt: nat, ghost m: RunSt, ghost c: RunSt)
      returns (ghost m': RunSt)
      requires At(store, cfg, c, id) && Flies(cfg, env, m, c, id) && c.flights[id].pc == Wake(attempt)
      requires FreshItem(c, env.newId)
      modifies store
      ensures store.db == old(store.db)[cfg.runId := m'.db]
      ensures Flies(cfg, env, m, m', id) && id !in m'.flights
      ensures c.db.Live() ==> Called(cfg, env, id, attempt, c.db.CompleteSleeping(), m'.db)
    {
      store.CompleteSleepingSteps(cfg.runId);
      FliesOn(cfg, env, m, c, id, WakeIt);
      m' := FlyNext(cfg, c, id, WakeIt);
      m' := Callback(id, env, attempt, m, m');
    }

    /** From the request to the opcode switch. */
    method Callback(id: ItemId, env: Surroundings, attempt: nat, ghost m: RunSt, ghost c: RunSt)
      returns (ghost m': RunSt)
      requires At(store, cfg, c, id) && Flies(cfg, env, m, c, id) && c.flights[id].pc == Load(attempt)
      requires FreshItem(c, env.newId)
      modifies store
      ensures store.db == old(store.db)[cfg.runId := m'.db]
      ensures Flies(cfg, env, m, m', id) && id !in m'.flights
      ensures c.db.Live() ==> Called(cfg, env, id, attempt, c.db, m'.db)
    {
      var memos := store.StepResults(cfg.runId);
      m' := LoadOn(cfg, env, m, c, id, attempt);
      if env.failure.Some? {
        m' := RespondOn(cfg, env, m, m', id, attempt, NoAnswer(env.failure.value));
        m' := RetryOrFail(id, env, attempt, env.failure.value, m, m');
        return;
      }
      var op, outs := HandleExec(cfg.handler, cfg.functionId, cfg.input, memos, env.outcome, env.wakeAt);
      assert Answers(cfg.handler, cfg.functionId, cfg.input, memos, op);
      m' := RespondOn(cfg, env, m, m', id, attempt, Answer(op));
      m' := Reread(id, env, attempt, op, m, m');
    }

    /** The run may have ended while the callback was in flight. */
    method Reread(id: ItemId, env: Surroundings, attempt: nat, op: Opcode, ghost m: RunSt, ghost c: RunSt)
      returns (ghost m': RunSt)
      requires At(store, cfg, c, id) && Flies(cfg, env, m, c, id) && c.flights[id].pc == Recheck(attempt, op)
      requires FreshItem(c, env.newId)
      modifies store
      ensures store.db == old(store.db)[cfg.runId := m'.db]
      ensures Flies(cfg, env, m, m', id) && id !in m'.flights
      ensures c.db.Live() ==> Applied(cfg, env, id, attempt, op, c.db, m'.db)
    {
      var latest := store.db[cfg.runId].row;
      FliesOn(cfg, env, m, c, id, RecheckIt);
      m' := FlyNext(cfg, c, id, RecheckIt);
      if latest.status == Cancelled || latest.status == Completed || latest.status == Failed {
        m' := CompleteItem(id, env, m, m');
        return;
      }
      m' := Switch(id, env, attempt, op, m, m');
    }

    method Switch(id: ItemId, env: Surroundings, attempt: nat, op: Opcode, ghost m: RunSt, ghost c: RunSt)
      returns (ghost m': RunSt)
      requires At(store, cfg, c, id) && Flies(cfg, env, m, c, id) && c.flights[id].pc == Apply(attempt, op)
      requires FreshItem(c, env.newId)
      modifies store
      ensures store.db == old(store.db)[cfg.runId := m'.db]
      ensures Flies(cfg, env, m, m', id) && id !in m'.flights
      ensures Applied(cfg, env, id, attempt, op, c.db, m'.db)
    {
      match op {
        case StepComplete(_, _, _) => m' := HandleStepComplete(id, env, attempt, op, m, c);
        case StepError(_, _, _) => m' := HandleStepError(id, env, attempt, op, m, c);
        case Sleep(_, _, _) => m' := HandleSleep(id, env, attempt, op, m, c);
        case SendEvent(_, _, _) => m' := HandleSendEvent(id, env, attempt, op, m, c);
        case WaitForEvent(_, _, _, _, _) => m' := HandleWaitForEvent(id, env, attempt, op, m, c);
        case RunComplete(out) =>
          m' := CommitOn(cfg, env, m, c, id, attempt, op);
          store.CompleteRun(cfg.runId, out, env.now);
          m' := CompleteItem(id, env, m, m');
        case RunError(msg) =>
          m' := CommitOn(cfg, env, m, c, id, attempt, op);
          m' := RetryOrFail(id, env, attempt, if msg != "" then msg else "run error", m, m');
      }
    }

    method HandleStepComplete(id: ItemId, env: Surroundings, attempt: nat, op: Opcode, ghost m: RunSt, ghost c: RunSt)
      returns (ghost m': RunSt)
      requires At(store, cfg, c, id) && Flies(cfg, env, m, c, id) && c.flights[id].pc == Apply(attempt, op)
      requires FreshItem(c, env.newId) && op.StepComplete?
      modifies store
      ensures store.db == old(store.db)[cfg.runId := m'.db]
      ensures Flies(cfg, env, m, m', id) && id !in m'.flights
      ensures Applied(cfg, env, id, attempt, op, c.db, m'.db)
    {
      m' := CommitOn(cfg, env, m, c, id, attempt, op);
      store.SaveStepResult(cfg.runId, StepRow(op.key, op.stepId, OpRun, StepCompleted, op.output, "", attempt, 0));
      m' := NextHop(id, env, None, m, m');
      SavedIs(c.db, m'.db, StepRow(op.key, op.stepId, OpRun, StepCompleted, op.output, "", attempt, 0));
    }

    method HandleStepError(id: ItemId, env: Surroundings, attempt: nat, op: Opcode, ghost m: RunSt, ghost c: RunSt)
      returns (ghost m': RunSt)
      requires At(store, cfg, c, id) && Flies(cfg, env, m, c, id) && c.flights[id].pc == Apply(attempt, op)
      requires FreshItem(c, env.newId) && op.StepError?
      modifies store
      ensures store.db == old(store.db)[cfg.runId := m'.db]
      ensures Flies(cfg, env, m, m', id) && id !in m'.flights
      ensures Applied(cfg, env, id, attempt, op, c.db, m'.db)
    {
      m' := CommitError(cfg, env, m, c, id, attempt, op);
      var text := if op.msg != "" then op.msg else "step error";
      store.SaveStepResult(cfg.runId, StepRow(op.key, op.stepId, OpRun, StepFailed, Absent, text, attempt, 0));
      m' := RetryOrFail(id, env, attempt, text, m, m');
      ErrorApplied(cfg, env, id, attempt, op, c.db, m'.db);
    }

    method HandleSleep(id: ItemId, env: Surroundings, attempt: nat, op: Opcode, ghost m: RunSt, ghost c: RunSt)
      returns (ghost m': RunSt)
      requires At(store, cfg, c, id) && Flies(cfg, env, m, c, id) && c.flights[id].pc == Apply(attempt, op)
      requires FreshItem(c, env.newId) && op.Sleep?
      modifies store
      ensures store.db == old(store.db)[cfg.runId := m'.db]
      ensures Flies(cfg, env, m, m', id) && id !in m'.flights
      ensures Applied(cfg, env, id, attempt, op, c.db, m'.db)
    {
      m' := CommitOn(cfg, env, m, c, id, attempt, op);
      if op.until == 0 {
        m' := RetryOrFail(id, env, attempt, "sleep opcode missing until", m, m');
        return;
      }
      store.SaveStepResult(cfg.runId, StepRow(op.key, op.stepId, OpSleep, StepSleeping, Absent, "", attempt, op.until));
      m' := NextHop(id, env, Some(op.until), m, m');
      SavedIs(c.db, m'.db, StepRow(op.key, op.stepId, OpSleep, StepSleeping, Absent, "", attempt, op.until));
    }

    method HandleSendEvent(id: ItemId, env: Surroundings, attempt: nat, op: Opcode, ghost m: RunSt, ghost c: RunSt)
      returns (ghost m': RunSt)
      requires At(store, cfg, c, id) && Flies(cfg, env, m, c, id) && c.flights[id].pc == Apply(attempt, op)
      requires FreshItem(c, env.newId) && op.SendEvent?
      modifies store
      ensures store.db == old(store.db)[cfg.runId := m'.db]
      ensures Flies(cfg, env, m, m', id) && id !in m'.flights
      ensures Applied(cfg, env, id, attempt, op, c.db, m'.db)
    {
      m' := CommitSend(cfg, env, m, c, id, attempt, op);
      if op.events == [] {
        m' := RetryOrFail(id, env, attempt, "send_event: no events", m, m');
        return;
      }
      var ids, bad := FanOut(cfg.runId, op.key, op.events);
      if bad {
        m' := RetryOrFail(id, env, attempt, "send_event: event name required", m, m');
        return;
      }
      store.SaveStepResult(cfg.runId, StepRow(op.key, op.stepId, OpSendEvent, StepCompleted, EventIds(ids), "", attempt, 0));
      m' := NextHop(id, env, None, m, m');
      SavedIs(c.db, m'.db, StepRow(op.key, op.stepId, OpSendEvent, StepCompleted, EventIds(ids), "", attempt, 0));
      assert FannedOut(cfg.runId, op.key, op.events, ids);
    }

    /** Memo, wait, then the queue item goes; nothing is enqueued. */
    method HandleWaitForEvent(id: ItemId, env: Surroundings, attempt: nat, op: Opcode, ghost m: RunSt, ghost c: RunSt)
      returns (ghost m': RunSt)
      requires At(store, cfg, c, id) && Flies(cfg, env, m, c, id) && c.flights[id].pc == Apply(attempt, op)
      requires FreshItem(c, env.newId) && op.WaitForEvent?
      modifies store
      ensures store.db == old(store.db)[cfg.runId := m'.db]
      ensures Flies(cfg, env, m, m', id) && id !in m'.flights
      ensures Applied(cfg, env, id, attempt, op, c.db, m'.db)
    {
      m' := CommitWait(cfg, env, m, c, id, attempt, op);
      if op.event == "" {
        m' := RetryOrFail(id, env, attempt, "wait_for_event: event name required", m, m');
        return;
      }
      if op.timeout.Malformed? {
        m' := RetryOrFail(id, env, attempt, "wait_for_event: invalid timeout", m, m');
        return;
      }
      var expires := if op.timeout.After? then Some(env.now + op.timeout.d) else None;
      m' := SaveWait(id, env, attempt, op.key, Wait(op.stepId, op.event, op.pattern, expires, Waiting), m, c.db, m');
      WaitOpened(c.db, m'.db, op.key, op.stepId, op.event, op.pattern, op.timeout, env.now, expires);
    }

    method SaveWait(id: ItemId, env: Surroundings, attempt: nat, key: Hash, w: Wait, ghost m: RunSt, ghost d: RunDb, ghost c: RunSt)
      returns (ghost m': RunSt)
      requires cfg.runId in store.db && store.db[cfg.runId] == d && id in c.flights
      requires c.db == d.SaveStep(StepRow(key, w.stepId, OpWait, StepWaiting, Absent, "", attempt, 0))
      requires Flies(cfg, env, m, c, id) && c.flights[id].pc == OpenWait(key, w)
      modifies store
      ensures store.db == old(store.db)[cfg.runId := m'.db]
      ensures Flies(cfg, env, m, m', id) && id !in m'.flights
      ensures DispatchEffects.Saved(d, m'.db, StepRow(key, w.stepId, OpWait, StepWaiting, Absent, "", attempt, 0))
      ensures m'.db.waits == d.CreateWait(key, w).waits && m'.db.items == d.items - {id} && m'.db.row == d.row
    {
      store.SaveStepResult(cfg.runId, StepRow(key, w.stepId, OpWait, StepWaiting, Absent, "", attempt, 0));
      m' := Suspend(id, env, key, w, m, c);
      SavedIs(d, m'.db, StepRow(key, w.stepId, OpWait, StepWaiting, Absent, "", attempt, 0));
    }

    /** CreateWait, then CompleteQueueItem: from here on the wait stands for the run. */
    method Suspend(id: ItemId, env: Surroundings, key: Hash, w: Wait, ghost m: RunSt, ghost c: RunSt)
      returns (ghost m': RunSt)
      requires At(store, cfg, c, id) && Flies(cfg, env, m, c, id) && c.flights[id].pc == OpenWait(key, w)
      modifies store
      ensures store.db == old(store.db)[cfg.runId := m'.db]
      ensures Flies(cfg, env, m, m', id) && id !in m'.flights
      ensures m'.db == c.db.CreateWait(key, w).(items := c.db.items - {id})
    {
      store.CreateWait(cfg.runId, key, w);
      FliesOn(cfg, env, m, c, id, OpenIt);
      m' := FlyNext(cfg, c, id, OpenIt);
      m' := CompleteItem(id, env, m, m');
    }

    /** CompleteQueueItem, then Enqueue at `until` or now. */
    method NextHop(id: ItemId, env: Surroundings, until: Option<Time>, ghost m: RunSt, ghost c: RunSt)
      returns (ghost m': RunSt)
      requires At(store, cfg, c, id) && Flies(cfg, env, m, c, id) && c.flights[id].pc == Drop(until)
      requires FreshItem(c, env.newId)
      modifies store
      ensures store.db == old(store.db)[cfg.runId := m'.db]
      ensures Flies(cfg, env, m, m', id) && id !in m'.flights
      ensures GoesOn(env, id, if until.Some? then until.value else env.now, c.db, m'.db) && m'.db.steps == c.db.steps
    {
      store.CompleteQueueItem(cfg.runId, id);
      m' := DropOn(cfg, env, m, c, id, until);
      store.Enqueue(cfg.runId, env.newId, if until.Some? then until.value else env.now);
      FliesOn(cfg, env, m, m', id, HopIt(env.newId, env.now));
      m' := FlyNext(cfg, m', id, HopIt(env.newId, env.now));
    }

    method RetryOrFail(id: ItemId, env: Surroundings, attempt: nat, msg: string, ghost m: RunSt, ghost c: RunSt)
      returns (ghost m': RunSt)
      requires At(store, cfg, c, id) && Flies(cfg, env, m, c, id) && c.flights[id].pc == Retry(attempt, msg)
      modifies store
      ensures store.db == old(store.db)[cfg.runId := m'.db]
      ensures Flies(cfg, env, m, m', id) && id !in m'.flights
      ensures Retried(cfg, env, id, attempt, msg, c.db, m'.db) && m'.db.steps == c.db.steps
    {
      FliesOn(cfg, env, m, c, id, RetryIt(env.retryAt));
      m' := FlyNext(cfg, c, id, RetryIt(env.retryAt));
      if attempt >= cfg.maxAttempts {
        m' := FailRun(id, env, msg, m, m');
        return;
      }
      store.ReleaseLease(cfg.runId, id, env.retryAt);
    }

    /** `failRun`, then the queue item goes. */
    method FailRun(id: ItemId, env: Surroundings, msg: string, ghost m: RunSt, ghost c: RunSt)
      returns (ghost m': RunSt)
      requires At(store, cfg, c, id) && Flies(cfg, env, m, c, id) && c.flights[id].pc == GiveUp(msg)
      modifies store
      ensures store.db == old(store.db)[cfg.runId := m'.db]
      ensures Flies(cfg, env, m, m', id) && id !in m'.flights
      ensures m'.db == c.db.(row := m'.db.row, items := c.db.items - {id})
      ensures m'.db.row == if c.db.Live() then RunRow(Failed, c.db.row.output, msg, c.db.row.attempt, Some(env.now)) else c.db.row
    {
      store.FailRun(cfg.runId, msg, env.now);
      FliesOn(cfg, env, m, c, id, FailIt(env.now));
      m' := FlyNext(cfg, c, id, FailIt(env.now));
      m' := CompleteItem(id, env, m, m');
    }

    method CompleteItem(id: ItemId, env: Surroundings, ghost m: RunSt, ghost c: RunSt)
      returns (ghost m': RunSt)
      requires At(store, cfg, c, id) && Flies(cfg, env, m, c, id) && (c.flights[id].pc.Sweep? || c.flights[id].pc.Spent?)
      modifies store
      ensures store.db == old(store.db)[cfg.runId := m'.db]
      ensures Flies(cfg, env, m, m', id) && id !in m'.flights
      ensures m'.db == c.db.(items := c.db.items - {id})
    {
      store.CompleteQueueItem(cfg.runId, id);
      FliesOn(cfg, env, m, c, id, SweepIt);
      m' := FlyNext(cfg, c, id, SweepIt);
    }
  }
}
