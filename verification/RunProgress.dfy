/** What every crash-free interleaving keeps on top of RunSafety: a live run is never
    stranded, each wait is resumed once, and the number of callbacks is bounded. */
module RunProgress {
  import opened StepKeys
  import opened Sdk
  import opened RunStore
  import opened RunMachine
  import opened ProgramOrder
  import opened RunSafety
  import opened Wrappers

  predicate LastIs(rows: seq<StepRow>, status: StepStatus) {
    rows != [] && rows[|rows| - 1].status == status
  }

  predicate Awake(rows: seq<StepRow>) {
    !LastIs(rows, StepSleeping) && !LastIs(rows, StepWaiting)
  }

  /** No sleep is pending that asked for an instant after `t`. */
  predicate SleptBy(rows: seq<StepRow>, t: Time) {
    !LastIs(rows, StepWaiting) && (LastIs(rows, StepSleeping) ==> rows[|rows| - 1].until <= t)
  }

  /** The last row's status fits the place the run goes on from. */
  predicate Timed(s: RunSt, o: Option<Token>) {
    var rows := s.db.steps;
    match o
    case None => true
    case Some(ItemTok(id)) => id in s.db.items && SleptBy(rows, s.db.items[id].at)
    case Some(RunnerTok) => Awake(rows)
    case Some(WaitTok(_)) => !s.runner.Saved? ==> LastIs(rows, StepWaiting)
    case Some(FlightTok(id)) =>
      id in s.flights &&
      (match s.flights[id].pc
       case Drop(u) => !LastIs(rows, StepWaiting) && (LastIs(rows, StepSleeping) ==> u.Some? && rows[|rows| - 1].until <= u.value)
       case Hop(u) => !LastIs(rows, StepWaiting) && (LastIs(rows, StepSleeping) ==> u.Some? && rows[|rows| - 1].until <= u.value)
       case OpenWait(_, _) => LastIs(rows, StepWaiting)
       case Load(_) => Awake(rows)
       case Calling(_, _) => Awake(rows)
       case Recheck(_, _) => Awake(rows)
       case Apply(_, _) => Awake(rows)
       case Retry(_, _) => Awake(rows)
       case GiveUp(_) => true
       case Sweep => !s.db.Live()
       case _ => SleptBy(rows, s.flights[id].leasedAt))
  }

  /** Steps the run has got past or is suspended on. */
  function Reached(rows: seq<StepRow>): nat {
    if LastIs(rows, StepFailed) then |rows| - 1 else |rows|
  }

  /** Every attempt ends by reaching one more step or by failing. */
  predicate Counted(cfg: Config, s: RunSt, o: Option<Token>) {
    var a, d, f, c := s.db.row.attempt, Reached(s.db.steps), s.stats.failures, s.stats.callbacks;
    match o
    case None => a <= d + cfg.maxAttempts && f <= cfg.maxAttempts && c <= a
    case Some(FlightTok(id)) =>
      id in s.flights &&
      (match s.flights[id].pc
       case Mark(n) => n == a == d + f + 1 && f < cfg.maxAttempts && c + 1 == a
       case Wake(n) => n == a == d + f + 1 && f < cfg.maxAttempts && c + 1 == a
       case Load(n) => n == a == d + f + 1 && f < cfg.maxAttempts && c + 1 == a
       case Calling(n, _) => n == a == d + f + 1 && f < cfg.maxAttempts && c == a
       case Recheck(n, _) => n == a == d + f + 1 && f < cfg.maxAttempts && c == a
       case Apply(n, _) => n == a == d + f + 1 && f < cfg.maxAttempts && c == a
       case Retry(n, _) => n == a == d + f && f <= cfg.maxAttempts && c == a
       case GiveUp(_) => a <= d + cfg.maxAttempts && f <= cfg.maxAttempts && c <= a
       case Sweep => a <= d + cfg.maxAttempts && f <= cfg.maxAttempts && c <= a
       case _ => a == d + f && f < cfg.maxAttempts && c == a)
    case _ => a == d + f && f < cfg.maxAttempts && c == a
  }

  predicate Calm(cfg: Config, s: RunSt, o: Option<Token>) {
    && (s.db.Live() ==> o.Some?)
    && (forall id :: id in s.db.items && id !in s.flights ==> !s.db.items[id].leased)
    && Timed(s, o)
    && Counted(cfg, s, o)
  }

  ghost predicate Quiet(cfg: Config, s: RunSt, o: Option<Token>) {
    Inv(cfg, s, o) && Calm(cfg, s, o)
  }

  lemma InitQuiet(cfg: Config)
    requires cfg.maxAttempts > 0
    ensures Quiet(cfg, Init(), Some(RunnerTok))
  {
    InitInv(cfg);
  }

  /** The place a run goes on from is determined by its state. */
  lemma SoleUnique(s: RunSt, o: Option<Token>, t: Token)
    requires Sole(s, o) && Holds(s, t)
    ensures o == Some(t)
  {}

  lemma {:induction false} LeaseQuiet(cfg: Config, s: RunSt, o: Option<Token>, id: ItemId, now: Time)
    requires Quiet(cfg, s, o) && Enabled(cfg, s, Lease(id, now))
    ensures Quiet(cfg, Next(cfg, s, Lease(id, now)), Some(FlightTok(id)))
  {
    LeaseInv(cfg, s, o, id, now);
    SoleUnique(s, o, ItemTok(id));
  }

  lemma CommitRows(cfg: Config, s: RunSt, id: ItemId, r: StepRow)
    requires InOrder(cfg, s) && Awake(s.db.steps)
    requires cfg.handler(cfg.input, Committed(s)).Call?
    requires r.key == KeyAt(cfg.handler, cfg.functionId, cfg.input, Committed(s))
    ensures var u := Upsert(s.db.steps, r);
            && u != [] && u[|u| - 1].status == r.status && u[|u| - 1].until == r.until
            && Reached(u) == Reached(s.db.steps) + if r.status.StepFailed? then 0 else 1
  {
    CommitNext(cfg.handler, cfg.functionId, cfg.input, s.db.steps, r);
  }

  predicate Writes(op: Opcode) {
    || op.StepComplete? || op.StepError?
    || (op.Sleep? && op.until != 0)
    || (op.SendEvent? && Sendable(op.events))
    || (op.WaitForEvent? && Waitable(op.event, op.timeout))
  }

  /** What the opcode switch does when it writes a memo. */
  lemma ApplyWrites(cfg: Config, s: RunSt, id: ItemId, n: nat, op: Opcode, now: Time) returns (r: StepRow)
    requires id in s.flights && Writes(op)
    ensures r.key == op.key && r.until == (if op.Sleep? then op.until else 0)
    ensures r.status == (if op.StepError? then StepFailed else if op.Sleep? then StepSleeping
                         else if op.WaitForEvent? then StepWaiting else StepCompleted)
    ensures var s' := ApplyOp(cfg, s, id, n, op, now);
            && s'.db == s.db.SaveStep(r) && s'.runner == s.runner && s'.flights.Keys == s.flights.Keys
            && s'.stats == s.stats.(failures := s.stats.failures + if op.StepError? then 1 else 0)
            && s'.flights == s.flights[id := s'.flights[id]]
            && s'.flights[id].leasedAt == s.flights[id].leasedAt
            && match op
               case StepError(_, _, _) => s'.flights[id].pc.Retry? && s'.flights[id].pc.attempt == n
               case Sleep(_, _, u) => s'.flights[id].pc == Drop(Some(u))
               case WaitForEvent(_, _, _, _, _) => s'.flights[id].pc.OpenWait?
               case _ => s'.flights[id].pc == Drop(None)
  {
    match op {
      case StepComplete(k, sid, out) => r := StepRow(k, sid, OpRun, StepCompleted, out, "", n, 0);
      case StepError(k, sid, msg) => r := StepRow(k, sid, OpRun, StepFailed, Absent, OrElse(msg, "step error"), n, 0);
      case Sleep(k, sid, until) => r := StepRow(k, sid, OpSleep, StepSleeping, Absent, "", n, until);
      case SendEvent(k, sid, events) =>
        r := StepRow(k, sid, OpSendEvent, StepCompleted, EventIds(OutIds(cfg.runId, k, events)), "", n, 0);
      case WaitForEvent(k, sid, event, pattern, timeout) => r := StepRow(k, sid, OpWait, StepWaiting, Absent, "", n, 0);
    }
  }

  /** What writing `r` makes of the run, and where it leaves the dispatch. */
  predicate Wrote(s: RunSt, s': RunSt, id: ItemId, n: nat, r: StepRow) {
    && s'.db == s.db.SaveStep(r) && s'.runner == s.runner && s'.flights.Keys == s.flights.Keys && id in s'.flights
    && s'.stats == s.stats.(failures := s.stats.failures + if r.status.StepFailed? then 1 else 0)
    && match r.status
       case StepFailed => s'.flights[id].pc.Retry? && s'.flights[id].pc.attempt == n
       case StepSleeping => s'.flights[id].pc == Drop(Some(r.until))
       case StepWaiting => s'.flights[id].pc.OpenWait?
       case StepCompleted => s'.flights[id].pc == Drop(None)
  }

  lemma ApplyWrote(cfg: Config, s: RunSt, id: ItemId, n: nat, op: Opcode, now: Time) returns (r: StepRow)
    requires id in s.flights && Writes(op)
    ensures r.key == op.key && Wrote(s, ApplyOp(cfg, s, id, n, op, now), id, n, r)
  {
    r := ApplyWrites(cfg, s, id, n, op, now);
  }

  /** An opcode that writes a memo row. */
  lemma {:induction false} WriteCalm(cfg: Config, s: RunSt, s': RunSt, id: ItemId, r: StepRow)
    requires id in s.flights && s.flights[id].pc.Apply? && Calm(cfg, s, Some(FlightTok(id)))
    requires Wrote(s, s', id, s.flights[id].pc.attempt, r)
    requires var rows := s.db.SaveStep(r).steps; rows != [] && rows[|rows| - 1].status == r.status && rows[|rows| - 1].until == r.until
    requires Reached(s.db.SaveStep(r).steps) == Reached(s.db.steps) + if r.status.StepFailed? then 0 else 1
    ensures Calm(cfg, s', Some(FlightTok(id)))
  {}

  /** An opcode that writes none. */
  lemma {:induction false} NoWriteCalm(cfg: Config, s: RunSt, id: ItemId, now: Time)
    requires id in s.flights && s.flights[id].pc.Apply? && Calm(cfg, s, Some(FlightTok(id)))
    requires !Writes(s.flights[id].pc.op)
    ensures Calm(cfg, FlyNext(cfg, s, id, Commit(now)), Some(FlightTok(id)))
  {
    var n, op := s.flights[id].pc.attempt, s.flights[id].pc.op;
    var s' := ApplyOp(cfg, s, id, n, op, now);
    assert FlyNext(cfg, s, id, Commit(now)) == s';
    assert op.RunComplete? || s' == FailAttempt(s, id, n, s'.flights[id].pc.msg);
  }

  lemma CommitIs(cfg: Config, s: RunSt, id: ItemId, now: Time)
    requires id in s.flights && s.flights[id].pc.Apply?
    ensures FlyNext(cfg, s, id, Commit(now)) == ApplyOp(cfg, s, id, s.flights[id].pc.attempt, s.flights[id].pc.op, now)
  {
  }

  /** The rows after the switch has written a memo. */
  lemma WrittenRows(cfg: Config, s: RunSt, id: ItemId, r: StepRow, op: Opcode)
    requires InOrder(cfg, s) && Awake(s.db.steps) && Writes(op) && r.key == op.key
    requires Reports(cfg.handler, cfg.functionId, cfg.input, Committed(s), op)
    ensures var u := s.db.SaveStep(r).steps;
            && u != [] && u[|u| - 1].status == r.status && u[|u| - 1].until == r.until
            && Reached(u) == Reached(s.db.steps) + if r.status.StepFailed? then 0 else 1
  {
    WritesCall(cfg, s, op);
    CommitRows(cfg, s, id, r);
  }

  lemma WritesCall(cfg: Config, s: RunSt, op: Opcode)
    requires Writes(op) && Reports(cfg.handler, cfg.functionId, cfg.input, Committed(s), op)
    ensures cfg.handler(cfg.input, Committed(s)).Call?
    ensures op.key == KeyAt(cfg.handler, cfg.functionId, cfg.input, Committed(s))
  {}

  lemma {:induction false} WriteQuiet(cfg: Config, s: RunSt, id: ItemId, now: Time)
    requires id in s.flights && s.flights[id].pc.Apply? && Writes(s.flights[id].pc.op)
    requires InOrder(cfg, s) && Calm(cfg, s, Some(FlightTok(id)))
    requires Reports(cfg.handler, cfg.functionId, cfg.input, Committed(s), s.flights[id].pc.op)
    ensures Calm(cfg, ApplyOp(cfg, s, id, s.flights[id].pc.attempt, s.flights[id].pc.op, now), Some(FlightTok(id)))
  {
    var n, op := s.flights[id].pc.attempt, s.flights[id].pc.op;
    var r := ApplyWrote(cfg, s, id, n, op, now);
    WrittenRows(cfg, s, id, r, op);
    WriteCalm(cfg, s, ApplyOp(cfg, s, id, n, op, now), id, r);
  }

  lemma {:induction false} CommitQuiet(cfg: Config, s: RunSt, id: ItemId, now: Time)
    requires Quiet(cfg, s, Some(FlightTok(id))) && id in s.flights && s.flights[id].pc.Apply?
    ensures Calm(cfg, FlyNext(cfg, s, id, Commit(now)), Some(FlightTok(id)))
  {
    assert Reports(cfg.handler, cfg.functionId, cfg.input, Committed(s), s.flights[id].pc.op);
    if Writes(s.flights[id].pc.op) {
      CommitIs(cfg, s, id, now);
      WriteQuiet(cfg, s, id, now);
    } else {
      NoWriteCalm(cfg, s, id, now);
    }
  }

  /** The steps up to the callback, but for the first and the wake-up. */
  lemma {:induction false} FlyCalmFirst(cfg: Config, s: RunSt, id: ItemId, step: FlightStep)
    requires CanFly(cfg, s, id, step) && Opening(s.flights[id].pc) && !s.flights[id].pc.Start? && !step.WakeIt?
    requires Calm(cfg, s, Some(FlightTok(id))) && Shape(s)
    ensures Calm(cfg, FlyNext(cfg, s, id, step), FlyOwner(cfg, s.flights[id].pc, id, step))
  {
  }

  lemma {:induction false} StartCalm(cfg: Config, s: RunSt, id: ItemId, step: FlightStep)
    requires CanFly(cfg, s, id, step) && s.flights[id].pc.Start?
    requires Calm(cfg, s, Some(FlightTok(id))) && Shape(s)
    ensures Calm(cfg, FlyNext(cfg, s, id, step), FlyOwner(cfg, s.flights[id].pc, id, step))
  {
  }

  /** The wake-up. */
  lemma {:induction false} WakeCalm(cfg: Config, s: RunSt, id: ItemId)
    requires id in s.flights && s.flights[id].pc.Wake? && InOrder(cfg, s) && Calm(cfg, s, Some(FlightTok(id)))
    ensures Calm(cfg, FlyNext(cfg, s, id, WakeIt), Some(FlightTok(id)))
  {
    WakeLast(cfg.handler, cfg.functionId, cfg.input, s.db);
  }

  /** The steps from the callback on. */
  lemma {:induction false} FlyCalmLast(cfg: Config, s: RunSt, id: ItemId, step: FlightStep)
    requires CanFly(cfg, s, id, step) && !step.Commit? && !Opening(s.flights[id].pc) && !s.flights[id].pc.Spent?
    requires Calm(cfg, s, Some(FlightTok(id))) && Shape(s)
    requires s.flights[id].pc.OpenWait? ==> !s.runner.Saved?
    ensures Calm(cfg, FlyNext(cfg, s, id, step), FlyOwner(cfg, s.flights[id].pc, id, step))
  {
  }

  lemma {:induction false} FlyQuiet(cfg: Config, s: RunSt, o: Option<Token>, id: ItemId, step: FlightStep) returns (o': Option<Token>)
    requires Quiet(cfg, s, o) && CanFly(cfg, s, id, step)
    ensures Quiet(cfg, FlyNext(cfg, s, id, step), o')
  {
    o' := FlyInv(cfg, s, o, id, step);
    if s.flights[id].pc.Spent? {
      SpentCalm(cfg, s, o, id);
    } else if step.Commit? {
      CommitQuiet(cfg, s, id, step.now);
    } else if step.WakeIt? {
      WakeCalm(cfg, s, id);
    } else if s.flights[id].pc.Start? {
      StartCalm(cfg, s, id, step);
    } else if Opening(s.flights[id].pc) {
      FlyCalmFirst(cfg, s, id, step);
    } else {
      FlyCalmLast(cfg, s, id, step);
    }
  }

  /** The last step of a dispatch whose run a wait has taken over. */
  lemma {:induction false} SpentCalm(cfg: Config, s: RunSt, o: Option<Token>, id: ItemId)
    requires id in s.flights && s.flights[id].pc.Spent? && Calm(cfg, s, o)
    requires Sole(s, o)
    ensures Calm(cfg, FlyNext(cfg, s, id, SweepIt), o)
  {
    assert !Holds(s, FlightTok(id)) && !Holds(s, ItemTok(id));
  }

  /** Cancel and timeout. */
  lemma {:induction false} StopQuiet(cfg: Config, s: RunSt, o: Option<Token>, row: RunRow) returns (o': Option<Token>)
    requires Quiet(cfg, s, o) && s.db.Live()
    requires (row.status == Cancelled || row.status == Failed) && row.endedAt.Some? && row.attempt == s.db.row.attempt
    ensures Quiet(cfg, s.(db := s.db.(row := row).WithoutPending()), o')
  {
    o' := StopInv(cfg, s, o, row);
    if o.Some? && o.value.ItemTok? {
      assert Holds(s, o.value);
    }
  }

  lemma {:induction false} EndQuiet(cfg: Config, s: RunSt, o: Option<Token>, a: Act) returns (o': Option<Token>)
    requires Quiet(cfg, s, o) && (a.CancelRun? || a.TimeoutRun?)
    ensures Quiet(cfg, Next(cfg, s, a), o')
  {
    o' := o;
    if s.db.Live() {
      var row := if a.CancelRun? then s.db.row.(status := Cancelled, endedAt := Some(a.now))
                 else s.db.row.(status := Failed, error := a.msg, endedAt := Some(a.now));
      o' := StopQuiet(cfg, s, o, row);
    }
  }

  /** The runner looks at a wait. */
  lemma {:induction false} SeeQuiet(cfg: Config, s: RunSt, o: Option<Token>, a: Act)
    requires Quiet(cfg, s, o) && Enabled(cfg, s, a) && (a.SeeEvent? || a.SeeExpired?)
    ensures Quiet(cfg, Next(cfg, s, a), o)
  {
    SoleUnique(s, o, WaitTok(a.key));
    if Next(cfg, s, a) != s {
      SeeInv(cfg, s, o, a.key, Next(cfg, s, a).runner);
    }
  }

  /** The runner's writes for a wait. */
  lemma {:induction false} SaveMemoQuiet(cfg: Config, s: RunSt, o: Option<Token>)
    requires Quiet(cfg, s, o) && s.runner.Saw?
    ensures Quiet(cfg, Next(cfg, s, SaveMemo), o)
  {
    SaveMemoInv(cfg, s, o);
    SaveMemoCalm(cfg, s, o);
  }

  lemma {:induction false} SettleQuiet(cfg: Config, s: RunSt, o: Option<Token>)
    requires Quiet(cfg, s, o) && s.runner.Saved?
    ensures Quiet(cfg, Next(cfg, s, SettleWait), Some(RunnerTok))
  {
    SettleInv(cfg, s, o);
  }

  lemma {:induction false} ClearQuiet(cfg: Config, s: RunSt, o: Option<Token>)
    requires Quiet(cfg, s, o) && s.runner.Clear?
    ensures Quiet(cfg, Next(cfg, s, ClearWait), None)
  {
    ClearInv(cfg, s, o);
  }

  /** The runner enqueues. */
  lemma {:induction false} EnqueueQuiet(cfg: Config, s: RunSt, o: Option<Token>, a: Act)
    requires Quiet(cfg, s, o) && Enabled(cfg, s, a) && (a.FirstEnqueue? || a.EnqueueResume?)
    ensures Quiet(cfg, Next(cfg, s, a), Some(ItemTok(a.newId)))
  {
    if a.FirstEnqueue? {
      FirstInv(cfg, s, o, a.newId, a.at);
    } else {
      ResumeInv(cfg, s, o, a.newId, a.now);
    }
    SoleUnique(s, o, RunnerTok);
  }

  lemma {:induction false} RunnerQuiet(cfg: Config, s: RunSt, o: Option<Token>, a: Act) returns (o': Option<Token>)
    requires Quiet(cfg, s, o) && Enabled(cfg, s, a) && RunnersStep(a)
    ensures Quiet(cfg, Next(cfg, s, a), o')
  {
    o' := o;
    match a {
      case FirstEnqueue(newId, _) => EnqueueQuiet(cfg, s, o, a); o' := Some(ItemTok(newId));
      case SeeEvent(_, _) => SeeQuiet(cfg, s, o, a);
      case SeeExpired(_, _) => SeeQuiet(cfg, s, o, a);
      case SaveMemo => SaveMemoQuiet(cfg, s, o);
      case SettleWait => SettleQuiet(cfg, s, o); o' := Some(RunnerTok);
      case EnqueueResume(newId, _) => EnqueueQuiet(cfg, s, o, a); o' := Some(ItemTok(newId));
      case ClearWait => ClearQuiet(cfg, s, o); o' := None;
    }
  }

  /** Every crash-free step of every actor. */
  lemma {:induction false} StepQuiet(cfg: Config, s: RunSt, o: Option<Token>, a: Act) returns (o': Option<Token>)
    requires Quiet(cfg, s, o) && Enabled(cfg, s, a) && !a.Crash?
    ensures Quiet(cfg, Next(cfg, s, a), o')
  {
    if RunnersStep(a) {
      o' := RunnerQuiet(cfg, s, o, a);
    } else if a.Fly? {
      o' := FlyQuiet(cfg, s, o, a.id, a.step);
    } else if a.Lease? {
      LeaseQuiet(cfg, s, o, a.id, a.now);
      o' := Some(FlightTok(a.id));
    } else if a.ClearWaits? {
      o' := ClearAllQuiet(cfg, s, o);
    } else {
      o' := EndQuiet(cfg, s, o, a);
    }
  }

  lemma {:induction false} SaveMemoCalm(cfg: Config, s: RunSt, o: Option<Token>)
    requires Quiet(cfg, s, o) && s.runner.Saw?
    ensures Calm(cfg, Next(cfg, s, SaveMemo), o)
  {
    SaveMemoIs(cfg, s);
    var k := s.runner.key;
    var r := StepRow(k, s.db.waits[k].stepId, OpWait, StepCompleted, s.runner.output, "", 0, 0);
    OverwriteLast(cfg, s, r);
    MemoCalm(cfg, s, Next(cfg, s, SaveMemo), k);
  }

  lemma OverwriteLast(cfg: Config, s: RunSt, r: StepRow)
    requires InOrder(cfg, s) && s.db.steps != [] && r.key == s.db.steps[|s.db.steps| - 1].key
    ensures var u := Upsert(s.db.steps, r); |u| == |s.db.steps| && LastIs(u, r.status)
  {
    UpsertLast(cfg.handler, cfg.functionId, cfg.input, s.db.steps, r);
  }

  /** The memo of the wait that holds the run becomes completed. */
  lemma MemoCalm(cfg: Config, s: RunSt, s': RunSt, k: Hash)
    requires Calm(cfg, s, Some(WaitTok(k))) && s.runner.Saw? && s'.runner.Saved?
    requires s'.db == s.db.(steps := s'.db.steps) && s'.flights == s.flights && s'.stats == s.stats
    requires |s'.db.steps| == |s.db.steps| && LastIs(s'.db.steps, StepCompleted)
    ensures Calm(cfg, s', Some(WaitTok(k)))
  {
  }

  lemma {:induction false} ClearAllQuiet(cfg: Config, s: RunSt, o: Option<Token>) returns (o': Option<Token>)
    requires Quiet(cfg, s, o) && Enabled(cfg, s, ClearWaits)
    ensures Quiet(cfg, Next(cfg, s, ClearWaits), o')
  {
    o' := ClearAllInv(cfg, s, o);
  }

  lemma {:induction false} ExecQuiet(cfg: Config, s: RunSt, o: Option<Token>, acts: seq<Act>) returns (o': Option<Token>)
    requires Quiet(cfg, s, o) && Possible(cfg, s, acts) && CrashFree(acts)
    ensures Quiet(cfg, Exec(cfg, s, acts), o')
    decreases |acts|
  {
    o' := o;
    if acts != [] {
      o' := StepQuiet(cfg, s, o, acts[0]);
      o' := ExecQuiet(cfg, Next(cfg, s, acts[0]), o', acts[1..]);
    }
  }

  /** One continuation per run. In every crash-free interleaving a live run has exactly
      one place to go on from, and a queue item that nobody holds is pending. So no live
      run is stranded and none is worked on twice. */
  lemma OneContinuation(cfg: Config, acts: seq<Act>) returns (t: Token)
    requires cfg.maxAttempts > 0 && Possible(cfg, Init(), acts) && CrashFree(acts)
    requires Exec(cfg, Init(), acts).db.Live()
    ensures var s := Exec(cfg, Init(), acts);
            && Holds(s, t) && (forall u :: Holds(s, u) ==> u == t)
            && (t.ItemTok? ==> !s.db.items[t.id].leased)
  {
    InitQuiet(cfg);
    var o := ExecQuiet(cfg, Init(), Some(RunnerTok), acts);
    t := o.value;
    assert Holds(Exec(cfg, Init(), acts), t);
  }

  /** Without restarts, the number of callbacks of a run whose handler makes at most `steps` step calls:
      at most steps + maxAttempts, of which at most maxAttempts fail. */
  lemma CallbackBound(cfg: Config, acts: seq<Act>, steps: nat)
    requires cfg.maxAttempts > 0 && Possible(cfg, Init(), acts) && CrashFree(acts)
    requires forall outs :: cfg.handler(cfg.input, outs).Call? ==> |outs| < steps
    ensures var s := Exec(cfg, Init(), acts);
            && s.stats.callbacks <= s.db.row.attempt <= steps + cfg.maxAttempts
            && s.stats.failures <= cfg.maxAttempts
  {
    InitQuiet(cfg);
    var o := ExecQuiet(cfg, Init(), Some(RunnerTok), acts);
    var s := Exec(cfg, Init(), acts);
    ReachedNext(cfg, s, steps);
  }

  lemma ReachedNext(cfg: Config, s: RunSt, steps: nat)
    requires InOrder(cfg, s)
    requires forall outs :: cfg.handler(cfg.input, outs).Call? ==> |outs| < steps
    ensures Reached(s.db.steps) <= |s.db.steps| <= steps
  {
    var rows := s.db.steps;
    if rows != [] {
      assert cfg.handler(cfg.input, Outs(rows)[..|rows| - 1]).Call?;
    }
  }

  /** Without restarts, a run is given up for its attempts only after maxAttempts callbacks: successful
      hops and retries share one counter. */
  lemma GivesUpLate(cfg: Config, acts: seq<Act>, id: ItemId)
    requires cfg.maxAttempts > 0 && Possible(cfg, Init(), acts) && CrashFree(acts)
    requires var s := Exec(cfg, Init(), acts);
             id in s.flights && s.flights[id].pc.Retry? && s.flights[id].pc.attempt >= cfg.maxAttempts
    ensures Exec(cfg, Init(), acts).stats.callbacks >= cfg.maxAttempts
  {
    InitQuiet(cfg);
    var o := ExecQuiet(cfg, Init(), Some(RunnerTok), acts);
    SoleUnique(Exec(cfg, Init(), acts), o, FlightTok(id));
  }

  /** Same memo: nothing but bookkeeping columns differ. */
  predicate SameMemo(r: StepRow, u: StepRow) {
    r.key == u.key && r.stepId == u.stepId && r.op == u.op && r.status == u.status && r.output == u.output
  }

  ghost predicate MemosKept(rows: seq<StepRow>, u: seq<StepRow>) {
    |rows| <= |u| && forall i :: 0 <= i < |rows| && rows[i].status.StepCompleted? ==> SameMemo(rows[i], u[i])
  }

  lemma CommitKeepsRows(cfg: Config, rows: seq<StepRow>, r: StepRow)
    requires Ordered(cfg.handler, cfg.functionId, cfg.input, rows)
    requires cfg.handler(cfg.input, Outs(Done(rows))).Call?
    requires r.key == KeyAt(cfg.handler, cfg.functionId, cfg.input, Outs(Done(rows)))
    ensures MemosKept(rows, Upsert(rows, r))
  {
    forall i | 0 <= i < |rows| && rows[i].status.StepCompleted? ensures Upsert(rows, r)[i] == rows[i] {
      NextKeyIsNew(cfg.handler, cfg.functionId, cfg.input, rows, i);
    }
  }

  /** Writing the last row again: it was not completed, or has this output already. */
  lemma LastKeepsRows(cfg: Config, rows: seq<StepRow>, r: StepRow)
    requires Ordered(cfg.handler, cfg.functionId, cfg.input, rows)
    requires rows != [] && r.key == rows[|rows| - 1].key && r.status.StepCompleted?
    requires rows[|rows| - 1].status.StepCompleted? ==> rows[|rows| - 1].output == r.output
    ensures MemosKept(rows, Upsert(rows, r))
  {
    var n := |rows| - 1;
    forall i | 0 <= i < n ensures rows[i].key != r.key {
      OrderedKeysDiffer(cfg.handler, cfg.functionId, cfg.input, rows, i, n);
    }
    FindRowIs(rows, r.key, n);
  }

  lemma {:induction false} CommitKeeps(cfg: Config, s: RunSt, id: ItemId, now: Time)
    requires Inv(cfg, s, Some(FlightTok(id))) && id in s.flights && s.flights[id].pc.Apply?
    ensures MemosKept(s.db.steps, FlyNext(cfg, s, id, Commit(now)).db.steps)
  {
    var n, op := s.flights[id].pc.attempt, s.flights[id].pc.op;
    assert Reports(cfg.handler, cfg.functionId, cfg.input, Committed(s), op);
    assert FlyNext(cfg, s, id, Commit(now)) == ApplyOp(cfg, s, id, n, op, now);
    if Writes(op) {
      var r := ApplyWrites(cfg, s, id, n, op, now);
      CommitKeepsRows(cfg, s.db.steps, r);
    }
  }

  /** Which steps of a dispatch touch the memos and the waits. */
  lemma FlyFrame(cfg: Config, s: RunSt, id: ItemId, step: FlightStep)
    requires CanFly(cfg, s, id, step)
    ensures FlyNext(cfg, s, id, step).runner == s.runner
    ensures FlyNext(cfg, s, id, step).stats.resumes == s.stats.resumes
    ensures !step.Commit? && !step.WakeIt? ==> FlyNext(cfg, s, id, step).db.steps == s.db.steps
    ensures step.WakeIt? ==> FlyNext(cfg, s, id, step).db.steps == s.db.CompleteSleeping().steps
    ensures !step.OpenIt? ==> FlyNext(cfg, s, id, step).db.waits == s.db.waits
    ensures step.OpenIt? ==> FlyNext(cfg, s, id, step).db.waits
                             == s.db.CreateWait(s.flights[id].pc.key, s.flights[id].pc.wait).waits
    ensures step.Commit? ==> s.flights[id].pc.Apply?
    ensures step.WakeIt? ==> s.flights[id].pc.Wake?
    ensures step.OpenIt? ==> s.flights[id].pc.OpenWait?
  {}

  /** Which steps of the other actors touch the memos and the waits. */
  lemma OtherFrame(cfg: Config, s: RunSt, a: Act)
    requires !a.Fly?
    ensures !a.SaveMemo? ==> Next(cfg, s, a).db.steps == s.db.steps
    ensures !a.SettleWait? && !a.ClearWait? && !a.ClearWaits? ==> Next(cfg, s, a).db.waits == s.db.waits
  {}

  lemma {:induction false} ExecSplit(cfg: Config, s: RunSt, acts: seq<Act>, n: nat)
    requires n <= |acts| && Possible(cfg, s, acts)
    ensures Possible(cfg, s, acts[..n]) && Possible(cfg, Exec(cfg, s, acts[..n]), acts[n..])
    ensures Exec(cfg, s, acts) == Exec(cfg, Exec(cfg, s, acts[..n]), acts[n..])
    decreases n
  {
    if n > 0 {
      ExecSplit(cfg, Next(cfg, s, acts[0]), acts[1..], n - 1);
      assert acts[..n][1..] == acts[1..][..n - 1];
      assert acts[1..][n - 1..] == acts[n..];
    } else {
      assert acts[0..] == acts;
    }
  }

  lemma {:induction false} StepKeepsSettled(cfg: Config, s: RunSt, o: Option<Token>, a: Act, k: Hash)
    requires Inv(cfg, s, o) && Enabled(cfg, s, a) && Tame(s, a)
    requires k in s.db.waits && s.db.waits[k].status != Waiting
    ensures k in Next(cfg, s, a).db.waits && Next(cfg, s, a).db.waits[k] == s.db.waits[k]
  {
    if a.Fly? {
      FlyFrame(cfg, s, a.id, a.step);
    } else {
      OtherFrame(cfg, s, a);
      if a.SettleWait? || a.ClearWait? {
        assert Holds(s, WaitTok(s.runner.key)) <==> o == Some(WaitTok(s.runner.key));
      }
    }
  }

  lemma {:induction false} ExecKeepsSettled(cfg: Config, s: RunSt, o: Option<Token>, acts: seq<Act>, k: Hash)
    requires Inv(cfg, s, o) && Possible(cfg, s, acts)
    requires k in s.db.waits && s.db.waits[k].status != Waiting
    ensures k in Exec(cfg, s, acts).db.waits && Exec(cfg, s, acts).db.waits[k] == s.db.waits[k]
    decreases |acts|
  {
    if acts != [] {
      StepKeepsSettled(cfg, s, o, acts[0], k);
      var o' := StepInv(cfg, s, o, acts[0]);
      ExecKeepsSettled(cfg, Next(cfg, s, acts[0]), o', acts[1..], k);
    }
  }

  /** Each wait leaves `waiting` at most once: from the point where it has, its final status
      never changes. This one holds across restarts too. */
  lemma WaitSettlesOnce(cfg: Config, acts: seq<Act>, n: nat, k: Hash)
    requires Possible(cfg, Init(), acts) && n <= |acts|
    requires var s := Exec(cfg, Init(), acts[..n]); k in s.db.waits && s.db.waits[k].status != Waiting
    ensures k in Exec(cfg, Init(), acts).db.waits
    ensures Exec(cfg, Init(), acts).db.waits[k] == Exec(cfg, Init(), acts[..n]).db.waits[k]
  {
    InitInv(cfg);
    ExecSplit(cfg, Init(), acts, n);
    var o := ExecInv(cfg, Init(), Some(RunnerTok), acts[..n]);
    ExecKeepsSettled(cfg, Exec(cfg, Init(), acts[..n]), o, acts[n..], k);
  }

  function SettledKeys(d: RunDb): set<Hash> {
    set k | k in d.waits && (d.waits[k].status == Resolved || d.waits[k].status == TimedOut)
  }

  /** Resume items enqueued so far and the one the runner is about to enqueue. */
  function ResumesDue(s: RunSt): nat {
    s.stats.resumes + if s.runner.Resume? then 1 else 0
  }

  lemma {:induction false} FlyCountsResumes(cfg: Config, s: RunSt, o: Option<Token>, id: ItemId, step: FlightStep)
    requires Inv(cfg, s, o) && CanFly(cfg, s, id, step)
    ensures SettledKeys(FlyNext(cfg, s, id, step).db) == SettledKeys(s.db)
    ensures ResumesDue(FlyNext(cfg, s, id, step)) == ResumesDue(s)
  {
    FlyFrame(cfg, s, id, step);
    if step.OpenIt? { SoleUnique(s, o, FlightTok(id)); }
  }

  lemma {:induction false} StepCountsResumes(cfg: Config, s: RunSt, o: Option<Token>, a: Act)
    requires Inv(cfg, s, o) && Enabled(cfg, s, a) && !a.Crash?
    requires |SettledKeys(s.db)| == ResumesDue(s)
    ensures |SettledKeys(Next(cfg, s, a).db)| == ResumesDue(Next(cfg, s, a))
  {
    if a.Fly? {
      FlyCountsResumes(cfg, s, o, a.id, a.step);
    } else if a.SettleWait? || a.ClearWait? {
      SettleCounts(cfg, s, o, a);
    } else {
      OtherFrame(cfg, s, a);
      assert SettledKeys(Next(cfg, s, a).db) == SettledKeys(s.db);
    }
  }

  lemma {:induction false} SettleCounts(cfg: Config, s: RunSt, o: Option<Token>, a: Act)
    requires Inv(cfg, s, o) && Enabled(cfg, s, a) && (a.SettleWait? || a.ClearWait?)
    requires |SettledKeys(s.db)| == ResumesDue(s)
    ensures |SettledKeys(Next(cfg, s, a).db)| == ResumesDue(Next(cfg, s, a))
  {
    var s' := Next(cfg, s, a);
    var k := s.runner.key;
    assert Holds(s, WaitTok(k)) <==> o == Some(WaitTok(k));
    assert k !in SettledKeys(s.db);
    if a.SettleWait? {
      assert SettledKeys(s'.db) == SettledKeys(s.db) + {k};
    } else {
      assert SettledKeys(s'.db) == SettledKeys(s.db);
    }
  }

  lemma {:induction false} ExecCountsResumes(cfg: Config, s: RunSt, o: Option<Token>, acts: seq<Act>)
    requires Inv(cfg, s, o) && Possible(cfg, s, acts) && CrashFree(acts)
    requires |SettledKeys(s.db)| == ResumesDue(s)
    ensures |SettledKeys(Exec(cfg, s, acts).db)| == ResumesDue(Exec(cfg, s, acts))
    decreases |acts|
  {
    if acts != [] {
      StepCountsResumes(cfg, s, o, acts[0]);
      var o' := StepInv(cfg, s, o, acts[0]);
      ExecCountsResumes(cfg, Next(cfg, s, acts[0]), o', acts[1..]);
    }
  }

  /** Without restarts, each wait that is resolved or timed out adds exactly one resume item, however the
      executor's writes interleave with the runner's. */
  lemma OneResumePerWait(cfg: Config, acts: seq<Act>)
    requires Possible(cfg, Init(), acts) && CrashFree(acts)
    ensures var s := Exec(cfg, Init(), acts);
            |SettledKeys(s.db)| == s.stats.resumes + if s.runner.Resume? then 1 else 0
  {
    InitInv(cfg);
    ExecCountsResumes(cfg, Init(), Some(RunnerTok), acts);
  }
}
