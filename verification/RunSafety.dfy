/** What every interleaving keeps, restarts included: a run has at most one place
    from which it can go on, and its step rows stay in program order. */
module RunSafety {
  import opened StepKeys
  import opened Sdk
  import opened RunStore
  import opened RunMachine
  import opened ProgramOrder
  import opened Wrappers

  /** The places a run can go on from: a queue item nobody holds, a dispatch (from the
      lease to its hand-over), a waiting wait, or whoever is about to enqueue an item. */
  datatype Token = ItemTok(id: ItemId) | FlightTok(id: ItemId) | WaitTok(key: Hash) | RunnerTok

  predicate Holds(s: RunSt, t: Token) {
    match t
    case ItemTok(id) => id in s.db.items && id !in s.flights
    case FlightTok(id) => id in s.flights && !s.flights[id].pc.Spent?
    case WaitTok(k) => k in s.db.waits && s.db.waits[k].status == Waiting
    case RunnerTok => s.runner.Create? || s.runner.Resume?
  }

  ghost predicate Sole(s: RunSt, o: Option<Token>) {
    forall t :: Holds(s, t) <==> o == Some(t)
  }

  predicate Shape(s: RunSt) {
    forall id :: id in s.flights ==>
      if s.flights[id].pc.Hop? then id !in s.db.items
      else id in s.db.items && s.db.items[id].leased
  }

  ghost predicate InOrder(cfg: Config, s: RunSt) {
    Ordered(cfg.handler, cfg.functionId, cfg.input, s.db.steps)
  }

  function Committed(s: RunSt): seq<Json> {
    Outs(Done(s.db.steps))
  }

  ghost predicate Placed(cfg: Config, s: RunSt, o: Option<Token>) {
    match o
    case Some(FlightTok(id)) =>
      id in s.flights &&
      (match s.flights[id].pc
       case Calling(_, memos) => memos == CompletedMemos(s.db.steps)
       case Recheck(_, op) => Reports(cfg.handler, cfg.functionId, cfg.input, Committed(s), op)
       case Apply(_, op) => Reports(cfg.handler, cfg.functionId, cfg.input, Committed(s), op)
       case OpenWait(k, w) =>
         && s.db.steps != [] && s.db.steps[|s.db.steps| - 1].key == k
         && !s.db.steps[|s.db.steps| - 1].status.StepCompleted?
         && k !in s.db.waits && w.status == Waiting
       case _ => true)
    case Some(WaitTok(k)) => s.db.steps != [] && s.db.steps[|s.db.steps| - 1].key == k
    case _ => true
  }

  /** The memo of a settled wait is the outcome the wait was settled with. */
  ghost predicate SettledBy(cfg: Config, rows: seq<StepRow>, k: Hash, w: Wait) {
    exists i :: 0 <= i < |rows| && rows[i].key == k && rows[i].status.StepCompleted?
                && Settles(cfg, w, rows[i].output, w.status)
  }

  ghost predicate WaitsOk(cfg: Config, s: RunSt, o: Option<Token>) {
    forall k :: k in s.db.waits ==>
      match s.db.waits[k].status
      case Waiting => true
      case WaitCancelled => o == None
      case _ => SettledBy(cfg, s.db.steps, k, s.db.waits[k])
  }

  ghost predicate RunnerOk(cfg: Config, s: RunSt, o: Option<Token>) {
    match s.runner
    case Saw(k, out, final) =>
      o == Some(WaitTok(k)) && k in s.db.waits && Settles(cfg, s.db.waits[k], out, final)
    case Saved(k, out, final) =>
      && o == Some(WaitTok(k)) && k in s.db.waits && Settles(cfg, s.db.waits[k], out, final)
      && s.db.steps != [] && s.db.steps[|s.db.steps| - 1].status.StepCompleted?
      && s.db.steps[|s.db.steps| - 1].output == out
    case Clear(k) => o == Some(WaitTok(k)) && s.db.row.status.Terminal()
    case _ => true
  }

  /** A completed run carries what its handler returns after the committed outputs,
      and nothing can write its rows any more. */
  ghost predicate ResultOk(cfg: Config, s: RunSt, o: Option<Token>) {
    s.db.row.status == Completed ==>
      && cfg.handler(cfg.input, Committed(s)) == Return(s.db.row.output)
      && match o
         case None => true
         case Some(ItemTok(_)) => true
         case Some(FlightTok(id)) => id in s.flights && (s.flights[id].pc.Start? || s.flights[id].pc.Sweep?)
         case _ => false
  }

  ghost predicate Inv(cfg: Config, s: RunSt, o: Option<Token>) {
    && Sole(s, o)
    && Shape(s)
    && InOrder(cfg, s)
    && Placed(cfg, s, o)
    && WaitsOk(cfg, s, o)
    && RunnerOk(cfg, s, o)
    && ResultOk(cfg, s, o)
    && EndedIffTerminal(s.db)
  }

  lemma InitInv(cfg: Config)
    ensures Inv(cfg, Init(), Some(RunnerTok))
  {}

  /** A dispatch that is not past its hand-over is the run's one place. */
  lemma Owner(cfg: Config, s: RunSt, o: Option<Token>, t: Token)
    requires Inv(cfg, s, o) && Holds(s, t)
    ensures o == Some(t)
  {}

  lemma SettledStays(cfg: Config, rows: seq<StepRow>, u: seq<StepRow>, m: nat, k: Hash, w: Wait)
    requires SettledBy(cfg, rows, k, w)
    requires m <= |rows| && m <= |u| && rows[..m] == u[..m]
    requires forall i :: m <= i < |rows| ==> rows[i].key != k || !rows[i].status.StepCompleted?
    ensures SettledBy(cfg, u, k, w)
  {
    var i :| 0 <= i < |rows| && rows[i].key == k && rows[i].status.StepCompleted? && Settles(cfg, w, rows[i].output, w.status);
    assert rows[i] == rows[..m][i] == u[..m][i] == u[i];
  }

  /** Every wait of a run that a dispatch is working on is settled, on a finished row. */
  lemma WaitsSettled(cfg: Config, s: RunSt, id: ItemId, k: Hash)
    requires Inv(cfg, s, Some(FlightTok(id))) && k in s.db.waits
    ensures SettledBy(cfg, s.db.steps, k, s.db.waits[k])
  {
    assert Holds(s, WaitTok(k)) <==> Some(FlightTok(id)) == Some(WaitTok(k));
  }

  /** Moves of a dispatch that write nothing. */
  lemma {:induction false} PutInv(cfg: Config, s: RunSt, id: ItemId, pc: Pc)
    requires id in s.flights && Inv(cfg, s, Some(FlightTok(id)))
    requires !s.flights[id].pc.Hop? && !pc.Hop? && !pc.Spent?
    requires Placed(cfg, Put(s, id, pc), Some(FlightTok(id)))
    requires s.db.row.status == Completed ==> pc.Start? || pc.Sweep?
    ensures Inv(cfg, Put(s, id, pc), Some(FlightTok(id)))
  {
    var s' := Put(s, id, pc);
    forall t ensures Holds(s', t) <==> Some(FlightTok(id)) == Some(t) {
      assert Holds(s, t) <==> Some(FlightTok(id)) == Some(t);
    }
  }

  lemma {:induction false} LeaseInv(cfg: Config, s: RunSt, o: Option<Token>, id: ItemId, now: Time)
    requires Inv(cfg, s, o) && Enabled(cfg, s, Lease(id, now))
    ensures Inv(cfg, Next(cfg, s, Lease(id, now)), Some(FlightTok(id)))
  {
    var s' := Next(cfg, s, Lease(id, now));
    Owner(cfg, s, o, ItemTok(id));
    forall t ensures Holds(s', t) <==> Some(FlightTok(id)) == Some(t) {
      assert Holds(s, t) <==> o == Some(t);
    }
  }

  /** ReleaseLease: the item is pending again. */
  lemma {:induction false} ReleaseInv(cfg: Config, s: RunSt, id: ItemId, retryAt: Time)
    requires id in s.flights && Inv(cfg, s, Some(FlightTok(id))) && !s.flights[id].pc.Hop?
    ensures Inv(cfg, End(s.(db := s.db.Release(id, retryAt)), id), Some(ItemTok(id)))
  {
    var s' := End(s.(db := s.db.Release(id, retryAt)), id);
    forall t ensures Holds(s', t) <==> Some(ItemTok(id)) == Some(t) {
      assert Holds(s, t) <==> Some(FlightTok(id)) == Some(t);
    }
  }

  /** Steps of a dispatch that change the run row only. */
  lemma {:induction false} RowInv(cfg: Config, s: RunSt, id: ItemId, row: RunRow)
    requires id in s.flights && Inv(cfg, s, Some(FlightTok(id)))
    requires row.status == Completed ==> s.db.row.status == Completed && row.output == s.db.row.output
    requires row.endedAt.Some? <==> row.status.Terminal()
    requires s.db.row.status.Terminal() ==> row.status.Terminal()
    ensures Inv(cfg, s.(db := s.db.(row := row)), Some(FlightTok(id)))
  {
    var s' := s.(db := s.db.(row := row));
    forall t ensures Holds(s', t) <==> Some(FlightTok(id)) == Some(t) {
      assert Holds(s, t) <==> Some(FlightTok(id)) == Some(t);
    }
  }

  /** A settled wait is on a finished row, so it keeps its memo when the next result is
      written, and that result is not its own. */
  lemma {:induction false} UpsertKeepsSettled(cfg: Config, rows: seq<StepRow>, r: StepRow, k: Hash, w: Wait)
    requires Ordered(cfg.handler, cfg.functionId, cfg.input, rows) && SettledBy(cfg, rows, k, w)
    requires cfg.handler(cfg.input, Outs(Done(rows))).Call?
    requires r.key == KeyAt(cfg.handler, cfg.functionId, cfg.input, Outs(Done(rows)))
    ensures SettledBy(cfg, Upsert(rows, r), k, w) && k != r.key
  {
    var i :| 0 <= i < |rows| && rows[i].key == k && rows[i].status.StepCompleted? && Settles(cfg, w, rows[i].output, w.status);
    NextKeyIsNew(cfg.handler, cfg.functionId, cfg.input, rows, i);
    assert Upsert(rows, r)[i] == rows[i];
  }

  lemma SaveKeepsWaits(cfg: Config, s: RunSt, id: ItemId, r: StepRow, k: Hash)
    requires Inv(cfg, s, Some(FlightTok(id))) && k in s.db.waits
    requires cfg.handler(cfg.input, Committed(s)).Call?
    requires r.key == KeyAt(cfg.handler, cfg.functionId, cfg.input, Committed(s))
    ensures SettledBy(cfg, Upsert(s.db.steps, r), k, s.db.waits[k]) && k != r.key
  {
    WaitsSettled(cfg, s, id, k);
    UpsertKeepsSettled(cfg, s.db.steps, r, k, s.db.waits[k]);
  }

  /** A dispatch writes the result of the next call. */
  lemma {:induction false} SaveInv(cfg: Config, s: RunSt, id: ItemId, r: StepRow, pc: Pc)
    requires id in s.flights && Inv(cfg, s, Some(FlightTok(id))) && s.flights[id].pc.Apply?
    requires cfg.handler(cfg.input, Committed(s)).Call?
    requires r.key == KeyAt(cfg.handler, cfg.functionId, cfg.input, Committed(s))
    requires pc.Drop? || pc.Retry? || (pc.OpenWait? && pc.key == r.key && r.status.StepWaiting? && pc.wait.status == Waiting)
    ensures Inv(cfg, Put(s.(db := s.db.SaveStep(r)), id, pc), Some(FlightTok(id)))
  {
    var o := Some(FlightTok(id));
    var s' := Put(s.(db := s.db.SaveStep(r)), id, pc);
    CommitNext(cfg.handler, cfg.functionId, cfg.input, s.db.steps, r);
    SaveSole(s, id, r, pc);
    assert pc.OpenWait? ==> Placed(cfg, s', o) by {
      if pc.OpenWait? && r.key in s.db.waits { SaveKeepsWaits(cfg, s, id, r, r.key); }
    }
    SaveWaits(cfg, s, id, r, pc);
  }

  lemma SaveWaits(cfg: Config, s: RunSt, id: ItemId, r: StepRow, pc: Pc)
    requires id in s.flights && Inv(cfg, s, Some(FlightTok(id)))
    requires cfg.handler(cfg.input, Committed(s)).Call?
    requires r.key == KeyAt(cfg.handler, cfg.functionId, cfg.input, Committed(s))
    ensures WaitsOk(cfg, Put(s.(db := s.db.SaveStep(r)), id, pc), Some(FlightTok(id)))
  {
    forall k | k in s.db.waits ensures SettledBy(cfg, Upsert(s.db.steps, r), k, s.db.waits[k]) {
      SaveKeepsWaits(cfg, s, id, r, k);
    }
  }

  lemma SaveSole(s: RunSt, id: ItemId, r: StepRow, pc: Pc)
    requires id in s.flights && Sole(s, Some(FlightTok(id))) && !s.flights[id].pc.Spent? && !pc.Spent?
    ensures Sole(Put(s.(db := s.db.SaveStep(r)), id, pc), Some(FlightTok(id)))
  {
    var s' := Put(s.(db := s.db.SaveStep(r)), id, pc);
    forall t ensures Holds(s', t) <==> Some(FlightTok(id)) == Some(t) {
      assert Holds(s, t) <==> Some(FlightTok(id)) == Some(t);
    }
  }

  /** The callback's answer is about the step after the committed ones. */
  lemma {:induction false} RespondInv(cfg: Config, s: RunSt, id: ItemId, resp: Response)
    requires Inv(cfg, s, Some(FlightTok(id))) && CanFly(cfg, s, id, Respond(resp))
    ensures Inv(cfg, FlyNext(cfg, s, id, Respond(resp)), Some(FlightTok(id)))
  {
    if resp.Answer? {
      AnswerReports(cfg.handler, cfg.functionId, cfg.input, s.db.steps, resp.op);
      PutInv(cfg, s, id, Recheck(s.flights[id].pc.attempt, resp.op));
    } else {
      StatsInv(cfg, s, Some(FlightTok(id)), s.stats.(failures := s.stats.failures + 1));
      PutInv(cfg, s.(stats := s.stats.(failures := s.stats.failures + 1)), id, Retry(s.flights[id].pc.attempt, resp.msg));
    }
  }

  lemma StatsInv(cfg: Config, s: RunSt, o: Option<Token>, stats: Stats)
    requires Inv(cfg, s, o)
    ensures Inv(cfg, s.(stats := stats), o)
  {
    var s' := s.(stats := stats);
    forall t ensures Holds(s', t) <==> o == Some(t) {
      assert Holds(s, t) <==> o == Some(t);
    }
  }

  lemma {:induction false} FailInv(cfg: Config, s: RunSt, id: ItemId, attempt: nat, msg: string)
    requires id in s.flights && Inv(cfg, s, Some(FlightTok(id)))
    requires s.flights[id].pc.Apply? || s.flights[id].pc.Calling?
    ensures Inv(cfg, FailAttempt(s, id, attempt, msg), Some(FlightTok(id)))
  {
    var s1 := s.(stats := s.stats.(failures := s.stats.failures + 1));
    StatsInv(cfg, s, Some(FlightTok(id)), s1.stats);
    PutInv(cfg, s1, id, Retry(attempt, msg));
  }

  lemma {:induction false} CompleteInv(cfg: Config, s: RunSt, id: ItemId, out: Json, now: Time)
    requires id in s.flights && Inv(cfg, s, Some(FlightTok(id))) && s.flights[id].pc.Apply?
    requires cfg.handler(cfg.input, Committed(s)) == Return(out)
    ensures Inv(cfg, Put(s.(db := s.db.Complete(out, now)), id, Sweep), Some(FlightTok(id)))
  {
    var s' := Put(s.(db := s.db.Complete(out, now)), id, Sweep);
    forall t ensures Holds(s', t) <==> Some(FlightTok(id)) == Some(t) {
      assert Holds(s, t) <==> Some(FlightTok(id)) == Some(t);
    }
  }

  /** The opcode switch. */
  lemma {:induction false} ApplyInv(cfg: Config, s: RunSt, id: ItemId, now: Time)
    requires id in s.flights && Inv(cfg, s, Some(FlightTok(id))) && s.flights[id].pc.Apply?
    ensures Inv(cfg, FlyNext(cfg, s, id, Commit(now)), Some(FlightTok(id)))
  {
    var n, op := s.flights[id].pc.attempt, s.flights[id].pc.op;
    assert Reports(cfg.handler, cfg.functionId, cfg.input, Committed(s), op);
    assert FlyNext(cfg, s, id, Commit(now)) == ApplyOp(cfg, s, id, n, op, now);
    if op.RunComplete? {
      CompleteInv(cfg, s, id, op.output, now);
    } else if op.RunError? {
      FailInv(cfg, s, id, n, OrElse(op.msg, "run error"));
    } else if op.StepError? {
      ApplyErrorInv(cfg, s, id, n, op);
    } else {
      ApplyKeyedInv(cfg, s, id, n, op, now);
    }
  }

  lemma {:induction false} ApplyErrorInv(cfg: Config, s: RunSt, id: ItemId, n: nat, op: Opcode)
    requires id in s.flights && Inv(cfg, s, Some(FlightTok(id))) && s.flights[id].pc.Apply? && op.StepError?
    requires cfg.handler(cfg.input, Committed(s)).Call?
    requires op.key == KeyAt(cfg.handler, cfg.functionId, cfg.input, Committed(s))
    ensures Inv(cfg, ApplyOp(cfg, s, id, n, op, 0), Some(FlightTok(id)))
  {
    var m := OrElse(op.msg, "step error");
    var r := StepRow(op.key, op.stepId, OpRun, StepFailed, Absent, m, n, 0);
    var saved := Put(s.(db := s.db.SaveStep(r)), id, Retry(n, m));
    SaveInv(cfg, s, id, r, Retry(n, m));
    StatsInv(cfg, saved, Some(FlightTok(id)), s.stats.(failures := s.stats.failures + 1));
    ApplyErrorIs(cfg, s, id, n, op);
  }

  lemma ApplyErrorIs(cfg: Config, s: RunSt, id: ItemId, n: nat, op: Opcode)
    requires id in s.flights && op.StepError?
    ensures var m := OrElse(op.msg, "step error");
            var r := StepRow(op.key, op.stepId, OpRun, StepFailed, Absent, m, n, 0);
            ApplyOp(cfg, s, id, n, op, 0)
            == Put(s.(db := s.db.SaveStep(r)), id, Retry(n, m)).(stats := s.stats.(failures := s.stats.failures + 1))
  {
  }

  lemma {:induction false} ApplyKeyedInv(cfg: Config, s: RunSt, id: ItemId, n: nat, op: Opcode, now: Time)
    requires id in s.flights && Inv(cfg, s, Some(FlightTok(id))) && s.flights[id].pc.Apply?
    requires op.StepComplete? || op.Sleep? || op.SendEvent? || op.WaitForEvent?
    requires cfg.handler(cfg.input, Committed(s)).Call?
    requires op.key == KeyAt(cfg.handler, cfg.functionId, cfg.input, Committed(s))
    ensures Inv(cfg, ApplyOp(cfg, s, id, n, op, now), Some(FlightTok(id)))
  {
    match op {
      case StepComplete(k, sid, out) =>
        SaveInv(cfg, s, id, StepRow(k, sid, OpRun, StepCompleted, out, "", n, 0), Drop(None));
      case Sleep(k, sid, until) =>
        if until == 0 { FailInv(cfg, s, id, n, "sleep opcode missing until"); } else {
          SaveInv(cfg, s, id, StepRow(k, sid, OpSleep, StepSleeping, Absent, "", n, until), Drop(Some(until)));
        }
      case SendEvent(k, sid, events) =>
        if !Sendable(events) { FailInv(cfg, s, id, n, SendProblem(events)); } else {
          SaveInv(cfg, s, id, StepRow(k, sid, OpSendEvent, StepCompleted, EventIds(OutIds(cfg.runId, k, events)), "", n, 0), Drop(None));
        }
      case WaitForEvent(k, sid, event, pattern, timeout) =>
        if !Waitable(event, timeout) { FailInv(cfg, s, id, n, WaitProblem(event)); } else {
          SaveInv(cfg, s, id, StepRow(k, sid, OpWait, StepWaiting, Absent, "", n, 0),
                  OpenWait(k, Wait(sid, event, pattern, ExpiresAt(timeout, now), Waiting)));
        }
    }
  }

  lemma {:induction false} WakeKeepsWaits(cfg: Config, s: RunSt, id: ItemId, k: Hash)
    requires Inv(cfg, s, Some(FlightTok(id))) && k in s.db.waits
    ensures SettledBy(cfg, s.db.CompleteSleeping().steps, k, s.db.waits[k])
  {
    var rows, u := s.db.steps, s.db.CompleteSleeping().steps;
    WaitsSettled(cfg, s, id, k);
    WakeLast(cfg.handler, cfg.functionId, cfg.input, s.db);
    assert rows[..|Done(rows)|] == u[..|Done(rows)|];
    SettledStays(cfg, rows, u, |Done(rows)|, k, s.db.waits[k]);
  }

  /** CompleteSleepingSteps before the callback. */
  lemma {:induction false} WakeInv(cfg: Config, s: RunSt, id: ItemId)
    requires id in s.flights && Inv(cfg, s, Some(FlightTok(id))) && s.flights[id].pc.Wake?
    ensures Inv(cfg, FlyNext(cfg, s, id, WakeIt), Some(FlightTok(id)))
  {
    var o := Some(FlightTok(id));
    var s' := FlyNext(cfg, s, id, WakeIt);
    WakeLast(cfg.handler, cfg.functionId, cfg.input, s.db);
    assert Sole(s', o) by {
      forall t ensures Holds(s', t) <==> o == Some(t) {
        assert Holds(s, t) <==> o == Some(t);
      }
    }
    assert WaitsOk(cfg, s', o) by {
      forall k | k in s.db.waits ensures SettledBy(cfg, s'.db.steps, k, s.db.waits[k]) {
        WakeKeepsWaits(cfg, s, id, k);
      }
    }
  }

  /** CreateWait: the wait takes the run over from the dispatch. */
  lemma {:induction false} OpenInv(cfg: Config, s: RunSt, id: ItemId)
    requires id in s.flights && Inv(cfg, s, Some(FlightTok(id))) && s.flights[id].pc.OpenWait?
    ensures Inv(cfg, FlyNext(cfg, s, id, OpenIt), Some(WaitTok(s.flights[id].pc.key)))
  {
    var s' := FlyNext(cfg, s, id, OpenIt);
    var o' := Some(WaitTok(s.flights[id].pc.key));
    forall t ensures Holds(s', t) <==> o' == Some(t) {
      assert Holds(s, t) <==> Some(FlightTok(id)) == Some(t);
    }
    forall k | k in s.db.waits ensures SettledBy(cfg, s.db.steps, k, s.db.waits[k]) {
      WaitsSettled(cfg, s, id, k);
    }
  }

  /** CompleteQueueItem by a dispatch that goes on to enqueue. */
  lemma {:induction false} DropInv(cfg: Config, s: RunSt, id: ItemId)
    requires id in s.flights && Inv(cfg, s, Some(FlightTok(id))) && s.flights[id].pc.Drop?
    ensures Inv(cfg, FlyNext(cfg, s, id, DropIt), Some(FlightTok(id)))
  {
    var s' := FlyNext(cfg, s, id, DropIt);
    forall t ensures Holds(s', t) <==> Some(FlightTok(id)) == Some(t) {
      assert Holds(s, t) <==> Some(FlightTok(id)) == Some(t);
    }
  }

  lemma {:induction false} HopInv(cfg: Config, s: RunSt, id: ItemId, newId: ItemId, now: Time)
    requires id in s.flights && Inv(cfg, s, Some(FlightTok(id))) && s.flights[id].pc.Hop? && FreshItem(s, newId)
    ensures Inv(cfg, FlyNext(cfg, s, id, HopIt(newId, now)), Some(ItemTok(newId)))
  {
    var s' := FlyNext(cfg, s, id, HopIt(newId, now));
    forall t ensures Holds(s', t) <==> Some(ItemTok(newId)) == Some(t) {
      assert Holds(s, t) <==> Some(FlightTok(id)) == Some(t);
    }
  }

  /** CompleteQueueItem at the end of a dispatch. */
  lemma {:induction false} SweepInv(cfg: Config, s: RunSt, o: Option<Token>, id: ItemId) returns (o': Option<Token>)
    requires id in s.flights && Inv(cfg, s, o) && (s.flights[id].pc.Sweep? || s.flights[id].pc.Spent?)
    ensures Inv(cfg, FlyNext(cfg, s, id, SweepIt), o')
    ensures o' == if s.flights[id].pc.Sweep? then None else o
  {
    var s' := FlyNext(cfg, s, id, SweepIt);
    assert Holds(s, FlightTok(id)) <==> o == Some(FlightTok(id));
    o' := if s.flights[id].pc.Sweep? then None else o;
    forall t ensures Holds(s', t) <==> o' == Some(t) {
      assert Holds(s, t) <==> o == Some(t);
    }
  }

  /** Where the run goes on from after a step of the dispatch that owns it. */
  function FlyOwner(cfg: Config, pc: Pc, id: ItemId, step: FlightStep): Option<Token> {
    match (pc, step)
    case (_, Defer(_)) => Some(ItemTok(id))
    case (_, Admit(granted, _)) => Some(if granted then FlightTok(id) else ItemTok(id))
    case (OpenWait(k, _), OpenIt) => Some(WaitTok(k))
    case (_, HopIt(newId, _)) => Some(ItemTok(newId))
    case (Retry(n, _), RetryIt(_)) => Some(if n >= cfg.maxAttempts then FlightTok(id) else ItemTok(id))
    case (_, SweepIt) => None
    case _ => Some(FlightTok(id))
  }

  /** Steps of a dispatch that keep it the run's one place, by the store call they make. */
  lemma {:induction false} IncrementInv(cfg: Config, s: RunSt, id: ItemId)
    requires id in s.flights && Inv(cfg, s, Some(FlightTok(id))) && s.flights[id].pc.Bump?
    ensures Inv(cfg, FlyNext(cfg, s, id, Increment), Some(FlightTok(id)))
  {
    RowInv(cfg, s, id, s.db.IncrementAttempt().row);
    PutInv(cfg, s.(db := s.db.IncrementAttempt()), id, Mark(s.db.row.attempt + 1));
  }

  lemma {:induction false} MarkInv(cfg: Config, s: RunSt, id: ItemId)
    requires id in s.flights && Inv(cfg, s, Some(FlightTok(id))) && s.flights[id].pc.Mark?
    ensures Inv(cfg, FlyNext(cfg, s, id, MarkIt), Some(FlightTok(id)))
  {
    RowInv(cfg, s, id, s.db.MarkRunning().row);
    assert s.(db := s.db.MarkRunning()) == s.(db := s.db.(row := s.db.MarkRunning().row));
    PutInv(cfg, s.(db := s.db.MarkRunning()), id, if s.db.Live() then Wake(s.flights[id].pc.attempt) else Sweep);
  }

  lemma {:induction false} LoadInv(cfg: Config, s: RunSt, id: ItemId)
    requires id in s.flights && Inv(cfg, s, Some(FlightTok(id))) && s.flights[id].pc.Load?
    ensures Inv(cfg, FlyNext(cfg, s, id, LoadIt), Some(FlightTok(id)))
  {
    var s1 := s.(stats := s.stats.(callbacks := s.stats.callbacks + 1));
    StatsInv(cfg, s, Some(FlightTok(id)), s1.stats);
    PutInv(cfg, s1, id, Calling(s.flights[id].pc.attempt, CompletedMemos(s.db.steps)));
  }

  lemma {:induction false} FailItInv(cfg: Config, s: RunSt, id: ItemId, now: Time)
    requires id in s.flights && Inv(cfg, s, Some(FlightTok(id))) && s.flights[id].pc.GiveUp?
    ensures Inv(cfg, FlyNext(cfg, s, id, FailIt(now)), Some(FlightTok(id)))
  {
    var msg := s.flights[id].pc.msg;
    RowInv(cfg, s, id, s.db.Fail(msg, now).row);
    assert s.(db := s.db.Fail(msg, now)) == s.(db := s.db.(row := s.db.Fail(msg, now).row));
    PutInv(cfg, s.(db := s.db.Fail(msg, now)), id, Sweep);
  }

  lemma {:induction false} CheckInv(cfg: Config, s: RunSt, id: ItemId, step: FlightStep)
    requires Inv(cfg, s, Some(FlightTok(id))) && CanFly(cfg, s, id, step) && (step.ReadRun? || step.RecheckIt?)
    ensures Inv(cfg, FlyNext(cfg, s, id, step), Some(FlightTok(id)))
  {
    PutInv(cfg, s, id, FlyNext(cfg, s, id, step).flights[id].pc);
  }

  lemma {:induction false} AdmitInv(cfg: Config, s: RunSt, id: ItemId, granted: bool, retryAt: Time)
    requires id in s.flights && Inv(cfg, s, Some(FlightTok(id))) && s.flights[id].pc.Gate?
    ensures Inv(cfg, FlyNext(cfg, s, id, Admit(granted, retryAt)), Some(if granted then FlightTok(id) else ItemTok(id)))
  {
    if granted { PutInv(cfg, s, id, Bump); } else { ReleaseInv(cfg, s, id, retryAt); }
  }

  lemma {:induction false} RetryInv(cfg: Config, s: RunSt, id: ItemId, retryAt: Time)
    requires id in s.flights && Inv(cfg, s, Some(FlightTok(id))) && s.flights[id].pc.Retry?
    ensures Inv(cfg, FlyNext(cfg, s, id, RetryIt(retryAt)),
                Some(if s.flights[id].pc.attempt >= cfg.maxAttempts then FlightTok(id) else ItemTok(id)))
  {
    if s.flights[id].pc.attempt >= cfg.maxAttempts {
      PutInv(cfg, s, id, GiveUp(s.flights[id].pc.msg));
    } else {
      ReleaseInv(cfg, s, id, retryAt);
    }
  }

  predicate Opening(pc: Pc) {
    pc.Start? || pc.Gate? || pc.Bump? || pc.Mark? || pc.Wake? || pc.Load?
  }

  /** The steps of a dispatch up to the callback. */
  lemma {:induction false} OpeningInv(cfg: Config, s: RunSt, id: ItemId, step: FlightStep)
    requires CanFly(cfg, s, id, step) && Opening(s.flights[id].pc) && Inv(cfg, s, Some(FlightTok(id)))
    ensures Inv(cfg, FlyNext(cfg, s, id, step), FlyOwner(cfg, s.flights[id].pc, id, step))
  {
    match step {
      case Defer(t) => ReleaseInv(cfg, s, id, t);
      case ReadRun(_) => CheckInv(cfg, s, id, step);
      case Admit(granted, t) => AdmitInv(cfg, s, id, granted, t);
      case Increment => IncrementInv(cfg, s, id);
      case MarkIt => MarkInv(cfg, s, id);
      case WakeIt => WakeInv(cfg, s, id);
      case LoadIt => LoadInv(cfg, s, id);
    }
  }

  /** The steps from the callback on. */
  lemma {:induction false} ClosingInv(cfg: Config, s: RunSt, id: ItemId, step: FlightStep)
    requires CanFly(cfg, s, id, step) && !Opening(s.flights[id].pc) && !s.flights[id].pc.Spent?
    requires Inv(cfg, s, Some(FlightTok(id)))
    ensures Inv(cfg, FlyNext(cfg, s, id, step), FlyOwner(cfg, s.flights[id].pc, id, step))
  {
    match step {
      case Respond(resp) => RespondInv(cfg, s, id, resp);
      case RecheckIt => CheckInv(cfg, s, id, step);
      case Commit(now) => ApplyInv(cfg, s, id, now);
      case OpenIt => OpenInv(cfg, s, id);
      case DropIt => DropInv(cfg, s, id);
      case HopIt(newId, now) => HopInv(cfg, s, id, newId, now);
      case RetryIt(t) => RetryInv(cfg, s, id, t);
      case FailIt(now) => FailItInv(cfg, s, id, now);
      case SweepIt => var _ := SweepInv(cfg, s, Some(FlightTok(id)), id);
    }
  }

  /** Every step of a dispatch. */
  lemma {:induction false} FlyInv(cfg: Config, s: RunSt, o: Option<Token>, id: ItemId, step: FlightStep) returns (o': Option<Token>)
    requires Inv(cfg, s, o) && CanFly(cfg, s, id, step)
    ensures Inv(cfg, FlyNext(cfg, s, id, step), o')
    ensures if s.flights[id].pc.Spent? then o' == o
            else o == Some(FlightTok(id)) && o' == FlyOwner(cfg, s.flights[id].pc, id, step)
  {
    if s.flights[id].pc.Spent? {
      o' := SweepInv(cfg, s, o, id);
    } else {
      Owner(cfg, s, o, FlightTok(id));
      o' := FlyOwner(cfg, s.flights[id].pc, id, step);
      if Opening(s.flights[id].pc) {
        OpeningInv(cfg, s, id, step);
      } else {
        ClosingInv(cfg, s, id, step);
      }
    }
  }

  /** The first Enqueue after CreateRun. */
  lemma {:induction false} FirstInv(cfg: Config, s: RunSt, o: Option<Token>, newId: ItemId, at: Time)
    requires Inv(cfg, s, o) && Enabled(cfg, s, FirstEnqueue(newId, at))
    ensures Inv(cfg, Next(cfg, s, FirstEnqueue(newId, at)), Some(ItemTok(newId)))
  {
    var s' := Next(cfg, s, FirstEnqueue(newId, at));
    Owner(cfg, s, o, RunnerTok);
    forall t ensures Holds(s', t) <==> Some(ItemTok(newId)) == Some(t) {
      assert Holds(s, t) <==> o == Some(t);
    }
  }

  /** The runner finds a waiting wait: nothing is written yet. */
  lemma {:induction false} SeeInv(cfg: Config, s: RunSt, o: Option<Token>, k: Hash, runner: RunnerPc)
    requires Inv(cfg, s, o) && s.runner.Idle? && k in s.db.waits && s.db.waits[k].status == Waiting
    requires || (runner.Clear? && runner.key == k && s.db.row.status.Terminal())
             || (runner.Saw? && runner.key == k && Settles(cfg, s.db.waits[k], runner.output, runner.final))
    ensures Inv(cfg, s.(runner := runner), o)
  {
    Owner(cfg, s, o, WaitTok(k));
    forall t ensures Holds(s.(runner := runner), t) <==> o == Some(t) {
      assert Holds(s, t) <==> o == Some(t);
    }
  }

  lemma UpsertKeepsOthers(cfg: Config, rows: seq<StepRow>, r: StepRow, k: Hash, w: Wait)
    requires SettledBy(cfg, rows, k, w) && r.key != k
    ensures SettledBy(cfg, Upsert(rows, r), k, w)
  {
    var i :| 0 <= i < |rows| && rows[i].key == k && rows[i].status.StepCompleted? && Settles(cfg, w, rows[i].output, w.status);
    assert Upsert(rows, r)[i] == rows[i];
  }

  lemma {:induction false} SaveMemoWaits(cfg: Config, s: RunSt, k: Hash, r: StepRow)
    requires Inv(cfg, s, Some(WaitTok(k))) && r.key == k
    ensures WaitsOk(cfg, s.(db := s.db.SaveStep(r)), Some(WaitTok(k)))
  {
    assert Holds(s, WaitTok(k)) <==> Some(WaitTok(k)) == Some(WaitTok(k));
    forall j | j in s.db.waits && j != k ensures SettledBy(cfg, Upsert(s.db.steps, r), j, s.db.waits[j]) {
      assert Holds(s, WaitTok(j)) <==> Some(WaitTok(k)) == Some(WaitTok(j));
      UpsertKeepsOthers(cfg, s.db.steps, r, j, s.db.waits[j]);
    }
  }

  /** SaveStepResult by the runner: the wait's memo becomes completed. */
  lemma {:induction false} SaveMemoInv(cfg: Config, s: RunSt, o: Option<Token>)
    requires Inv(cfg, s, o) && s.runner.Saw?
    ensures Inv(cfg, Next(cfg, s, SaveMemo), o)
  {
    var k, out, final := s.runner.key, s.runner.output, s.runner.final;
    var r := StepRow(k, s.db.waits[k].stepId, OpWait, StepCompleted, out, "", 0, 0);
    UpsertLast(cfg.handler, cfg.functionId, cfg.input, s.db.steps, r);
    SaveMemoWaits(cfg, s, k, r);
    SavedInv(cfg, s, k, out, final, Upsert(s.db.steps, r));
    SaveMemoIs(cfg, s);
  }

  lemma SaveMemoIs(cfg: Config, s: RunSt)
    requires s.runner.Saw? && s.runner.key in s.db.waits
    ensures var k, out := s.runner.key, s.runner.output;
            Next(cfg, s, SaveMemo)
            == s.(db := s.db.(steps := Upsert(s.db.steps, StepRow(k, s.db.waits[k].stepId, OpWait, StepCompleted, out, "", 0, 0))),
                  runner := Saved(k, out, s.runner.final))
  {}

  lemma {:induction false} SavedInv(cfg: Config, s: RunSt, k: Hash, out: Json, final: WaitStatus, rows: seq<StepRow>)
    requires Inv(cfg, s, Some(WaitTok(k))) && s.runner == Saw(k, out, final)
    requires Ordered(cfg.handler, cfg.functionId, cfg.input, rows) && rows != []
    requires var last := rows[|rows| - 1]; last.key == k && last.status.StepCompleted? && last.output == out
    requires WaitsOk(cfg, s.(db := s.db.(steps := rows)), Some(WaitTok(k)))
    ensures Inv(cfg, s.(db := s.db.(steps := rows), runner := Saved(k, out, final)), Some(WaitTok(k)))
  {
    var s' := s.(db := s.db.(steps := rows), runner := Saved(k, out, final));
    forall t ensures Holds(s', t) <==> Some(WaitTok(k)) == Some(t) {
      assert Holds(s, t) <==> Some(WaitTok(k)) == Some(t);
    }
  }

  /** SetWaitStatus by the runner: the wait is settled and the runner holds the run. */
  lemma {:induction false} SettleInv(cfg: Config, s: RunSt, o: Option<Token>)
    requires Inv(cfg, s, o) && s.runner.Saved?
    ensures Inv(cfg, Next(cfg, s, SettleWait), Some(RunnerTok))
  {
    var s' := Next(cfg, s, SettleWait);
    var k, rows := s.runner.key, s.db.steps;
    assert Holds(s, WaitTok(k)) <==> o == Some(WaitTok(k));
    assert Sole(s', Some(RunnerTok)) by {
      forall t ensures Holds(s', t) <==> Some(RunnerTok) == Some(t) {
        assert Holds(s, t) <==> o == Some(t);
      }
    }
    var w := s.db.waits[k].(status := s.runner.final);
    assert Settles(cfg, w, s.runner.output, w.status);
    assert rows[|rows| - 1].key == k;
    assert SettledBy(cfg, rows, k, w);
  }

  lemma {:induction false} ResumeInv(cfg: Config, s: RunSt, o: Option<Token>, newId: ItemId, now: Time)
    requires Inv(cfg, s, o) && Enabled(cfg, s, EnqueueResume(newId, now))
    ensures Inv(cfg, Next(cfg, s, EnqueueResume(newId, now)), Some(ItemTok(newId)))
  {
    var s' := Next(cfg, s, EnqueueResume(newId, now));
    Owner(cfg, s, o, RunnerTok);
    forall t ensures Holds(s', t) <==> Some(ItemTok(newId)) == Some(t) {
      assert Holds(s, t) <==> o == Some(t);
    }
  }

  /** The wait of a finished run is cancelled. */
  lemma {:induction false} ClearInv(cfg: Config, s: RunSt, o: Option<Token>)
    requires Inv(cfg, s, o) && s.runner.Clear?
    ensures Inv(cfg, Next(cfg, s, ClearWait), None)
  {
    var s' := Next(cfg, s, ClearWait);
    assert Holds(s, WaitTok(s.runner.key)) <==> o == Some(WaitTok(s.runner.key));
    forall t ensures Holds(s', t) <==> None == Some(t) {
      assert Holds(s, t) <==> o == Some(t);
    }
  }

  /** The waits of a cancelled run are cancelled. */
  lemma {:induction false} ClearAllInv(cfg: Config, s: RunSt, o: Option<Token>) returns (o': Option<Token>)
    requires Inv(cfg, s, o) && Enabled(cfg, s, ClearWaits)
    ensures Inv(cfg, Next(cfg, s, ClearWaits), o')
    ensures o' == if o.Some? && o.value.WaitTok? then None else o
  {
    o' := if o.Some? && o.value.WaitTok? then None else o;
    ClearAllSole(cfg, s, o, o');
    ClearAllWaits(cfg, s, o, o');
  }

  lemma ClearAllSole(cfg: Config, s: RunSt, o: Option<Token>, o': Option<Token>)
    requires Sole(s, o) && o' == if o.Some? && o.value.WaitTok? then None else o
    ensures Sole(Next(cfg, s, ClearWaits), o')
  {
    var s' := Next(cfg, s, ClearWaits);
    forall t ensures Holds(s', t) <==> o' == Some(t) {
      assert Holds(s, t) <==> o == Some(t);
    }
  }

  lemma ClearAllWaits(cfg: Config, s: RunSt, o: Option<Token>, o': Option<Token>)
    requires Sole(s, o) && WaitsOk(cfg, s, o) && o' == if o.Some? && o.value.WaitTok? then None else o
    ensures WaitsOk(cfg, Next(cfg, s, ClearWaits), o')
  {
    forall k | k in s.db.waits && s.db.waits[k].status == Waiting ensures o == Some(WaitTok(k)) {
      assert Holds(s, WaitTok(k));
    }
  }

  /** CancelRun and TimeoutRun: the run ends; a pending item goes, a leased one stays. */
  lemma {:induction false} StopInv(cfg: Config, s: RunSt, o: Option<Token>, row: RunRow) returns (o': Option<Token>)
    requires Inv(cfg, s, o) && s.db.Live()
    requires (row.status == Cancelled || row.status == Failed) && row.endedAt.Some?
    ensures Inv(cfg, s.(db := s.db.(row := row).WithoutPending()), o')
    ensures o' == if o.Some? && o.value.ItemTok? && o.value.id !in s.db.WithoutPending().items then None else o
  {
    var s' := s.(db := s.db.(row := row).WithoutPending());
    o' := if o.Some? && o.value.ItemTok? && o.value.id !in s'.db.items then None else o;
    forall t ensures Holds(s', t) <==> o' == Some(t) {
      assert Holds(s, t) <==> o == Some(t);
    }
  }

  /** A restart outside the window between CreateWait and CompleteQueueItem. */
  lemma {:induction false} CrashInv(cfg: Config, s: RunSt, o: Option<Token>, requeued: set<ItemId>) returns (o': Option<Token>)
    requires Inv(cfg, s, o) && Tame(s, Crash(requeued))
    ensures Inv(cfg, Next(cfg, s, Crash(requeued)), o')
  {
    var s' := Next(cfg, s, Crash(requeued));
    forall id | id in s.flights ensures o == Some(FlightTok(id)) {
      assert Holds(s, FlightTok(id));
    }
    o' := if o.None? then None
    else match o.value
      case FlightTok(id) => if s.flights[id].pc.Hop? then None else Some(ItemTok(id))
      case RunnerTok => None
      case t => Some(t);
    forall t ensures Holds(s', t) <==> o' == Some(t) {
      assert Holds(s, t) <==> o == Some(t);
    }
  }

  /** The steps that create a run, resume it from a wait, or drop its wait. */
  predicate RunnersStep(a: Act) {
    a.SeeEvent? || a.SeeExpired? || a.SaveMemo? || a.SettleWait? || a.ClearWait? || a.FirstEnqueue? || a.EnqueueResume?
  }

  lemma {:induction false} RunnerInv(cfg: Config, s: RunSt, o: Option<Token>, a: Act) returns (o': Option<Token>)
    requires Inv(cfg, s, o) && Enabled(cfg, s, a) && RunnersStep(a)
    ensures Inv(cfg, Next(cfg, s, a), o')
  {
    o' := o;
    match a {
      case FirstEnqueue(newId, at) => FirstInv(cfg, s, o, newId, at); o' := Some(ItemTok(newId));
      case SeeEvent(k, e) =>
        if Next(cfg, s, a) != s { SeeInv(cfg, s, o, k, Next(cfg, s, a).runner); }
      case SeeExpired(k, now) => SeeInv(cfg, s, o, k, Next(cfg, s, a).runner);
      case SaveMemo => SaveMemoInv(cfg, s, o);
      case SettleWait => SettleInv(cfg, s, o); o' := Some(RunnerTok);
      case EnqueueResume(newId, now) => ResumeInv(cfg, s, o, newId, now); o' := Some(ItemTok(newId));
      case ClearWait => ClearInv(cfg, s, o); o' := None;
    }
  }

  /** Every step of every actor keeps the invariant. */
  lemma {:induction false} StepInv(cfg: Config, s: RunSt, o: Option<Token>, a: Act) returns (o': Option<Token>)
    requires Inv(cfg, s, o) && Enabled(cfg, s, a) && Tame(s, a)
    ensures Inv(cfg, Next(cfg, s, a), o')
  {
    o' := o;
    if RunnersStep(a) {
      o' := RunnerInv(cfg, s, o, a);
      return;
    }
    match a {
      case Lease(id, now) => LeaseInv(cfg, s, o, id, now); o' := Some(FlightTok(id));
      case Fly(id, step) => o' := FlyInv(cfg, s, o, id, step);
      case ClearWaits => o' := ClearAllInv(cfg, s, o);
      case CancelRun(now) =>
        if s.db.Live() { o' := StopInv(cfg, s, o, s.db.row.(status := Cancelled, endedAt := Some(now))); }
      case TimeoutRun(msg, now) =>
        if s.db.Live() { o' := StopInv(cfg, s, o, s.db.row.(status := Failed, error := msg, endedAt := Some(now))); }
      case Crash(requeued) => o' := CrashInv(cfg, s, o, requeued);
    }
  }

  lemma {:induction false} ExecInv(cfg: Config, s: RunSt, o: Option<Token>, acts: seq<Act>) returns (o': Option<Token>)
    requires Inv(cfg, s, o) && Possible(cfg, s, acts)
    ensures Inv(cfg, Exec(cfg, s, acts), o')
    decreases |acts|
  {
    o' := o;
    if acts != [] {
      o' := StepInv(cfg, s, o, acts[0]);
      o' := ExecInv(cfg, Next(cfg, s, acts[0]), o', acts[1..]);
    }
  }

  /** In every run of the platform, restarts outside the wait window included: one process
      of it never has two callbacks of one run in flight together. A restart ends the
      dispatches of the process before it; what the application still executes for one of
      them is not among the dispatches any more. */
  lemma OneCallbackInFlight(cfg: Config, acts: seq<Act>, i: ItemId, j: ItemId)
    requires Possible(cfg, Init(), acts)
    requires var s := Exec(cfg, Init(), acts);
             i in s.flights && j in s.flights && s.flights[i].pc.Calling? && s.flights[j].pc.Calling?
    ensures i == j
  {
    InitInv(cfg);
    var o := ExecInv(cfg, Init(), Some(RunnerTok), acts);
    Owner(cfg, Exec(cfg, Init(), acts), o, FlightTok(i));
    Owner(cfg, Exec(cfg, Init(), acts), o, FlightTok(j));
  }

  /** An uninterrupted execution: the handler runs once from the top, its k-th step call
      is answered with `answers[k]`, and it returns right after the last of them. */
  ghost predicate DirectRun(h: Handler, inp: Input, answers: seq<Json>, output: Json) {
    && (forall k :: 0 <= k < |answers| ==> h(inp, answers[..k]).Call?)
    && h(inp, answers) == Return(output)
  }

  /** Replay refines direct execution. Whatever callbacks failed, whatever was requeued
      and whenever the platform restarted, a completed run has the output of one
      uninterrupted execution over the committed outputs, and its step rows in `seq`
      order are that execution's step calls in program order. */
  lemma ReplayRefinesDirect(cfg: Config, acts: seq<Act>)
    requires Possible(cfg, Init(), acts)
    requires Exec(cfg, Init(), acts).db.row.status == Completed
    ensures var s := Exec(cfg, Init(), acts);
            && DirectRun(cfg.handler, cfg.input, Committed(s), s.db.row.output)
            && |Committed(s)| == |s.db.steps|
            && (forall k :: 0 <= k < |s.db.steps| ==>
                  && s.db.steps[k].status.StepCompleted?
                  && s.db.steps[k].output == Committed(s)[k]
                  && s.db.steps[k].key == KeyAt(cfg.handler, cfg.functionId, cfg.input, Committed(s)[..k]))
  {
    InitInv(cfg);
    var o := ExecInv(cfg, Init(), Some(RunnerTok), acts);
    var s := Exec(cfg, Init(), acts);
    var rows := s.db.steps;
    OutsPrefix(rows, |Done(rows)|);
    assert forall k :: 0 <= k < |Done(rows)| ==> Committed(s)[..k] == Outs(rows)[..k];
    assert rows[..|Done(rows)|] == Done(rows);
  }

  /** A wait that is settled as resolved or timed out has a completed memo: the event it
      matched, or null. So the memo is there before the resume item can be leased. */
  lemma SettledWaitHasMemo(cfg: Config, acts: seq<Act>, k: Hash)
    requires Possible(cfg, Init(), acts)
    requires var s := Exec(cfg, Init(), acts);
             k in s.db.waits && (s.db.waits[k].status == Resolved || s.db.waits[k].status == TimedOut)
    ensures var s := Exec(cfg, Init(), acts);
            SettledBy(cfg, s.db.steps, k, s.db.waits[k])
  {
    InitInv(cfg);
    var o := ExecInv(cfg, Init(), Some(RunnerTok), acts);
  }

  lemma FlyKeepsEnd(cfg: Config, s: RunSt, id: ItemId, step: FlightStep)
    requires s.db.row.status.Terminal() && id in s.flights
    ensures FlyNext(cfg, s, id, step).db.row.(attempt := 0) == s.db.row.(attempt := 0)
  {}

  lemma StepKeepsEnd(cfg: Config, s: RunSt, a: Act)
    requires s.db.row.status.Terminal()
    ensures Next(cfg, s, a).db.row.(attempt := 0) == s.db.row.(attempt := 0)
  {
    if a.Fly? && a.id in s.flights { FlyKeepsEnd(cfg, s, a.id, a.step); }
  }

  /** A terminal run stays as it is: its status, its output, its error and its end. */
  lemma {:induction false} TerminalAbsorbs(cfg: Config, s: RunSt, acts: seq<Act>)
    requires s.db.row.status.Terminal()
    ensures Exec(cfg, s, acts).db.row.(attempt := 0) == s.db.row.(attempt := 0)
    decreases |acts|
  {
    if acts != [] {
      StepKeepsEnd(cfg, s, acts[0]);
      TerminalAbsorbs(cfg, Next(cfg, s, acts[0]), acts[1..]);
    }
  }

  lemma RunEndsOnce(cfg: Config, acts: seq<Act>)
    requires Possible(cfg, Init(), acts)
    ensures EndedIffTerminal(Exec(cfg, Init(), acts).db)
  {
    InitInv(cfg);
    var o := ExecInv(cfg, Init(), Some(RunnerTok), acts);
  }
}
