/** Where everything in a run's tables comes from: each memo, item, wait and end is what
    the application, an event, the clock or an operator said in the history before it,
    whatever the interleaving and the restarts. */
module RunOrigins {
  import opened StepKeys
  import opened Sdk
  import opened RunStore
  import opened RunMachine
  import opened ProgramOrder
  import opened RunSafety
  import opened RunProgress
  import opened DispatchEffects
  import opened Wrappers

  /** The application has answered a callback with `op`. */
  ghost predicate Said(done: set<Act>, op: Opcode) {
    exists id: ItemId :: Fly(id, Respond(Answer(op))) in done
  }

  /** A step row is what the application said about that step: the output or the error of
      a step body, the instant of a sleep, the ids of the events sent; the memo of a wait
      is an event that was seen for it, or null when it was seen to have expired. */
  ghost predicate RowFrom(runId: RunId, done: set<Act>, r: StepRow) {
    match r.op
    case OpRun =>
      || (r.status.StepCompleted? && r.error == "" && Said(done, StepComplete(r.key, r.stepId, r.output)))
      || (r.status.StepFailed? && r.output == Absent && FailedWith(done, r))
    case OpSleep =>
      (r.status.StepSleeping? || r.status.StepCompleted?) && r.output == Absent && r.error == "" && Said(done, Sleep(r.key, r.stepId, r.until))
    case OpSendEvent => r.status.StepCompleted? && r.error == "" && SentAs(runId, done, r)
    case OpWait =>
      && WaitSaid(done, r) && r.error == ""
      && ((r.status.StepWaiting? && r.output == Absent) || (r.status.StepCompleted? && SeenFor(done, r.key, r.output)))
  }

  ghost predicate FailedWith(done: set<Act>, r: StepRow) {
    exists msg :: Said(done, StepError(r.key, r.stepId, msg)) && r.error == Text(msg, "step error")
  }

  ghost predicate SentAs(runId: RunId, done: set<Act>, r: StepRow) {
    exists events, ids :: Said(done, SendEvent(r.key, r.stepId, events)) && r.output == EventIds(ids) && FannedOut(runId, r.key, events, ids)
  }

  ghost predicate WaitSaid(done: set<Act>, r: StepRow) {
    exists event, pattern, timeout :: Said(done, WaitForEvent(r.key, r.stepId, event, pattern, timeout))
  }

  ghost predicate SeenFor(done: set<Act>, k: Hash, out: Json) {
    || (out.Arrived? && SeeEvent(k, out.event) in done)
    || (out == Null && exists t: Time :: SeeExpired(k, t) in done)
  }

  ghost predicate RowsFrom(runId: RunId, done: set<Act>, rows: seq<StepRow>) {
    forall i :: 0 <= i < |rows| ==> RowFrom(runId, done, rows[i])
  }

  function KindOf(p: Prim): StepOp {
    match p
    case RunStep => OpRun
    case SleepStep => OpSleep
    case SendStep(_) => OpSendEvent
    case WaitStep(_, _, _) => OpWait
  }

  /** A row has the step id and the kind of a call; that of a SendEvent has the ids of the
      events the handler sends. */
  ghost predicate Fits(runId: RunId, a: Action, r: StepRow) {
    a.Call? ==>
      && r.stepId == a.stepId && r.op == KindOf(a.prim)
      && (a.prim.SendStep? && r.status.StepCompleted? ==>
            exists ids :: r.output == EventIds(ids) && FannedOut(runId, r.key, a.prim.events, ids))
  }

  /** Row i fits the handler's i-th call. */
  ghost predicate Fitting(cfg: Config, rows: seq<StepRow>) {
    forall i :: 0 <= i < |rows| ==> Fits(cfg.runId, cfg.handler(cfg.input, Outs(rows)[..i]), rows[i])
  }

  /** A run that is held by a wait, or about to be, has the row of that wait last. */
  predicate Waiter(s: RunSt, o: Option<Token>) {
    var rows := s.db.steps;
    match o
    case Some(WaitTok(_)) => rows != [] && rows[|rows| - 1].op.OpWait?
    case Some(FlightTok(id)) => id in s.flights && s.flights[id].pc.OpenWait? ==> rows != [] && rows[|rows| - 1].op.OpWait?
    case _ => true
  }

  /** What an opcode is faulted with. */
  predicate Faulty(op: Opcode, msg: string) {
    match op
    case StepError(_, _, m) => msg == Text(m, "step error")
    case RunError(m) => msg == Text(m, "run error")
    case Sleep(_, _, until) => until == 0 && msg == "sleep opcode missing until"
    case SendEvent(_, _, events) =>
      if events == [] then msg == "send_event: no events"
      else (exists e :: e in events && e.name == "") && msg == "send_event: event name required"
    case WaitForEvent(_, _, event, _, timeout) =>
      if event == "" then msg == "wait_for_event: event name required"
      else timeout.Malformed? && msg == "wait_for_event: invalid timeout"
    case _ => false
  }

  /** `msg` is why an attempt failed: in transport, or what an answer was faulted with. */
  ghost predicate Complaint(done: set<Act>, msg: string) {
    || (exists id: ItemId :: Fly(id, Respond(NoAnswer(msg))) in done)
    || (exists op :: Said(done, op) && Faulty(op, msg))
  }

  ghost predicate GivenUpFor(cfg: Config, done: set<Act>, msg: string) {
    || Complaint(done, msg)
    || (msg == "function not registered: " + cfg.functionId && exists id: ItemId :: Fly(id, ReadRun(false)) in done)
  }

  ghost predicate SleepSaid(done: set<Act>, until: Time) {
    exists k, sid :: Said(done, Sleep(k, sid, until))
  }

  ghost predicate PcFrom(cfg: Config, done: set<Act>, pc: Pc) {
    match pc
    case Recheck(_, op) => Said(done, op)
    case Apply(_, op) => Said(done, op)
    case Drop(u) => u.Some? ==> SleepSaid(done, u.value)
    case Hop(u) => u.Some? ==> SleepSaid(done, u.value)
    case Retry(_, msg) => Complaint(done, msg)
    case GiveUp(msg) => GivenUpFor(cfg, done, msg)
    case _ => true
  }

  ghost predicate FlightsFrom(cfg: Config, done: set<Act>, flights: map<ItemId, Flight>) {
    forall id :: id in flights ==> PcFrom(cfg, done, flights[id].pc)
  }

  ghost predicate RunnerFrom(done: set<Act>, runner: RunnerPc) {
    match runner
    case Saw(k, out, _) => SeenFor(done, k, out)
    case Saved(k, out, _) => SeenFor(done, k, out)
    case _ => true
  }

  /** An item is due when whoever put it into the queue said: at the first enqueue or a
      resume, at a next hop or at the end of a sleep, or when it was put back for later. */
  ghost predicate ItemFrom(done: set<Act>, id: ItemId, at: Time) {
    || FirstEnqueue(id, at) in done || EnqueueResume(id, at) in done
    || (exists d: ItemId :: Fly(d, HopIt(id, at)) in done)
    || (SleepSaid(done, at) && exists d: ItemId, now: Time :: Fly(d, HopIt(id, now)) in done)
    || Fly(id, Defer(at)) in done || Fly(id, Admit(false, at)) in done || Fly(id, RetryIt(at)) in done
  }

  ghost predicate ItemsFrom(done: set<Act>, items: map<ItemId, Item>) {
    forall id :: id in items ==> ItemFrom(done, id, items[id].at)
  }

  /** A run ends as the application, a timeout or an operator said, and then. */
  ghost predicate EndFrom(cfg: Config, done: set<Act>, row: RunRow) {
    match row.status
    case Completed =>
      row.endedAt.Some? && row.error == "" && Said(done, RunComplete(row.output)) && exists id: ItemId :: Fly(id, Commit(row.endedAt.value)) in done
    case Failed =>
      && row.endedAt.Some? && row.output == Absent
      && (TimeoutRun(row.error, row.endedAt.value) in done
          || (GivenUpFor(cfg, done, row.error) && exists id: ItemId :: Fly(id, FailIt(row.endedAt.value)) in done))
    case Cancelled => row.endedAt.Some? && row.output == Absent && row.error == "" && Act.CancelRun(row.endedAt.value) in done
    case _ => row.endedAt == None && row.output == Absent && row.error == ""
  }

  /** A throttled run has been granted its slot before an attempt of it counts. */
  ghost predicate AdmittedFirst(cfg: Config, done: set<Act>, s: RunSt) {
    cfg.throttled && (s.db.row.attempt > 0 || exists id :: id in s.flights && s.flights[id].pc.Bump?)
    ==> exists id: ItemId, t: Time :: Fly(id, Admit(true, t)) in done
  }

  ghost predicate From(cfg: Config, done: set<Act>, s: RunSt, o: Option<Token>) {
    && RowsFrom(cfg.runId, done, s.db.steps) && Fitting(cfg, s.db.steps) && Waiter(s, o)
    && FlightsFrom(cfg, done, s.flights) && RunnerFrom(done, s.runner)
    && ItemsFrom(done, s.db.items) && EndFrom(cfg, done, s.db.row) && AdmittedFirst(cfg, done, s)
  }

  // ---------- what was said stays said ----------

  lemma RowGrows(runId: RunId, done: set<Act>, more: set<Act>, r: StepRow)
    requires RowFrom(runId, done, r) && done <= more
    ensures RowFrom(runId, more, r)
  {}

  lemma RowsGrow(runId: RunId, done: set<Act>, more: set<Act>, rows: seq<StepRow>)
    requires RowsFrom(runId, done, rows) && done <= more
    ensures RowsFrom(runId, more, rows)
  {
    forall i | 0 <= i < |rows| ensures RowFrom(runId, more, rows[i]) {
      RowGrows(runId, done, more, rows[i]);
    }
  }

  lemma PcGrows(cfg: Config, done: set<Act>, more: set<Act>, pc: Pc)
    requires PcFrom(cfg, done, pc) && done <= more
    ensures PcFrom(cfg, more, pc)
  {}

  lemma FlightsGrow(cfg: Config, done: set<Act>, more: set<Act>, flights: map<ItemId, Flight>)
    requires FlightsFrom(cfg, done, flights) && done <= more
    ensures FlightsFrom(cfg, more, flights)
  {
    forall id | id in flights ensures PcFrom(cfg, more, flights[id].pc) {
      PcGrows(cfg, done, more, flights[id].pc);
    }
  }

  lemma RunnerGrows(done: set<Act>, more: set<Act>, runner: RunnerPc)
    requires RunnerFrom(done, runner) && done <= more
    ensures RunnerFrom(more, runner)
  {}

  lemma ItemsGrow(done: set<Act>, more: set<Act>, items: map<ItemId, Item>)
    requires ItemsFrom(done, items) && done <= more
    ensures ItemsFrom(more, items)
  {
    forall id | id in items ensures ItemFrom(more, id, items[id].at) {
      assert ItemFrom(done, id, items[id].at);
    }
  }

  lemma EndGrows(cfg: Config, done: set<Act>, more: set<Act>, row: RunRow)
    requires EndFrom(cfg, done, row) && done <= more
    ensures EndFrom(cfg, more, row)
  {}

  // ---------- rows ----------

  /** The row that is written: the one after the finished ones. */
  lemma NextRowIs(cfg: Config, rows: seq<StepRow>, r: StepRow)
    requires Ordered(cfg.handler, cfg.functionId, cfg.input, rows) && Fitting(cfg, rows)
    requires cfg.handler(cfg.input, Outs(Done(rows))).Call? && Fits(cfg.runId, cfg.handler(cfg.input, Outs(Done(rows))), r)
    requires r.key == KeyAt(cfg.handler, cfg.functionId, cfg.input, Outs(Done(rows)))
    ensures var n, u := |Done(rows)|, Upsert(rows, r);
            && |u| == n + 1 && (forall j :: 0 <= j < n ==> u[j] == rows[j])
            && u[n] == r.(attempt := u[n].attempt)
  {
    var n := |Done(rows)|;
    OutsPrefix(rows, n);
    forall i | 0 <= i < n ensures rows[i].key != r.key {
      NextKeyIsNew(cfg.handler, cfg.functionId, cfg.input, rows, i);
    }
    FindRowIs(rows, r.key, n);
    UpsertSaves(rows, r);
  }

  /** Writing the result of the next call. */
  lemma CommitFitting(cfg: Config, rows: seq<StepRow>, r: StepRow)
    requires Ordered(cfg.handler, cfg.functionId, cfg.input, rows) && Fitting(cfg, rows)
    requires cfg.handler(cfg.input, Outs(Done(rows))).Call? && Fits(cfg.runId, cfg.handler(cfg.input, Outs(Done(rows))), r)
    requires r.key == KeyAt(cfg.handler, cfg.functionId, cfg.input, Outs(Done(rows)))
    ensures Fitting(cfg, Upsert(rows, r))
  {
    var n, u := |Done(rows)|, Upsert(rows, r);
    NextRowIs(cfg, rows, r);
    forall i | 0 <= i < |u| ensures Fits(cfg.runId, cfg.handler(cfg.input, Outs(u)[..i]), u[i]) {
      SamePrefix(rows, u, i);
      if i < n {
        assert Fits(cfg.runId, cfg.handler(cfg.input, Outs(rows)[..i]), rows[i]);
      } else {
        OutsPrefix(rows, n);
        assert rows[..n] == Done(rows);
      }
    }
  }

  lemma SamePrefix(rows: seq<StepRow>, u: seq<StepRow>, i: nat)
    requires i <= |rows| && i <= |u| && forall j :: 0 <= j < i ==> u[j].output == rows[j].output
    ensures Outs(u)[..i] == Outs(rows)[..i]
  {}

  lemma CommitRowsFrom(cfg: Config, done: set<Act>, rows: seq<StepRow>, r: StepRow)
    requires Ordered(cfg.handler, cfg.functionId, cfg.input, rows) && Fitting(cfg, rows) && RowsFrom(cfg.runId, done, rows)
    requires cfg.handler(cfg.input, Outs(Done(rows))).Call? && Fits(cfg.runId, cfg.handler(cfg.input, Outs(Done(rows))), r)
    requires r.key == KeyAt(cfg.handler, cfg.functionId, cfg.input, Outs(Done(rows))) && RowFrom(cfg.runId, done, r)
    ensures var u := Upsert(rows, r); RowsFrom(cfg.runId, done, u) && u != [] && u[|u| - 1].op == r.op
  {
    NextRowIs(cfg, rows, r);
  }

  function OpOf(op: Opcode): StepOp {
    match op
    case Sleep(_, _, _) => OpSleep
    case SendEvent(_, _, _) => OpSendEvent
    case WaitForEvent(_, _, _, _, _) => OpWait
    case _ => OpRun
  }

  /** The row an answer makes the platform write is what was said. */
  lemma WritesSaid(cfg: Config, done: set<Act>, s: RunSt, id: ItemId, n: nat, op: Opcode, now: Time) returns (r: StepRow)
    requires id in s.flights && Writes(op) && Said(done, op)
    ensures ApplyOp(cfg, s, id, n, op, now).db == s.db.SaveStep(r)
    ensures r.key == op.key && r.stepId == op.stepId && r.op == OpOf(op) && RowFrom(cfg.runId, done, r)
    ensures op.SendEvent? ==> r.output == EventIds(OutIds(cfg.runId, op.key, op.events))
  {
    match op {
      case StepComplete(k, sid, out) => r := StepRow(k, sid, OpRun, StepCompleted, out, "", n, 0);
      case StepError(k, sid, msg) =>
        r := StepRow(k, sid, OpRun, StepFailed, Absent, OrElse(msg, "step error"), n, 0);
        assert Said(done, StepError(r.key, r.stepId, msg)) && r.error == Text(msg, "step error");
      case Sleep(k, sid, until) => r := StepRow(k, sid, OpSleep, StepSleeping, Absent, "", n, until);
      case SendEvent(k, sid, events) =>
        r := StepRow(k, sid, OpSendEvent, StepCompleted, EventIds(OutIds(cfg.runId, k, events)), "", n, 0);
        assert Said(done, SendEvent(r.key, r.stepId, events)) && FannedOut(cfg.runId, r.key, events, OutIds(cfg.runId, k, events));
      case WaitForEvent(k, sid, event, pattern, timeout) =>
        r := StepRow(k, sid, OpWait, StepWaiting, Absent, "", n, 0);
        assert Said(done, WaitForEvent(r.key, r.stepId, event, pattern, timeout));
    }
  }

  lemma ReportsFits(cfg: Config, s: RunSt, op: Opcode, r: StepRow)
    requires Writes(op) && Reports(cfg.handler, cfg.functionId, cfg.input, Committed(s), op)
    requires r.key == op.key && r.stepId == op.stepId && r.op == OpOf(op)
    requires op.SendEvent? ==> r.output == EventIds(OutIds(cfg.runId, op.key, op.events))
    ensures cfg.handler(cfg.input, Committed(s)).Call? && Fits(cfg.runId, cfg.handler(cfg.input, Committed(s)), r)
    ensures r.key == KeyAt(cfg.handler, cfg.functionId, cfg.input, Committed(s))
  {
    if op.SendEvent? { assert FannedOut(cfg.runId, r.key, op.events, OutIds(cfg.runId, op.key, op.events)); }
  }

  /** The opcode switch. */
  lemma CommitOrigin(cfg: Config, done: set<Act>, s: RunSt, id: ItemId, now: Time)
    requires Inv(cfg, s, Some(FlightTok(id))) && s.flights[id].pc.Apply? && Said(done, s.flights[id].pc.op)
    requires RowsFrom(cfg.runId, done, s.db.steps) && Fitting(cfg, s.db.steps)
    ensures var rows := FlyNext(cfg, s, id, Commit(now)).db.steps;
            && RowsFrom(cfg.runId, done, rows) && Fitting(cfg, rows)
            && (s.flights[id].pc.op.WaitForEvent? && Writes(s.flights[id].pc.op) ==> rows != [] && rows[|rows| - 1].op.OpWait?)
  {
    var n, op := s.flights[id].pc.attempt, s.flights[id].pc.op;
    CommitIs(cfg, s, id, now);
    if Writes(op) {
      var r := WritesSaid(cfg, done, s, id, n, op, now);
      ReportsFits(cfg, s, op, r);
      CommitFitting(cfg, s.db.steps, r);
      CommitRowsFrom(cfg, done, s.db.steps, r);
    } else {
      NoRow(cfg, s, id, n, op, now);
    }
  }

  lemma NoRow(cfg: Config, s: RunSt, id: ItemId, n: nat, op: Opcode, now: Time)
    requires id in s.flights && !Writes(op)
    ensures ApplyOp(cfg, s, id, n, op, now).db.steps == s.db.steps
    ensures id in ApplyOp(cfg, s, id, n, op, now).flights && !ApplyOp(cfg, s, id, n, op, now).flights[id].pc.OpenWait?
  {}

  /** A sleeping row that is woken was a sleep. */
  lemma WakeOrigin(cfg: Config, done: set<Act>, s: RunSt)
    requires RowsFrom(cfg.runId, done, s.db.steps) && Fitting(cfg, s.db.steps)
    ensures RowsFrom(cfg.runId, done, s.db.CompleteSleeping().steps) && Fitting(cfg, s.db.CompleteSleeping().steps)
  {
    var rows, u := s.db.steps, s.db.CompleteSleeping().steps;
    forall i | 0 <= i < |u| ensures RowFrom(cfg.runId, done, u[i]) && Fits(cfg.runId, cfg.handler(cfg.input, Outs(u)[..i]), u[i]) {
      assert RowFrom(cfg.runId, done, rows[i]) && u[i] == WakeRow(rows[i]);
      SamePrefix(rows, u, i);
    }
  }

  /** The runner is about to write the memo of the wait whose row is last. */
  predicate MemoDue(s: RunSt) {
    && s.runner.Saw? && s.runner.key in s.db.waits && s.db.steps != []
    && s.db.steps[|s.db.steps| - 1].key == s.runner.key && s.db.steps[|s.db.steps| - 1].op.OpWait?
  }

  lemma SawPlaced(cfg: Config, s: RunSt, o: Option<Token>)
    requires Inv(cfg, s, o) && s.runner.Saw? && Waiter(s, o)
    ensures MemoDue(s)
  {}

  lemma SaveMemoRows(cfg: Config, s: RunSt)
    requires s.runner.Saw? && s.runner.key in s.db.waits
    ensures var k := s.runner.key;
            Next(cfg, s, SaveMemo).db.steps
            == Upsert(s.db.steps, StepRow(k, s.db.waits[k].stepId, OpWait, StepCompleted, s.runner.output, "", 0, 0))
  {
    SaveMemoIs(cfg, s);
  }

  /** The runner writes the memo of the wait that holds the run. */
  lemma SaveMemoOrigin(cfg: Config, done: set<Act>, s: RunSt)
    requires MemoDue(s) && InOrder(cfg, s) && SeenFor(done, s.runner.key, s.runner.output)
    requires RowsFrom(cfg.runId, done, s.db.steps) && Fitting(cfg, s.db.steps)
    ensures MemoFrom(cfg, done, Next(cfg, s, SaveMemo).db.steps)
  {
    SaveMemoRows(cfg, s);
    var k := s.runner.key;
    var r := StepRow(k, s.db.waits[k].stepId, OpWait, StepCompleted, s.runner.output, "", 0, 0);
    OverwriteOrigin(cfg, done, s.db.steps, r, Next(cfg, s, SaveMemo).db.steps);
  }

  /** Rows whose last is that of a wait. */
  ghost predicate MemoFrom(cfg: Config, done: set<Act>, rows: seq<StepRow>) {
    RowsFrom(cfg.runId, done, rows) && Fitting(cfg, rows) && rows != [] && rows[|rows| - 1].op.OpWait?
  }

  lemma OverwriteOrigin(cfg: Config, done: set<Act>, rows: seq<StepRow>, r: StepRow, u: seq<StepRow>)
    requires Ordered(cfg.handler, cfg.functionId, cfg.input, rows) && RowsFrom(cfg.runId, done, rows) && Fitting(cfg, rows)
    requires rows != [] && rows[|rows| - 1].op.OpWait? && rows[|rows| - 1].key == r.key
    requires r.status.StepCompleted? && r.error == "" && SeenFor(done, r.key, r.output)
    requires u == Upsert(rows, r)
    ensures MemoFrom(cfg, done, u)
  {
    var n := |rows| - 1;
    OverwrittenLast(cfg, rows, r, u);
    assert RowFrom(cfg.runId, done, rows[n]);
    assert WaitSaid(done, u[n]) by {
      var event, pattern, timeout :| Said(done, WaitForEvent(rows[n].key, rows[n].stepId, event, pattern, timeout));
      assert Said(done, WaitForEvent(u[n].key, u[n].stepId, event, pattern, timeout));
    }
    OverwriteFitting(cfg, rows, u);
  }

  lemma OverwrittenLast(cfg: Config, rows: seq<StepRow>, r: StepRow, u: seq<StepRow>)
    requires Ordered(cfg.handler, cfg.functionId, cfg.input, rows) && rows != [] && rows[|rows| - 1].key == r.key
    requires u == Upsert(rows, r)
    ensures var n := |rows| - 1;
            u == rows[n := rows[n].(status := r.status, output := r.output, error := r.error, attempt := rows[n].attempt + 1, until := r.until)]
  {
    var n := |rows| - 1;
    forall i | 0 <= i < n ensures rows[i].key != r.key {
      OrderedKeysDiffer(cfg.handler, cfg.functionId, cfg.input, rows, i, n);
    }
    FindRowIs(rows, r.key, n);
  }

  lemma OverwriteFitting(cfg: Config, rows: seq<StepRow>, u: seq<StepRow>)
    requires Fitting(cfg, rows) && rows != [] && rows[|rows| - 1].op.OpWait? && |u| == |rows|
    requires forall i :: 0 <= i < |rows| - 1 ==> u[i] == rows[i]
    requires u[|rows| - 1].op.OpWait? && u[|rows| - 1].stepId == rows[|rows| - 1].stepId
    ensures Fitting(cfg, u)
  {
    forall i | 0 <= i < |u| ensures Fits(cfg.runId, cfg.handler(cfg.input, Outs(u)[..i]), u[i]) {
      SamePrefix(rows, u, i);
      assert Fits(cfg.runId, cfg.handler(cfg.input, Outs(rows)[..i]), rows[i]);
    }
  }

  // ---------- dispatches ----------

  lemma FlyOthers(cfg: Config, s: RunSt, id: ItemId, step: FlightStep)
    requires id in s.flights
    ensures forall j :: j != id ==> (j in FlyNext(cfg, s, id, step).flights <==> j in s.flights)
    ensures forall j :: j != id && j in s.flights ==> FlyNext(cfg, s, id, step).flights[j] == s.flights[j]
  {}

  lemma CommitPc(cfg: Config, done: set<Act>, s: RunSt, id: ItemId, now: Time)
    requires id in s.flights && s.flights[id].pc.Apply? && Said(done, s.flights[id].pc.op)
    ensures var s' := FlyNext(cfg, s, id, Commit(now)); id in s'.flights && PcFrom(cfg, done, s'.flights[id].pc) && !s'.flights[id].pc.Bump?
    ensures FlyNext(cfg, s, id, Commit(now)).flights[id].pc.OpenWait? ==> s.flights[id].pc.op.WaitForEvent? && Writes(s.flights[id].pc.op)
  {
    CommitIs(cfg, s, id, now);
    ApplyPc(cfg, done, s, id, s.flights[id].pc.attempt, s.flights[id].pc.op, now);
  }

  lemma ApplyPc(cfg: Config, done: set<Act>, s: RunSt, id: ItemId, n: nat, op: Opcode, now: Time)
    requires id in s.flights && Said(done, op)
    ensures var s' := ApplyOp(cfg, s, id, n, op, now); id in s'.flights && PcFrom(cfg, done, s'.flights[id].pc) && !s'.flights[id].pc.Bump?
    ensures ApplyOp(cfg, s, id, n, op, now).flights[id].pc.OpenWait? ==> op.WaitForEvent? && Writes(op)
  {
    var s' := ApplyOp(cfg, s, id, n, op, now);
    if s'.flights[id].pc.Retry? {
      assert Said(done, op) && Faulty(op, s'.flights[id].pc.msg);
    }
  }

  lemma FlyPc(cfg: Config, done: set<Act>, s: RunSt, id: ItemId, step: FlightStep)
    requires CanFly(cfg, s, id, step) && !step.Commit? && PcFrom(cfg, done, s.flights[id].pc) && Fly(id, step) in done
    ensures var s' := FlyNext(cfg, s, id, step); id in s'.flights ==> PcFrom(cfg, done, s'.flights[id].pc) && !s'.flights[id].pc.OpenWait?
  {}

  lemma FlyFlightsFrom(cfg: Config, done: set<Act>, s: RunSt, id: ItemId, step: FlightStep)
    requires CanFly(cfg, s, id, step) && FlightsFrom(cfg, done, s.flights) && Fly(id, step) in done
    ensures FlightsFrom(cfg, done, FlyNext(cfg, s, id, step).flights)
  {
    FlyOthers(cfg, s, id, step);
    if step.Commit? {
      CommitPc(cfg, done, s, id, step.now);
    } else {
      FlyPc(cfg, done, s, id, step);
    }
  }

  lemma FlyItemsFrom(cfg: Config, done: set<Act>, s: RunSt, id: ItemId, step: FlightStep)
    requires CanFly(cfg, s, id, step) && PcFrom(cfg, done, s.flights[id].pc) && ItemsFrom(done, s.db.items) && Fly(id, step) in done
    ensures ItemsFrom(done, FlyNext(cfg, s, id, step).db.items)
  {}

  lemma FlyEndFrom(cfg: Config, done: set<Act>, s: RunSt, id: ItemId, step: FlightStep)
    requires CanFly(cfg, s, id, step) && PcFrom(cfg, done, s.flights[id].pc) && EndFrom(cfg, done, s.db.row) && Fly(id, step) in done
    ensures EndFrom(cfg, done, FlyNext(cfg, s, id, step).db.row)
  {}

  lemma FlyAdmitted(cfg: Config, done: set<Act>, s: RunSt, id: ItemId, step: FlightStep)
    requires CanFly(cfg, s, id, step) && AdmittedFirst(cfg, done, s) && Fly(id, step) in done
    ensures AdmittedFirst(cfg, done, FlyNext(cfg, s, id, step))
  {
    FlyOthers(cfg, s, id, step);
  }

  lemma FlyRowsFrom(cfg: Config, done: set<Act>, s: RunSt, o: Option<Token>, id: ItemId, step: FlightStep)
    requires Inv(cfg, s, o) && CanFly(cfg, s, id, step) && FlightsFrom(cfg, done, s.flights)
    requires RowsFrom(cfg.runId, done, s.db.steps) && Fitting(cfg, s.db.steps)
    ensures RowsFrom(cfg.runId, done, FlyNext(cfg, s, id, step).db.steps) && Fitting(cfg, FlyNext(cfg, s, id, step).db.steps)
  {
    FlyFrame(cfg, s, id, step);
    if step.Commit? {
      SoleUnique(s, o, FlightTok(id));
      CommitOrigin(cfg, done, s, id, step.now);
    } else if step.WakeIt? {
      WakeOrigin(cfg, done, s);
    }
  }

  /** A run that is handed over to a wait has its row last. */
  lemma FlyWaiter(cfg: Config, done: set<Act>, s: RunSt, id: ItemId, step: FlightStep)
    requires Inv(cfg, s, Some(FlightTok(id))) && CanFly(cfg, s, id, step) && Waiter(s, Some(FlightTok(id)))
    requires FlightsFrom(cfg, done, s.flights) && Fly(id, step) in done && !s.flights[id].pc.Spent?
    requires RowsFrom(cfg.runId, done, s.db.steps) && Fitting(cfg, s.db.steps)
    ensures Waiter(FlyNext(cfg, s, id, step), FlyOwner(cfg, s.flights[id].pc, id, step))
  {
    if step.Commit? {
      CommitPc(cfg, done, s, id, step.now);
      CommitOrigin(cfg, done, s, id, step.now);
    } else if step.OpenIt? {
      FlyFrame(cfg, s, id, step);
    } else {
      FlyPc(cfg, done, s, id, step);
    }
  }

  lemma SpentWaiter(cfg: Config, s: RunSt, o: Option<Token>, id: ItemId)
    requires id in s.flights && s.flights[id].pc.Spent? && Waiter(s, o)
    ensures Waiter(FlyNext(cfg, s, id, SweepIt), o)
  {
    assert FlyNext(cfg, s, id, SweepIt) == End(s.(db := s.db.Remove(id)), id);
  }

  lemma FlyFrom(cfg: Config, done: set<Act>, s: RunSt, o: Option<Token>, id: ItemId, step: FlightStep) returns (o': Option<Token>)
    requires Inv(cfg, s, o) && CanFly(cfg, s, id, step) && From(cfg, done, s, o) && Fly(id, step) in done
    ensures Inv(cfg, FlyNext(cfg, s, id, step), o') && From(cfg, done, FlyNext(cfg, s, id, step), o')
  {
    o' := FlyInv(cfg, s, o, id, step);
    FlyRowsFrom(cfg, done, s, o, id, step);
    if s.flights[id].pc.Spent? {
      SpentWaiter(cfg, s, o, id);
    } else {
      FlyWaiter(cfg, done, s, id, step);
    }
    FlyFlightsFrom(cfg, done, s, id, step);
    FlyFrame(cfg, s, id, step);
    FlyItemsFrom(cfg, done, s, id, step);
    FlyEndFrom(cfg, done, s, id, step);
    FlyAdmitted(cfg, done, s, id, step);
  }

  // ---------- the other actors ----------

  /** The step of another actor: rows. */
  lemma OtherRowsFrom(cfg: Config, done: set<Act>, s: RunSt, o: Option<Token>, a: Act)
    requires Inv(cfg, s, o) && Enabled(cfg, s, a) && !a.Fly? && Waiter(s, o) && RunnerFrom(done, s.runner)
    requires RowsFrom(cfg.runId, done, s.db.steps) && Fitting(cfg, s.db.steps)
    ensures RowsFrom(cfg.runId, done, Next(cfg, s, a).db.steps) && Fitting(cfg, Next(cfg, s, a).db.steps)
  {
    OtherFrame(cfg, s, a);
    if a.SaveMemo? {
      SawPlaced(cfg, s, o);
      SaveMemoOrigin(cfg, done, s);
    }
  }

  lemma OtherItemsFrom(cfg: Config, done: set<Act>, s: RunSt, a: Act)
    requires !a.Fly? && a in done && ItemsFrom(done, s.db.items)
    ensures ItemsFrom(done, Next(cfg, s, a).db.items)
  {
    forall i | i in Next(cfg, s, a).db.items ensures ItemFrom(done, i, Next(cfg, s, a).db.items[i].at) {
      if i in s.db.items { assert ItemFrom(done, i, s.db.items[i].at); }
    }
  }

  lemma OtherEndFrom(cfg: Config, done: set<Act>, s: RunSt, a: Act)
    requires !a.Fly? && a in done && EndFrom(cfg, done, s.db.row)
    ensures EndFrom(cfg, done, Next(cfg, s, a).db.row)
  {}

  lemma OtherFlightsFrom(cfg: Config, done: set<Act>, s: RunSt, a: Act)
    requires !a.Fly? && FlightsFrom(cfg, done, s.flights) && AdmittedFirst(cfg, done, s)
    ensures FlightsFrom(cfg, done, Next(cfg, s, a).flights) && AdmittedFirst(cfg, done, Next(cfg, s, a))
  {}

  lemma OtherRunnerFrom(cfg: Config, done: set<Act>, s: RunSt, a: Act)
    requires !a.Fly? && Enabled(cfg, s, a) && a in done && RunnerFrom(done, s.runner)
    ensures RunnerFrom(done, Next(cfg, s, a).runner)
  {}

  lemma OtherWaiter(cfg: Config, done: set<Act>, s: RunSt, o: Option<Token>, a: Act, o': Option<Token>)
    requires Inv(cfg, s, o) && Enabled(cfg, s, a) && !a.Fly? && Waiter(s, o) && Inv(cfg, Next(cfg, s, a), o')
    requires RowsFrom(cfg.runId, done, s.db.steps) && Fitting(cfg, s.db.steps) && RunnerFrom(done, s.runner)
    ensures Waiter(Next(cfg, s, a), o')
  {
    var s' := Next(cfg, s, a);
    if a.SaveMemo? {
      SawPlaced(cfg, s, o);
      SaveMemoOrigin(cfg, done, s);
    } else if o'.Some? && o'.value.WaitTok? {
      assert Holds(s', o'.value);
      WaitHeld(cfg, s, o, a, o'.value.key);
    } else if o'.Some? && o'.value.FlightTok? {
      FlightHeld(cfg, s, o, a, o');
    }
  }

  /** A wait that holds the run held it before, and the rows are the same. */
  lemma WaitHeld(cfg: Config, s: RunSt, o: Option<Token>, a: Act, k: Hash)
    requires Inv(cfg, s, o) && Enabled(cfg, s, a) && !a.Fly? && !a.SaveMemo? && Holds(Next(cfg, s, a), WaitTok(k))
    ensures o == Some(WaitTok(k)) && Next(cfg, s, a).db.steps == s.db.steps
  {
    OtherFrame(cfg, s, a);
    if a.SettleWait? || a.ClearWait? {
      assert s.runner.key in s.db.waits ==> Next(cfg, s, a).db.waits[s.runner.key].status != Waiting;
    }
    SoleUnique(s, o, WaitTok(k));
  }

  lemma FlightHeld(cfg: Config, s: RunSt, o: Option<Token>, a: Act, o': Option<Token>)
    requires Inv(cfg, s, o) && Enabled(cfg, s, a) && !a.Fly? && !a.SaveMemo? && Waiter(s, o)
    requires o'.Some? && o'.value.FlightTok? && Inv(cfg, Next(cfg, s, a), o')
    ensures Waiter(Next(cfg, s, a), o')
  {
    var s', id := Next(cfg, s, a), o'.value.id;
    assert Holds(s', o'.value);
    OtherFrame(cfg, s, a);
    if id in s.flights && !a.Crash? {
      SoleUnique(s, o, FlightTok(id));
    }
  }

  lemma OtherFrom(cfg: Config, done: set<Act>, s: RunSt, o: Option<Token>, a: Act) returns (o': Option<Token>)
    requires Inv(cfg, s, o) && Enabled(cfg, s, a) && Tame(s, a) && !a.Fly? && From(cfg, done, s, o) && a in done
    ensures Inv(cfg, Next(cfg, s, a), o') && From(cfg, done, Next(cfg, s, a), o')
  {
    o' := StepInv(cfg, s, o, a);
    OtherRowsFrom(cfg, done, s, o, a);
    OtherWaiter(cfg, done, s, o, a, o');
    OtherItemsFrom(cfg, done, s, a);
    OtherEndFrom(cfg, done, s, a);
    OtherFlightsFrom(cfg, done, s, a);
    OtherRunnerFrom(cfg, done, s, a);
  }

  // ---------- histories ----------

  lemma FromGrows(cfg: Config, done: set<Act>, more: set<Act>, s: RunSt, o: Option<Token>)
    requires From(cfg, done, s, o) && done <= more
    ensures From(cfg, more, s, o)
  {
    RowsGrow(cfg.runId, done, more, s.db.steps);
    FlightsGrow(cfg, done, more, s.flights);
    RunnerGrows(done, more, s.runner);
    ItemsGrow(done, more, s.db.items);
    EndGrows(cfg, done, more, s.db.row);
  }

  lemma InitFrom(cfg: Config)
    ensures From(cfg, {}, Init(), Some(RunnerTok))
  {}

  /** Every step of every actor, and every tame restart. */
  lemma StepFrom(cfg: Config, done: set<Act>, s: RunSt, o: Option<Token>, a: Act) returns (o': Option<Token>)
    requires Inv(cfg, s, o) && From(cfg, done, s, o) && Enabled(cfg, s, a) && Tame(s, a)
    ensures Inv(cfg, Next(cfg, s, a), o') && From(cfg, done + {a}, Next(cfg, s, a), o')
  {
    FromGrows(cfg, done, done + {a}, s, o);
    if a.Fly? {
      o' := FlyFrom(cfg, done + {a}, s, o, a.id, a.step);
    } else {
      o' := OtherFrom(cfg, done + {a}, s, o, a);
    }
  }

  function Taken(acts: seq<Act>): set<Act> {
    set a | a in acts
  }

  lemma {:induction false} ExecFrom(cfg: Config, done: set<Act>, s: RunSt, o: Option<Token>, acts: seq<Act>) returns (o': Option<Token>)
    requires Inv(cfg, s, o) && From(cfg, done, s, o) && Possible(cfg, s, acts)
    ensures Inv(cfg, Exec(cfg, s, acts), o') && From(cfg, done + Taken(acts), Exec(cfg, s, acts), o')
    decreases |acts|
  {
    if acts == [] {
      assert done + Taken(acts) == done;
      o' := o;
    } else {
      o' := StepFrom(cfg, done, s, o, acts[0]);
      o' := ExecFrom(cfg, done + {acts[0]}, Next(cfg, s, acts[0]), o', acts[1..]);
      assert done + {acts[0]} + Taken(acts[1..]) == done + Taken(acts) by {
        assert acts == [acts[0]] + acts[1..];
      }
    }
  }

  lemma HistoryFrom(cfg: Config, acts: seq<Act>) returns (o: Option<Token>)
    requires Possible(cfg, Init(), acts)
    ensures Inv(cfg, Exec(cfg, Init(), acts), o) && From(cfg, Taken(acts), Exec(cfg, Init(), acts), o)
  {
    InitInv(cfg);
    InitFrom(cfg);
    o := ExecFrom(cfg, {}, Init(), Some(RunnerTok), acts);
    assert {} + Taken(acts) == Taken(acts);
  }

  /** In every history each step row is what the application said about that step, and a
      completed wait's memo an event that was seen for it, or null. */
  lemma MemosAreAnswers(cfg: Config, acts: seq<Act>, i: nat)
    requires Possible(cfg, Init(), acts) && i < |Exec(cfg, Init(), acts).db.steps|
    ensures RowFrom(cfg.runId, Taken(acts), Exec(cfg, Init(), acts).db.steps[i])
  {
    var o := HistoryFrom(cfg, acts);
  }

  /** The memo of a completed step holds what its body returned: some callback of the run
      was answered with just that output for just that step. */
  lemma StepOutputReturned(cfg: Config, acts: seq<Act>, i: nat)
    requires Possible(cfg, Init(), acts) && i < |Exec(cfg, Init(), acts).db.steps|
    ensures var r := Exec(cfg, Init(), acts).db.steps[i];
            r.op.OpRun? && r.status.StepCompleted? ==>
              exists id: ItemId :: Fly(id, Respond(Answer(StepComplete(r.key, r.stepId, r.output)))) in acts
  {
    MemosAreAnswers(cfg, acts, i);
    var r := Exec(cfg, Init(), acts).db.steps[i];
    if r.op.OpRun? && r.status.StepCompleted? {
      var id: ItemId :| Fly(id, Respond(Answer(StepComplete(r.key, r.stepId, r.output)))) in Taken(acts);
      assert Fly(id, Respond(Answer(StepComplete(r.key, r.stepId, r.output)))) in acts;
    }
  }

  /** Rows carry the step ids and the kinds of the handler's calls, in order, and the memo of
      a SendEvent step the ids of the very events the handler sends. */
  lemma RowsFitCalls(cfg: Config, acts: seq<Act>, i: nat)
    requires Possible(cfg, Init(), acts) && i < |Exec(cfg, Init(), acts).db.steps|
    ensures var rows := Exec(cfg, Init(), acts).db.steps;
            var a := cfg.handler(cfg.input, Outs(rows)[..i]);
            && a.Call? && rows[i].stepId == a.stepId && rows[i].op == KindOf(a.prim)
            && (a.prim.SendStep? && rows[i].status.StepCompleted? ==>
                  exists ids :: rows[i].output == EventIds(ids) && FannedOut(cfg.runId, rows[i].key, a.prim.events, ids))
  {
    var o := HistoryFrom(cfg, acts);
  }

  /** In every history an item is due when whoever enqueued it or put it back said. */
  lemma ItemsAreAsked(cfg: Config, acts: seq<Act>, id: ItemId)
    requires Possible(cfg, Init(), acts) && id in Exec(cfg, Init(), acts).db.items
    ensures ItemFrom(Taken(acts), id, Exec(cfg, Init(), acts).db.items[id].at)
  {
    var o := HistoryFrom(cfg, acts);
  }

  /** In every history a run ends completed with the output the application returned, failed
      with the error of its timeout or of its last attempt, or cancelled, at the time that
      was given; and a run that has not ended has no output, error or end. */
  lemma EndsAreCaused(cfg: Config, acts: seq<Act>)
    requires Possible(cfg, Init(), acts)
    ensures EndFrom(cfg, Taken(acts), Exec(cfg, Init(), acts).db.row)
  {
    var o := HistoryFrom(cfg, acts);
  }

  /** No attempt of a throttled run counts before the throttle has granted it a slot. */
  lemma ThrottledRunsWait(cfg: Config, acts: seq<Act>)
    requires Possible(cfg, Init(), acts) && cfg.throttled && Exec(cfg, Init(), acts).db.row.attempt > 0
    ensures exists id: ItemId, t: Time :: Fly(id, Admit(true, t)) in Taken(acts)
  {
    var o := HistoryFrom(cfg, acts);
  }

  // ---------- waits ----------

  /** At `a` the opcode switch decides to open the wait `w` for `k`; it expires when the
      timeout that was asked for has passed since. */
  predicate OpensAt(s: RunSt, a: Act, k: Hash, w: Wait, timeout: Timeout) {
    && a.Fly? && a.step.Commit? && a.id in s.flights && s.flights[a.id].pc.Apply?
    && s.flights[a.id].pc.op == WaitForEvent(k, w.stepId, w.event, w.pattern, timeout)
    && ExpiresFor(timeout, a.step.now, w.expires)
  }

  ghost predicate OpenedAt(cfg: Config, acts: seq<Act>, n: nat, k: Hash, w: Wait, timeout: Timeout) {
    n < |acts| && OpensAt(Exec(cfg, Init(), acts[..n]), acts[n], k, w, timeout)
  }

  ghost predicate OpenedIn(cfg: Config, acts: seq<Act>, k: Hash, w: Wait) {
    exists n: nat, timeout :: OpenedAt(cfg, acts, n, k, w, timeout)
  }

  ghost predicate WaitsFrom(cfg: Config, acts: seq<Act>, s: RunSt) {
    && (forall k :: k in s.db.waits ==> OpenedIn(cfg, acts, k, s.db.waits[k]))
    && (forall id :: id in s.flights && s.flights[id].pc.OpenWait? ==> OpenedIn(cfg, acts, s.flights[id].pc.key, s.flights[id].pc.wait))
  }

  lemma OpenedGrows(cfg: Config, acts: seq<Act>, a: Act, k: Hash, w: Wait, u: Wait)
    requires OpenedIn(cfg, acts, k, w) && u == w.(status := u.status)
    ensures OpenedIn(cfg, acts + [a], k, u)
  {
    var n: nat, timeout :| OpenedAt(cfg, acts, n, k, w, timeout);
    assert (acts + [a])[..n] == acts[..n];
    assert OpenedAt(cfg, acts + [a], n, k, u, timeout);
  }

  lemma OpensNow(cfg: Config, acts: seq<Act>, s: RunSt, id: ItemId, now: Time)
    requires s == Exec(cfg, Init(), acts) && id in s.flights && s.flights[id].pc.Apply?
    ensures var s' := FlyNext(cfg, s, id, Commit(now));
            && s'.db.waits == s.db.waits && id in s'.flights
            && (s'.flights[id].pc.OpenWait? ==>
                  OpenedIn(cfg, acts + [Fly(id, Commit(now))], s'.flights[id].pc.key, s'.flights[id].pc.wait))
  {
    var op, s' := s.flights[id].pc.op, FlyNext(cfg, s, id, Commit(now));
    CommitIs(cfg, s, id, now);
    if s'.flights[id].pc.OpenWait? {
      var a := Fly(id, Commit(now));
      assert (acts + [a])[..|acts|] == acts;
      assert OpenedAt(cfg, acts + [a], |acts|, s'.flights[id].pc.key, s'.flights[id].pc.wait, op.timeout);
    }
  }

  lemma FlyWaits(cfg: Config, acts: seq<Act>, s: RunSt, id: ItemId, step: FlightStep)
    requires s == Exec(cfg, Init(), acts) && CanFly(cfg, s, id, step) && WaitsFrom(cfg, acts, s)
    ensures WaitsFrom(cfg, acts + [Fly(id, step)], FlyNext(cfg, s, id, step))
  {
    var a, s' := Fly(id, step), FlyNext(cfg, s, id, step);
    FlyOthers(cfg, s, id, step);
    FlyFrame(cfg, s, id, step);
    if step.Commit? { OpensNow(cfg, acts, s, id, step.now); }
    forall k | k in s'.db.waits ensures OpenedIn(cfg, acts + [a], k, s'.db.waits[k]) {
      OpenedGrows(cfg, acts, a, k, s'.db.waits[k], s'.db.waits[k]);
    }
    forall j | j in s'.flights && s'.flights[j].pc.OpenWait?
      ensures OpenedIn(cfg, acts + [a], s'.flights[j].pc.key, s'.flights[j].pc.wait)
    {
      if j != id {
        OpenedGrows(cfg, acts, a, s.flights[j].pc.key, s.flights[j].pc.wait, s.flights[j].pc.wait);
      } else if !step.Commit? {
        NotOpening(cfg, s, id, step);
      }
    }
  }

  lemma NotOpening(cfg: Config, s: RunSt, id: ItemId, step: FlightStep)
    requires CanFly(cfg, s, id, step) && !step.Commit?
    ensures id in FlyNext(cfg, s, id, step).flights ==> !FlyNext(cfg, s, id, step).flights[id].pc.OpenWait?
  {}

  lemma OtherWaits(cfg: Config, acts: seq<Act>, s: RunSt, a: Act)
    requires !a.Fly? && WaitsFrom(cfg, acts, s)
    ensures WaitsFrom(cfg, acts + [a], Next(cfg, s, a))
  {
    var s' := Next(cfg, s, a);
    OtherFlights(cfg, s, a);
    forall k | k in s'.db.waits ensures OpenedIn(cfg, acts + [a], k, s'.db.waits[k]) {
      OpenedGrows(cfg, acts, a, k, s.db.waits[k], s'.db.waits[k]);
    }
    forall j | j in s'.flights && s'.flights[j].pc.OpenWait?
      ensures OpenedIn(cfg, acts + [a], s'.flights[j].pc.key, s'.flights[j].pc.wait)
    {
      OpenedGrows(cfg, acts, a, s.flights[j].pc.key, s.flights[j].pc.wait, s.flights[j].pc.wait);
    }
  }

  lemma OtherFlights(cfg: Config, s: RunSt, a: Act)
    requires !a.Fly?
    ensures forall j :: j in Next(cfg, s, a).flights && Next(cfg, s, a).flights[j].pc.OpenWait? ==>
              j in s.flights && s.flights[j].pc == Next(cfg, s, a).flights[j].pc
    ensures forall k :: k in Next(cfg, s, a).db.waits ==>
              k in s.db.waits && Next(cfg, s, a).db.waits[k] == s.db.waits[k].(status := Next(cfg, s, a).db.waits[k].status)
  {}

  lemma {:induction false} WaitsAreFrom(cfg: Config, acts: seq<Act>)
    requires Possible(cfg, Init(), acts)
    ensures WaitsFrom(cfg, acts, Exec(cfg, Init(), acts))
    decreases |acts|
  {
    if acts != [] {
      var n := |acts| - 1;
      ExecSplit(cfg, Init(), acts, n);
      WaitsAreFrom(cfg, acts[..n]);
      var s, a := Exec(cfg, Init(), acts[..n]), acts[n];
      assert acts[n..] == [a] && acts == acts[..n] + [a];
      LastStep(cfg, s, a);
      if a.Fly? {
        FlyWaits(cfg, acts[..n], s, a.id, a.step);
      } else {
        OtherWaits(cfg, acts[..n], s, a);
      }
    }
  }

  lemma LastStep(cfg: Config, s: RunSt, a: Act)
    requires Possible(cfg, s, [a])
    ensures Enabled(cfg, s, a) && Exec(cfg, s, [a]) == Next(cfg, s, a)
  {
    assert [a][1..] == [];
  }

  lemma OpenerReports(cfg: Config, acts: seq<Act>, n: nat)
    requires Possible(cfg, Init(), acts) && n <= |acts|
    ensures var s := Exec(cfg, Init(), acts[..n]);
            forall id :: id in s.flights && s.flights[id].pc.Apply? ==>
              match s.flights[id].pc.op
              case WaitForEvent(k, sid, event, pattern, timeout) =>
                cfg.handler(cfg.input, Committed(s)) == Call(sid, WaitStep(event, pattern, timeout))
              case _ => true
  {
    InitInv(cfg);
    ExecSplit(cfg, Init(), acts, n);
    var o := ExecInv(cfg, Init(), Some(RunnerTok), acts[..n]);
    var s := Exec(cfg, Init(), acts[..n]);
    forall id | id in s.flights && s.flights[id].pc.Apply? && s.flights[id].pc.op.WaitForEvent?
      ensures var op := s.flights[id].pc.op;
              cfg.handler(cfg.input, Committed(s)) == Call(op.stepId, WaitStep(op.event, op.pattern, op.timeout))
    {
      SoleUnique(s, o, FlightTok(id));
      assert Reports(cfg.handler, cfg.functionId, cfg.input, Committed(s), s.flights[id].pc.op);
    }
  }

  /** In every history each wait has been opened by a WaitForEvent answer for its step, with
      the event, the pattern and the timeout of that answer, which are those of the call the
      handler was at; and while it waits the clock
      can expire it at `t` if and only if it has a timeout and `t` is later than the instant
      it was opened at plus that timeout. */
  lemma WaitExpires(cfg: Config, acts: seq<Act>, k: Hash) returns (n: nat, timeout: Timeout)
    requires Possible(cfg, Init(), acts) && k in Exec(cfg, Init(), acts).db.waits
    ensures n < |acts| && acts[n].Fly? && acts[n].step.Commit?
    ensures var before, w := Exec(cfg, Init(), acts[..n]), Exec(cfg, Init(), acts).db.waits[k];
            && acts[n].id in before.flights && before.flights[acts[n].id].pc.Apply?
            && before.flights[acts[n].id].pc.op == WaitForEvent(k, w.stepId, w.event, w.pattern, timeout)
    ensures var before, w := Exec(cfg, Init(), acts[..n]), Exec(cfg, Init(), acts).db.waits[k];
            cfg.handler(cfg.input, Committed(before)) == Call(w.stepId, WaitStep(w.event, w.pattern, timeout))
    ensures var s := Exec(cfg, Init(), acts);
            forall t :: Enabled(cfg, s, SeeExpired(k, t)) <==>
              s.runner.Idle? && s.db.waits[k].status == Waiting && timeout.After? && t > acts[n].step.now + timeout.d
  {
    WaitsAreFrom(cfg, acts);
    n, timeout :| OpenedAt(cfg, acts, n, k, Exec(cfg, Init(), acts).db.waits[k], timeout);
    OpenerReports(cfg, acts, n);
  }
}
