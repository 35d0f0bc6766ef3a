/** What a restart does to sleeps and to memos. Two hand-overs are not atomic: a sleep is
    saved before the item that is due earlier goes, and the outcome of a wait is saved
    before the wait is settled. A restart in between can cut the sleep short, or let the
    memo be written again; this says exactly when, and that otherwise neither happens. */
module RestartMemos {
  import opened StepKeys
  import opened Sdk
  import opened RunStore
  import opened RunMachine
  import opened ProgramOrder
  import opened RunSafety
  import opened RunProgress
  import RunRestart
  import opened Wrappers

  /** The item of a dispatch is not due before `u`. */
  predicate HeldBack(s: RunSt, id: ItemId, u: Time) {
    id in s.db.items && s.db.items[id].at >= u
  }

  /** Whatever may take up a run that sleeps until `u` does so then or later. */
  predicate OnTime(s: RunSt, o: Option<Token>, u: Time) {
    && (s.db.Live() ==> forall id :: id in s.db.items && !s.db.items[id].leased ==> s.db.items[id].at >= u)
    && match o
       case None => true
       case Some(ItemTok(_)) => true
       case Some(RunnerTok) => false
       case Some(WaitTok(_)) => false
       case Some(FlightTok(id)) =>
         id in s.flights &&
         match s.flights[id].pc
         case Start => s.db.Live() ==> s.flights[id].leasedAt >= u && HeldBack(s, id, u)
         case Gate => s.flights[id].leasedAt >= u && HeldBack(s, id, u)
         case Bump => s.flights[id].leasedAt >= u && HeldBack(s, id, u)
         case Mark(_) => s.flights[id].leasedAt >= u && HeldBack(s, id, u)
         case Wake(_) => s.flights[id].leasedAt >= u && HeldBack(s, id, u)
         case GiveUp(_) => s.db.Live() ==> HeldBack(s, id, u)
         case Drop(w) => w == Some(u)
         case Hop(w) => w == Some(u)
         case Sweep => !s.db.Live()
         case _ => false
  }

  /** A dispatch about to go on at `u` has saved a sleep until `u`. */
  predicate SleepSaved(s: RunSt, o: Option<Token>) {
    o.Some? && o.value.FlightTok? && o.value.id in s.flights ==>
      match s.flights[o.value.id].pc
      case Drop(Some(u)) => LastIs(s.db.steps, StepSleeping) && s.db.steps[|s.db.steps| - 1].until == u
      case Hop(Some(u)) => LastIs(s.db.steps, StepSleeping) && s.db.steps[|s.db.steps| - 1].until == u
      case _ => true
  }

  predicate Punctual(s: RunSt, o: Option<Token>) {
    && (LastIs(s.db.steps, StepSleeping) ==> OnTime(s, o, s.db.steps[|s.db.steps| - 1].until))
    && SleepSaved(s, o)
  }

  /** A restart that makes an item pending which is due before the run's sleep is over. */
  predicate Rash(s: RunSt, requeued: set<ItemId>) {
    && s.db.Live() && LastIs(s.db.steps, StepSleeping)
    && exists id :: id in s.db.items && id in requeued && s.db.items[id].at < s.db.steps[|s.db.steps| - 1].until
  }

  // ---------- what every other step keeps ----------

  /** The steps of a dispatch up to the callback, but for the wake-up. */
  lemma {:induction false} FlyPunctualFirst(cfg: Config, s: RunSt, id: ItemId, step: FlightStep)
    requires CanFly(cfg, s, id, step) && Opening(s.flights[id].pc) && !s.flights[id].pc.Start? && !step.WakeIt?
    requires Punctual(s, Some(FlightTok(id))) && Shape(s)
    ensures Punctual(FlyNext(cfg, s, id, step), FlyOwner(cfg, s.flights[id].pc, id, step))
  {
  }

  lemma {:induction false} StartPunctual(cfg: Config, s: RunSt, id: ItemId, step: FlightStep)
    requires CanFly(cfg, s, id, step) && s.flights[id].pc.Start?
    requires Punctual(s, Some(FlightTok(id))) && Shape(s)
    ensures Punctual(FlyNext(cfg, s, id, step), FlyOwner(cfg, s.flights[id].pc, id, step))
  {
  }

  /** After the wake-up the run does not sleep. */
  lemma {:induction false} WakePunctual(cfg: Config, s: RunSt, id: ItemId)
    requires id in s.flights && s.flights[id].pc.Wake? && InOrder(cfg, s)
    ensures Punctual(FlyNext(cfg, s, id, WakeIt), Some(FlightTok(id)))
  {
    WakeLast(cfg.handler, cfg.functionId, cfg.input, s.db);
    assert FlyNext(cfg, s, id, WakeIt).db == s.db.CompleteSleeping();
  }

  /** The steps of a dispatch from the callback on, but for the opcode switch. */
  lemma {:induction false} FlyPunctualLast(cfg: Config, s: RunSt, id: ItemId, step: FlightStep)
    requires CanFly(cfg, s, id, step) && !step.Commit? && !Opening(s.flights[id].pc) && !s.flights[id].pc.Spent?
    requires Punctual(s, Some(FlightTok(id))) && Shape(s)
    ensures Punctual(FlyNext(cfg, s, id, step), FlyOwner(cfg, s.flights[id].pc, id, step))
  {
  }

  /** The last row after the opcode switch has written `r`. */
  lemma LastWritten(cfg: Config, s: RunSt, r: StepRow)
    requires InOrder(cfg, s) && cfg.handler(cfg.input, Committed(s)).Call?
    requires r.key == KeyAt(cfg.handler, cfg.functionId, cfg.input, Committed(s))
    ensures var u := s.db.SaveStep(r).steps; LastIs(u, r.status) && u[|u| - 1].until == r.until
  {
    CommitNext(cfg.handler, cfg.functionId, cfg.input, s.db.steps, r);
  }

  lemma {:induction false} WritePunctual(cfg: Config, s: RunSt, id: ItemId, now: Time)
    requires id in s.flights && s.flights[id].pc.Apply? && Writes(s.flights[id].pc.op) && InOrder(cfg, s)
    requires Reports(cfg.handler, cfg.functionId, cfg.input, Committed(s), s.flights[id].pc.op)
    requires forall i :: i in s.db.items ==> s.db.items[i].leased
    ensures Punctual(ApplyOp(cfg, s, id, s.flights[id].pc.attempt, s.flights[id].pc.op, now), Some(FlightTok(id)))
  {
    var n, op := s.flights[id].pc.attempt, s.flights[id].pc.op;
    var r := ApplyWrote(cfg, s, id, n, op, now);
    LastWritten(cfg, s, r);
    WrittenPunctual(s, ApplyOp(cfg, s, id, n, op, now), id, n, r);
  }

  lemma WrittenPunctual(s: RunSt, s': RunSt, id: ItemId, n: nat, r: StepRow)
    requires Wrote(s, s', id, n, r)
    requires var u := s.db.SaveStep(r).steps; LastIs(u, r.status) && u[|u| - 1].until == r.until
    requires forall i :: i in s.db.items ==> s.db.items[i].leased
    ensures Punctual(s', Some(FlightTok(id)))
  {
  }

  lemma {:induction false} CommitPunctual(cfg: Config, s: RunSt, id: ItemId, now: Time)
    requires id in s.flights && s.flights[id].pc.Apply? && Inv(cfg, s, Some(FlightTok(id))) && Punctual(s, Some(FlightTok(id)))
    ensures Punctual(FlyNext(cfg, s, id, Commit(now)), Some(FlightTok(id)))
  {
    CommitIs(cfg, s, id, now);
    if Writes(s.flights[id].pc.op) {
      ItemsLeased(cfg, s, id);
      WritePunctual(cfg, s, id, now);
    }
  }

  /** While a dispatch owns the run, no item of it is pending. */
  lemma ItemsLeased(cfg: Config, s: RunSt, id: ItemId)
    requires Inv(cfg, s, Some(FlightTok(id)))
    ensures forall i :: i in s.db.items ==> s.db.items[i].leased
  {
    forall i | i in s.db.items ensures s.db.items[i].leased {
      assert Holds(s, ItemTok(i)) <==> Some(FlightTok(id)) == Some(ItemTok(i));
    }
  }

  lemma {:induction false} FlyPunctual(cfg: Config, s: RunSt, o: Option<Token>, id: ItemId, step: FlightStep) returns (o': Option<Token>)
    requires Inv(cfg, s, o) && Punctual(s, o) && CanFly(cfg, s, id, step)
    ensures Inv(cfg, FlyNext(cfg, s, id, step), o') && Punctual(FlyNext(cfg, s, id, step), o')
  {
    o' := FlyInv(cfg, s, o, id, step);
    if s.flights[id].pc.Spent? {
      SpentPunctual(cfg, s, o, id);
    } else if step.Commit? {
      CommitPunctual(cfg, s, id, step.now);
    } else if step.WakeIt? {
      WakePunctual(cfg, s, id);
    } else if s.flights[id].pc.Start? {
      StartPunctual(cfg, s, id, step);
    } else if Opening(s.flights[id].pc) {
      FlyPunctualFirst(cfg, s, id, step);
    } else {
      FlyPunctualLast(cfg, s, id, step);
    }
  }

  lemma SpentPunctual(cfg: Config, s: RunSt, o: Option<Token>, id: ItemId)
    requires id in s.flights && s.flights[id].pc.Spent? && Sole(s, o) && Punctual(s, o)
    ensures Punctual(FlyNext(cfg, s, id, SweepIt), o)
  {
    assert !Holds(s, FlightTok(id));
  }

  lemma {:induction false} LeasePunctual(cfg: Config, s: RunSt, o: Option<Token>, id: ItemId, now: Time)
    requires Inv(cfg, s, o) && Punctual(s, o) && Enabled(cfg, s, Lease(id, now))
    ensures Punctual(Next(cfg, s, Lease(id, now)), Some(FlightTok(id)))
  {
    SoleUnique(s, o, ItemTok(id));
  }

  /** The runner's steps: the run does not sleep while a wait or an enqueue holds it. */
  lemma {:induction false} RunnerPunctual(cfg: Config, s: RunSt, o: Option<Token>, a: Act, o': Option<Token>)
    requires Inv(cfg, s, o) && Punctual(s, o) && Enabled(cfg, s, a) && Inv(cfg, Next(cfg, s, a), o')
    requires RunnersStep(a)
    ensures Punctual(Next(cfg, s, a), o')
  {
    RunnerOwns(cfg, s, o, a);
    RunnerAwake(cfg, s, o, a);
    NoFlight(s, o, Next(cfg, s, a), o');
  }

  lemma NoFlight(s: RunSt, o: Option<Token>, s': RunSt, o': Option<Token>)
    requires Sole(s, o) && Sole(s', o') && s'.flights == s.flights && o.Some? && !o.value.FlightTok?
    ensures !(o'.Some? && o'.value.FlightTok?)
  {
    assert forall t: Token :: t.FlightTok? ==> (Holds(s', t) <==> Holds(s, t));
  }

  lemma {:induction false} RunnerAwake(cfg: Config, s: RunSt, o: Option<Token>, a: Act)
    requires Inv(cfg, s, o) && Enabled(cfg, s, a) && RunnersStep(a) && !LastIs(s.db.steps, StepSleeping)
    ensures !LastIs(Next(cfg, s, a).db.steps, StepSleeping) && Next(cfg, s, a).flights == s.flights
  {
    if a.SaveMemo? {
      SavedAwake(cfg, s, o);
    } else {
      OtherFrame(cfg, s, a);
    }
  }

  lemma {:induction false} SavedAwake(cfg: Config, s: RunSt, o: Option<Token>)
    requires Inv(cfg, s, o) && s.runner.Saw?
    ensures LastIs(Next(cfg, s, SaveMemo).db.steps, StepCompleted) && Next(cfg, s, SaveMemo).flights == s.flights
  {
    var k := s.runner.key;
    SaveMemoIs(cfg, s);
    OverwriteLast(cfg, s, StepRow(k, s.db.waits[k].stepId, OpWait, StepCompleted, s.runner.output, "", 0, 0));
  }

  /** The place of the run while the runner is at work on it. */
  lemma RunnerOwns(cfg: Config, s: RunSt, o: Option<Token>, a: Act)
    requires Inv(cfg, s, o) && Enabled(cfg, s, a)
    requires RunnersStep(a)
    ensures o.Some? && (o.value.WaitTok? || o.value.RunnerTok?)
  {
    if a.SeeEvent? || a.SeeExpired? { SoleUnique(s, o, WaitTok(a.key)); }
    if a.FirstEnqueue? || a.EnqueueResume? { SoleUnique(s, o, RunnerTok); }
  }

  /** Cancel, timeout and the end of its waits leave the run with no other place. */
  lemma {:induction false} EndPunctual(cfg: Config, s: RunSt, o: Option<Token>, a: Act, o': Option<Token>)
    requires Inv(cfg, s, o) && Punctual(s, o) && Enabled(cfg, s, a) && Inv(cfg, Next(cfg, s, a), o')
    requires a.CancelRun? || a.TimeoutRun? || a.ClearWaits?
    ensures Punctual(Next(cfg, s, a), o')
  {
    var s' := Next(cfg, s, a);
    OtherFrame(cfg, s, a);
    if o'.Some? {
      assert Holds(s', o'.value);
      assert Holds(s, o'.value);
      SoleUnique(s, o, o'.value);
    }
  }

  lemma {:induction false} CrashPunctual(cfg: Config, s: RunSt, o: Option<Token>, requeued: set<ItemId>, o': Option<Token>)
    requires Inv(cfg, s, o) && Punctual(s, o) && !Rash(s, requeued) && Inv(cfg, Next(cfg, s, Crash(requeued)), o')
    ensures Punctual(Next(cfg, s, Crash(requeued)), o')
  {
    var s' := Next(cfg, s, Crash(requeued));
    if o'.Some? {
      assert Holds(s', o'.value);
      if o'.value.WaitTok? {
        SoleUnique(s, o, o'.value);
      }
    }
  }

  lemma {:induction false} RestPunctual(cfg: Config, s: RunSt, o: Option<Token>, a: Act, o': Option<Token>)
    requires Inv(cfg, s, o) && Punctual(s, o) && Enabled(cfg, s, a) && Inv(cfg, Next(cfg, s, a), o')
    requires !a.Fly? && !RunnersStep(a) && (a.Crash? ==> !Rash(s, a.requeued))
    ensures Punctual(Next(cfg, s, a), o')
  {
    if a.Lease? {
      LeasePunctual(cfg, s, o, a.id, a.now);
      SoleUnique(Next(cfg, s, a), o', FlightTok(a.id));
    } else if a.Crash? {
      CrashPunctual(cfg, s, o, a.requeued, o');
    } else {
      EndPunctual(cfg, s, o, a, o');
    }
  }

  /** Every step but a rash restart keeps what can take up a run on time. */
  lemma {:induction false} StepPunctual(cfg: Config, s: RunSt, o: Option<Token>, a: Act) returns (o': Option<Token>)
    requires Inv(cfg, s, o) && Punctual(s, o) && Enabled(cfg, s, a) && Tame(s, a)
    requires a.Crash? ==> !Rash(s, a.requeued)
    ensures Inv(cfg, Next(cfg, s, a), o') && Punctual(Next(cfg, s, a), o')
  {
    if a.Fly? {
      o' := FlyPunctual(cfg, s, o, a.id, a.step);
    } else {
      o' := StepInv(cfg, s, o, a);
      if RunnersStep(a) {
        RunnerPunctual(cfg, s, o, a, o');
      } else {
        RestPunctual(cfg, s, o, a, o');
      }
    }
  }

  /** None of the restarts in `acts` is rash. */
  predicate Gentle(cfg: Config, s: RunSt, acts: seq<Act>)
    decreases |acts|
  {
    acts == [] || ((acts[0].Crash? ==> !Rash(s, acts[0].requeued)) && Gentle(cfg, Next(cfg, s, acts[0]), acts[1..]))
  }

  lemma {:induction false} ExecPunctual(cfg: Config, s: RunSt, o: Option<Token>, acts: seq<Act>) returns (o': Option<Token>)
    requires Inv(cfg, s, o) && Punctual(s, o) && Possible(cfg, s, acts) && Gentle(cfg, s, acts)
    ensures Inv(cfg, Exec(cfg, s, acts), o') && Punctual(Exec(cfg, s, acts), o')
    decreases |acts|
  {
    o' := o;
    if acts != [] {
      o' := StepPunctual(cfg, s, o, acts[0]);
      o' := ExecPunctual(cfg, Next(cfg, s, acts[0]), o', acts[1..]);
    }
  }

  lemma {:induction false} CrashFreeGentle(cfg: Config, s: RunSt, acts: seq<Act>)
    requires CrashFree(acts)
    ensures Gentle(cfg, s, acts)
    decreases |acts|
  {
    if acts != [] {
      assert acts[0] in acts;
      CrashFreeGentle(cfg, Next(cfg, s, acts[0]), acts[1..]);
    }
  }

  // ---------- sleeps ----------

  /** A step that wakes a run before its sleep is over. */
  predicate CutsShort(s: RunSt, a: Act) {
    && LastIs(s.db.steps, StepSleeping) && a.Fly? && a.step.WakeIt? && a.id in s.flights
    && s.flights[a.id].leasedAt < s.db.steps[|s.db.steps| - 1].until
  }

  lemma {:induction false} WakesOnTime(cfg: Config, s: RunSt, o: Option<Token>, a: Act, i: nat)
    requires Inv(cfg, s, o) && Punctual(s, o) && Enabled(cfg, s, a)
    requires i < |s.db.steps| && s.db.steps[i].status.StepSleeping? && i < |Next(cfg, s, a).db.steps|
             && !Next(cfg, s, a).db.steps[i].status.StepSleeping?
    ensures a.Fly? && a.step.WakeIt? && a.id in s.flights && s.db.steps[i].until <= s.flights[a.id].leasedAt
  {
    assert i == |s.db.steps| - 1 && LastIs(s.db.steps, StepSleeping);
    if a.Fly? {
      FlyFrame(cfg, s, a.id, a.step);
      if !s.flights[a.id].pc.Spent? { SoleUnique(s, o, FlightTok(a.id)); }
    } else {
      OtherFrame(cfg, s, a);
      if a.SaveMemo? { RunnerOwns(cfg, s, o, a); }
    }
  }

  /** No sleep is cut short: in every history none of whose restarts is rash, a sleeping
      memo becomes completed only in a dispatch that was leased at or after the instant
      the sleep asked for. */
  lemma SleepNotCutShort(cfg: Config, acts: seq<Act>, a: Act, i: nat)
    requires Possible(cfg, Init(), acts) && Gentle(cfg, Init(), acts) && Enabled(cfg, Exec(cfg, Init(), acts), a)
    ensures var s := Exec(cfg, Init(), acts);
            var rows, u := s.db.steps, Next(cfg, s, a).db.steps;
            i < |rows| && rows[i].status.StepSleeping? && i < |u| && !u[i].status.StepSleeping? ==>
              a.Fly? && a.step.WakeIt? && a.id in s.flights && rows[i].until <= s.flights[a.id].leasedAt
  {
    InitInv(cfg);
    var o := ExecPunctual(cfg, Init(), Some(RunnerTok), acts);
    var s := Exec(cfg, Init(), acts);
    var rows, u := s.db.steps, Next(cfg, s, a).db.steps;
    if i < |rows| && rows[i].status.StepSleeping? && i < |u| && !u[i].status.StepSleeping? {
      WakesOnTime(cfg, s, o, a, i);
    }
  }

  /** Some crash-free continuation wakes the run before its sleep is over. */
  ghost predicate Rushed(cfg: Config, t: RunSt) {
    exists acts: seq<Act>, a: Act :: RushedBy(cfg, t, acts, a)
  }

  ghost predicate RushedBy(cfg: Config, t: RunSt, acts: seq<Act>, a: Act) {
    && Possible(cfg, t, acts) && CrashFree(acts)
    && Enabled(cfg, Exec(cfg, t, acts), a) && CutsShort(Exec(cfg, t, acts), a)
  }

  /** `u` is reached from `t` without a restart. */
  ghost predicate Leads(cfg: Config, t: RunSt, u: RunSt) {
    exists acts: seq<Act> :: Possible(cfg, t, acts) && CrashFree(acts) && Exec(cfg, t, acts) == u
  }

  lemma LeadsNot(cfg: Config, t: RunSt)
    ensures Leads(cfg, t, t)
  {
    var acts: seq<Act> := [];
    assert Possible(cfg, t, acts) && CrashFree(acts) && Exec(cfg, t, acts) == t;
  }

  lemma LeadsOn(cfg: Config, t: RunSt, u: RunSt, a: Act)
    requires Leads(cfg, t, u) && Enabled(cfg, u, a) && !a.Crash?
    ensures Leads(cfg, t, Next(cfg, u, a))
  {
    var acts :| Possible(cfg, t, acts) && CrashFree(acts) && Exec(cfg, t, acts) == u;
    ExecSnoc(cfg, t, acts, a);
    assert CrashFree(acts + [a]);
  }

  /** A pending item that is due early does it: lease it then, and go on to the wake-up. */
  lemma EarlyItemRushes(cfg: Config, t: RunSt, id: ItemId)
    requires t.db.Live() && LastIs(t.db.steps, StepSleeping) && t.flights == map[]
    requires id in t.db.items && !t.db.items[id].leased && t.db.items[id].at < t.db.steps[|t.db.steps| - 1].until
    ensures Rushed(cfg, t)
  {
    LeadsNot(cfg, t);
    var lease := Lease(id, t.db.items[id].at);
    LeadsOn(cfg, t, t, lease);
    var u := Next(cfg, t, lease);
    LeadsOn(cfg, t, u, Fly(id, ReadRun(true)));
    u := FlyNext(cfg, u, id, ReadRun(true));
    if u.flights[id].pc.Gate? {
      LeadsOn(cfg, t, u, Fly(id, Admit(true, 0)));
      u := FlyNext(cfg, u, id, Admit(true, 0));
    }
    WakeFromBump(cfg, t, u, id);
  }

  lemma WakeFromBump(cfg: Config, t: RunSt, s: RunSt, id: ItemId)
    requires Leads(cfg, t, s) && s.db.Live() && id in s.flights && s.flights[id].pc.Bump?
    requires LastIs(s.db.steps, StepSleeping) && s.flights[id].leasedAt < s.db.steps[|s.db.steps| - 1].until
    ensures Rushed(cfg, t)
  {
    LeadsOn(cfg, t, s, Fly(id, Increment));
    WakeFromMark(cfg, t, FlyNext(cfg, s, id, Increment), id);
  }

  lemma WakeFromMark(cfg: Config, t: RunSt, s: RunSt, id: ItemId)
    requires Leads(cfg, t, s) && s.db.Live() && id in s.flights && s.flights[id].pc.Mark?
    requires LastIs(s.db.steps, StepSleeping) && s.flights[id].leasedAt < s.db.steps[|s.db.steps| - 1].until
    ensures Rushed(cfg, t)
  {
    LeadsOn(cfg, t, s, Fly(id, MarkIt));
    var acts :| Possible(cfg, t, acts) && CrashFree(acts) && Exec(cfg, t, acts) == FlyNext(cfg, s, id, MarkIt);
    assert RushedBy(cfg, t, acts, Fly(id, WakeIt));
  }

  lemma RushedIffRash(cfg: Config, s: RunSt, o: Option<Token>, requeued: set<ItemId>)
    requires Inv(cfg, s, o) && Punctual(s, o) && Tame(s, Crash(requeued))
    ensures Rushed(cfg, Next(cfg, s, Crash(requeued))) <==> Rash(s, requeued)
  {
    var t := Next(cfg, s, Crash(requeued));
    if Rash(s, requeued) {
      var id :| id in s.db.items && id in requeued && s.db.items[id].at < s.db.steps[|s.db.steps| - 1].until;
      EarlyItemRushes(cfg, t, id);
    } else {
      var o' := StepPunctual(cfg, s, o, Crash(requeued));
      forall acts, a | RushedBy(cfg, t, acts, a) ensures false {
        NotRushed(cfg, t, o', acts, a);
      }
    }
  }

  lemma NotRushed(cfg: Config, t: RunSt, o: Option<Token>, acts: seq<Act>, a: Act)
    requires Inv(cfg, t, o) && Punctual(t, o)
    ensures !RushedBy(cfg, t, acts, a)
  {
    if RushedBy(cfg, t, acts, a) {
      CrashFreeGentle(cfg, t, acts);
      var o' := ExecPunctual(cfg, t, o, acts);
      SoleUnique(Exec(cfg, t, acts), o', FlightTok(a.id));
    }
  }

  /** A restart lets a sleep be cut short if and only if it is rash: the run is live, and
      some item that is requeued is due before the sleep is over. The restarts before it may
      be any that are not rash. */
  lemma RestartRushesIff(cfg: Config, acts: seq<Act>, requeued: set<ItemId>)
    requires Possible(cfg, Init(), acts) && Gentle(cfg, Init(), acts)
    requires Tame(Exec(cfg, Init(), acts), Crash(requeued))
    ensures var s := Exec(cfg, Init(), acts);
            Rushed(cfg, Next(cfg, s, Crash(requeued))) <==> Rash(s, requeued)
  {
    InitInv(cfg);
    var o := ExecPunctual(cfg, Init(), Some(RunnerTok), acts);
    RushedIffRash(cfg, Exec(cfg, Init(), acts), o, requeued);
  }

  /** A dispatch that has saved a sleep until `u` and not yet removed its item, which is
      requeued and due before `u`. */
  predicate SavedSleep(s: RunSt, requeued: set<ItemId>, id: ItemId) {
    && id in s.flights && s.flights[id].pc.Drop? && s.flights[id].pc.until.Some?
    && id in requeued && id in s.db.items && s.db.items[id].at < s.flights[id].pc.until.value
  }

  /** A first restart lets a sleep be cut short if and only if it falls between saving the
      sleep and removing the item of the dispatch, the run is live, and that item is
      requeued and due before the sleep is over. */
  lemma RestartCutsSleepIff(cfg: Config, acts: seq<Act>, requeued: set<ItemId>)
    requires cfg.maxAttempts > 0 && Possible(cfg, Init(), acts) && CrashFree(acts)
    requires Tame(Exec(cfg, Init(), acts), Crash(requeued))
    ensures var s := Exec(cfg, Init(), acts);
            Rushed(cfg, Next(cfg, s, Crash(requeued))) <==> s.db.Live() && exists id :: SavedSleep(s, requeued, id)
  {
    var s := Exec(cfg, Init(), acts);
    InitQuiet(cfg);
    var q := ExecQuiet(cfg, Init(), Some(RunnerTok), acts);
    CrashFreeGentle(cfg, Init(), acts);
    var o := ExecPunctual(cfg, Init(), Some(RunnerTok), acts);
    RushedIffRash(cfg, s, o, requeued);
    RashMeans(cfg, s, o, requeued);
  }

  lemma RashMeans(cfg: Config, s: RunSt, o: Option<Token>, requeued: set<ItemId>)
    requires Inv(cfg, s, o) && Punctual(s, o) && Tame(s, Crash(requeued))
    requires forall id :: id in s.db.items && id !in s.flights ==> !s.db.items[id].leased
    ensures Rash(s, requeued) <==> s.db.Live() && exists id :: SavedSleep(s, requeued, id)
  {
    if Rash(s, requeued) {
      var id :| id in s.db.items && id in requeued && s.db.items[id].at < s.db.steps[|s.db.steps| - 1].until;
      assert id in s.flights;
      SoleUnique(s, o, FlightTok(id));
      assert SavedSleep(s, requeued, id);
    }
    if id :| SavedSleep(s, requeued, id) {
      SoleUnique(s, o, FlightTok(id));
    }
  }

  // ---------- a sleep that is cut short ----------

  /** A handler that sleeps and then returns. */
  function SleepOnce(inp: Input, outs: seq<Json>): Action {
    if outs == [] then Call("s", SleepStep) else Return(Null)
  }

  const SOME_INPUT := Input(Event("e", "start", "", 0), [])

  function SleepConfig(): Config {
    Config(SleepOnce, "f", "r", SOME_INPUT, false, 4, (p: string, e: Event, i: Input) => true)
  }

  /** The first dispatch of a run that has only item 0. */
  predicate FirstDispatch(s: RunSt) {
    s.db.Live() && s.db.steps == [] && s.db.waits == map[] && s.runner.Idle?
    && s.db.items == map[0 := Item(0, true)] && s.flights.Keys == {0}
  }

  lemma StartOff(cfg: Config) returns (s: RunSt)
    requires !cfg.throttled
    ensures Leads(cfg, Init(), s) && FirstDispatch(s) && s.flights[0].pc.Bump?
  {
    LeadsNot(cfg, Init());
    LeadsOn(cfg, Init(), Init(), FirstEnqueue(0, 0));
    s := Next(cfg, Init(), FirstEnqueue(0, 0));
    LeadsOn(cfg, Init(), s, Lease(0, 0));
    s := Next(cfg, s, Lease(0, 0));
    LeadsOn(cfg, Init(), s, Fly(0, ReadRun(true)));
    s := FlyNext(cfg, s, 0, ReadRun(true));
  }

  lemma MarkOff(cfg: Config, t: RunSt) returns (s: RunSt)
    requires Leads(cfg, Init(), t) && FirstDispatch(t) && t.flights[0].pc.Bump?
    ensures Leads(cfg, Init(), s) && FirstDispatch(s) && s.flights[0].pc.Wake?
  {
    LeadsOn(cfg, Init(), t, Fly(0, Increment));
    s := FlyNext(cfg, t, 0, Increment);
    LeadsOn(cfg, Init(), s, Fly(0, MarkIt));
    s := FlyNext(cfg, s, 0, MarkIt);
  }

  lemma SendOff(cfg: Config, t: RunSt) returns (s: RunSt)
    requires Leads(cfg, Init(), t) && FirstDispatch(t) && t.flights[0].pc.Wake?
    ensures Leads(cfg, Init(), s) && FirstDispatch(s) && s.flights[0].pc.Calling? && s.flights[0].pc.memos == map[]
  {
    LeadsOn(cfg, Init(), t, Fly(0, WakeIt));
    s := FlyNext(cfg, t, 0, WakeIt);
    LeadsOn(cfg, Init(), s, Fly(0, LoadIt));
    s := FlyNext(cfg, s, 0, LoadIt);
  }

  /** The first callback of a run, answered with `op`. */
  lemma FirstCallback(cfg: Config, op: Opcode) returns (s: RunSt)
    requires !cfg.throttled && Answers(cfg.handler, cfg.functionId, cfg.input, map[], op)
    ensures Leads(cfg, Init(), s) && FirstDispatch(s) && s.flights[0].pc.Apply? && s.flights[0].pc.op == op
  {
    s := StartOff(cfg);
    s := MarkOff(cfg, s);
    s := SendOff(cfg, s);
    s := AnswerOff(cfg, s, op);
  }

  lemma AnswerOff(cfg: Config, t: RunSt, op: Opcode) returns (s: RunSt)
    requires Leads(cfg, Init(), t) && FirstDispatch(t) && t.flights[0].pc.Calling? && t.flights[0].pc.memos == map[]
    requires Answers(cfg.handler, cfg.functionId, cfg.input, map[], op)
    ensures Leads(cfg, Init(), s) && FirstDispatch(s) && s.flights[0].pc.Apply? && s.flights[0].pc.op == op
  {
    LeadsOn(cfg, Init(), t, Fly(0, Respond(Answer(op))));
    s := FlyNext(cfg, t, 0, Respond(Answer(op)));
    LeadsOn(cfg, Init(), s, Fly(0, RecheckIt));
    s := FlyNext(cfg, s, 0, RecheckIt);
  }

  lemma SaveSleep(cfg: Config, t: RunSt, op: Opcode) returns (s: RunSt)
    requires Leads(cfg, Init(), t) && FirstDispatch(t) && t.flights[0].pc.Apply? && t.flights[0].pc.op == op
    requires op.Sleep? && op.until != 0
    ensures Leads(cfg, Init(), s) && s.db.Live() && s.db.items == t.db.items && Tame(s, Crash({0}))
    ensures |s.db.steps| == 1 && s.db.steps[0].status == StepSleeping && s.db.steps[0].until == op.until
  {
    LeadsOn(cfg, Init(), t, Fly(0, Commit(0)));
    s := FlyNext(cfg, t, 0, Commit(0));
  }

  /** It happens: a sleep until 100 is saved, the platform restarts, and the item of time 0
      is leased again at once. */
  lemma SleepCutAfterRestart() returns (s: RunSt)
    ensures Leads(SleepConfig(), Init(), s) && Tame(s, Crash({0})) && |s.db.steps| == 1
    ensures s.db.steps[0].status == StepSleeping && s.db.steps[0].until == 100
    ensures Rushed(SleepConfig(), Next(SleepConfig(), s, Crash({0})))
  {
    var cfg := SleepConfig();
    var op := Sleep(Key("f", "s", 0), "s", 100);
    assert StopsAt(SleepOnce, "f", SOME_INPUT, map[], []) && Reports(SleepOnce, "f", SOME_INPUT, [], op);
    s := FirstCallback(cfg, op);
    s := SaveSleep(cfg, s, op);
    RequeuedRushes(cfg, s, 0);
  }

  lemma RequeuedRushes(cfg: Config, s: RunSt, id: ItemId)
    requires s.db.Live() && LastIs(s.db.steps, StepSleeping)
    requires id in s.db.items && s.db.items[id].at < s.db.steps[|s.db.steps| - 1].until
    ensures Rushed(cfg, Next(cfg, s, Crash({id})))
  {
    EarlyItemRushes(cfg, Next(cfg, s, Crash({id})), id);
  }

  // ---------- memos ----------

  /** A wait that could have another outcome than `out`. */
  ghost predicate OtherOutcome(cfg: Config, w: Wait, out: Json) {
    exists other, final :: Settles(cfg, w, other, final) && other != out
  }

  /** Nobody will write the last memo again, or only with the output it has. */
  ghost predicate Final(cfg: Config, s: RunSt, k: Hash) {
    || (!s.db.Live() && !s.runner.Saw?)
    || (k in s.db.waits && s.db.steps != [] && !OtherOutcome(cfg, s.db.waits[k], s.db.steps[|s.db.steps| - 1].output))
  }

  /** The wait that holds the run has no memo yet, or has its final one. */
  ghost predicate Unanswered(cfg: Config, s: RunSt, o: Option<Token>) {
    o.Some? && o.value.WaitTok? && !s.runner.Saved? && LastIs(s.db.steps, StepCompleted) ==> Final(cfg, s, o.value.key)
  }

  /** A restart of a live run between saving the outcome of its wait and settling the wait,
      which could still have another outcome. */
  ghost predicate Forgetful(cfg: Config, s: RunSt) {
    && s.db.Live() && s.runner.Saved? && s.runner.key in s.db.waits
    && OtherOutcome(cfg, s.db.waits[s.runner.key], s.runner.output)
  }

  lemma FlyKeepsMemos(cfg: Config, s: RunSt, o: Option<Token>, id: ItemId, step: FlightStep)
    requires Inv(cfg, s, o) && CanFly(cfg, s, id, step)
    ensures MemosKept(s.db.steps, FlyNext(cfg, s, id, step).db.steps)
  {
    FlyFrame(cfg, s, id, step);
    if step.Commit? {
      SoleUnique(s, o, FlightTok(id));
      CommitKeeps(cfg, s, id, step.now);
    }
  }

  /** A dispatch hands the run over to a wait only when it has just created it. */
  lemma FlyUnanswered(cfg: Config, s: RunSt, o: Option<Token>, id: ItemId, step: FlightStep) returns (o': Option<Token>)
    requires Inv(cfg, s, o) && Unanswered(cfg, s, o) && CanFly(cfg, s, id, step)
    ensures Inv(cfg, FlyNext(cfg, s, id, step), o') && Unanswered(cfg, FlyNext(cfg, s, id, step), o')
  {
    o' := FlyInv(cfg, s, o, id, step);
    if step.OpenIt? {
      OpenUnanswered(cfg, s, id, o');
    } else if s.flights[id].pc.Spent? {
      SpentUnanswered(cfg, s, o, id);
    }
  }

  lemma OpenUnanswered(cfg: Config, s: RunSt, id: ItemId, o': Option<Token>)
    requires id in s.flights && s.flights[id].pc.OpenWait? && Placed(cfg, s, Some(FlightTok(id)))
    ensures Unanswered(cfg, FlyNext(cfg, s, id, OpenIt), o')
  {
    FlyFrame(cfg, s, id, OpenIt);
  }

  lemma SpentUnanswered(cfg: Config, s: RunSt, o: Option<Token>, id: ItemId)
    requires id in s.flights && s.flights[id].pc.Spent? && Unanswered(cfg, s, o)
    ensures Unanswered(cfg, FlyNext(cfg, s, id, SweepIt), o)
  {
    var s' := FlyNext(cfg, s, id, SweepIt);
    assert s'.db == s.db.Remove(id) && s'.runner == s.runner;
  }

  /** The runner writes the memo of a wait: the last row was not completed, or has this
      output already. */
  lemma SaveMemoKeeps(cfg: Config, s: RunSt, o: Option<Token>)
    requires Inv(cfg, s, o) && Unanswered(cfg, s, o) && s.runner.Saw?
    ensures MemosKept(s.db.steps, Next(cfg, s, SaveMemo).db.steps)
  {
    SaveMemoIs(cfg, s);
    var k := s.runner.key;
    LastKeepsRows(cfg, s.db.steps, StepRow(k, s.db.waits[k].stepId, OpWait, StepCompleted, s.runner.output, "", 0, 0));
  }

  /** The runner's steps: afterwards it has saved the memo, or nothing waits, or it has
      seen an outcome. */
  lemma RunnerUnanswered(cfg: Config, s: RunSt, o: Option<Token>, a: Act, o': Option<Token>)
    requires Inv(cfg, s, o) && Unanswered(cfg, s, o) && Enabled(cfg, s, a) && RunnersStep(a)
    requires Inv(cfg, Next(cfg, s, a), o')
    ensures Unanswered(cfg, Next(cfg, s, a), o')
  {
    RunnerOwns(cfg, s, o, a);
    if a.SeeEvent? || a.SeeExpired? {
      SoleUnique(Next(cfg, s, a), o', WaitTok(a.key));
      SoleUnique(s, o, WaitTok(a.key));
    } else if !a.SaveMemo? {
      RunnerLetsGo(cfg, s, o, a, o');
    }
  }

  /** A runner that settles, clears or enqueues leaves no wait to hold the run. */
  lemma RunnerLetsGo(cfg: Config, s: RunSt, o: Option<Token>, a: Act, o': Option<Token>)
    requires Inv(cfg, s, o) && Enabled(cfg, s, a) && Sole(Next(cfg, s, a), o')
    requires a.SettleWait? || a.ClearWait? || a.FirstEnqueue? || a.EnqueueResume?
    ensures !(o'.Some? && o'.value.WaitTok?)
  {
    var s' := Next(cfg, s, a);
    if a.SettleWait? {
      SoleUnique(s', o', RunnerTok);
    } else if a.ClearWait? {
      ClearInv(cfg, s, o);
      assert forall t :: !Holds(s', t);
    } else {
      assert s'.db.waits == s.db.waits;
      SoleUnique(s, o, RunnerTok);
      assert forall k :: Holds(s', WaitTok(k)) <==> Holds(s, WaitTok(k));
    }
  }

  /** Cancel, timeout, the end of its waits and a restart: a wait that holds the run
      afterwards held it before. */
  lemma WaitStays(cfg: Config, s: RunSt, o: Option<Token>, a: Act, k: Hash)
    requires Sole(s, o) && (a.CancelRun? || a.TimeoutRun? || a.ClearWaits? || a.Crash?)
    requires Holds(Next(cfg, s, a), WaitTok(k))
    ensures o == Some(WaitTok(k)) && !a.ClearWaits? && Next(cfg, s, a).db.waits == s.db.waits
    ensures Next(cfg, s, a).db.steps == s.db.steps && (Next(cfg, s, a).db.Live() ==> s.db.Live())
    ensures Next(cfg, s, a).runner == if a.Crash? then Idle else s.runner
  {
    OtherFrame(cfg, s, a);
    SoleUnique(s, o, WaitTok(k));
  }

  lemma EndUnanswered(cfg: Config, s: RunSt, o: Option<Token>, a: Act, o': Option<Token>)
    requires Inv(cfg, s, o) && Unanswered(cfg, s, o) && Inv(cfg, Next(cfg, s, a), o')
    requires a.CancelRun? || a.TimeoutRun? || a.ClearWaits? || (a.Crash? && !Forgetful(cfg, s))
    ensures Unanswered(cfg, Next(cfg, s, a), o')
  {
    if o'.Some? && o'.value.WaitTok? {
      assert Holds(Next(cfg, s, a), o'.value);
      WaitStays(cfg, s, o, a, o'.value.key);
    }
  }

  /** Every step but a forgetful restart keeps the memos. */
  lemma {:induction false} StepKeepsMemos(cfg: Config, s: RunSt, o: Option<Token>, a: Act) returns (o': Option<Token>)
    requires Inv(cfg, s, o) && Unanswered(cfg, s, o) && Enabled(cfg, s, a) && Tame(s, a)
    requires a.Crash? ==> !Forgetful(cfg, s)
    ensures Inv(cfg, Next(cfg, s, a), o') && Unanswered(cfg, Next(cfg, s, a), o')
    ensures MemosKept(s.db.steps, Next(cfg, s, a).db.steps)
  {
    if a.Fly? {
      o' := FlyUnanswered(cfg, s, o, a.id, a.step);
      FlyKeepsMemos(cfg, s, o, a.id, a.step);
    } else {
      o' := StepInv(cfg, s, o, a);
      OtherFrame(cfg, s, a);
      if a.SaveMemo? { SaveMemoKeeps(cfg, s, o); }
      if RunnersStep(a) {
        RunnerUnanswered(cfg, s, o, a, o');
      } else if a.Lease? {
        SoleUnique(Next(cfg, s, a), o', FlightTok(a.id));
      } else {
        EndUnanswered(cfg, s, o, a, o');
      }
    }
  }

  /** None of the restarts in `acts` is forgetful. */
  ghost predicate Mindful(cfg: Config, s: RunSt, acts: seq<Act>)
    decreases |acts|
  {
    acts == [] || ((acts[0].Crash? ==> !Forgetful(cfg, s)) && Mindful(cfg, Next(cfg, s, acts[0]), acts[1..]))
  }

  lemma {:induction false} CrashFreeMindful(cfg: Config, s: RunSt, acts: seq<Act>)
    requires CrashFree(acts)
    ensures Mindful(cfg, s, acts)
    decreases |acts|
  {
    if acts != [] {
      assert acts[0] in acts;
      CrashFreeMindful(cfg, Next(cfg, s, acts[0]), acts[1..]);
    }
  }

  lemma {:induction false} ExecKeepsMemos(cfg: Config, s: RunSt, o: Option<Token>, acts: seq<Act>) returns (o': Option<Token>)
    requires Inv(cfg, s, o) && Unanswered(cfg, s, o) && Possible(cfg, s, acts) && Mindful(cfg, s, acts)
    ensures Inv(cfg, Exec(cfg, s, acts), o') && Unanswered(cfg, Exec(cfg, s, acts), o')
    ensures MemosKept(s.db.steps, Exec(cfg, s, acts).db.steps)
    decreases |acts|
  {
    o' := o;
    if acts != [] {
      o' := StepKeepsMemos(cfg, s, o, acts[0]);
      o' := ExecKeepsMemos(cfg, Next(cfg, s, acts[0]), o', acts[1..]);
    }
  }

  lemma {:induction false} MindfulSplit(cfg: Config, s: RunSt, acts: seq<Act>, n: nat)
    requires n <= |acts| && Mindful(cfg, s, acts)
    ensures Mindful(cfg, s, acts[..n]) && Mindful(cfg, Exec(cfg, s, acts[..n]), acts[n..])
    decreases n
  {
    if n > 0 {
      MindfulSplit(cfg, Next(cfg, s, acts[0]), acts[1..], n - 1);
      assert acts[..n][1..] == acts[1..][..n - 1];
      assert acts[1..][n - 1..] == acts[n..];
    } else {
      assert acts[0..] == acts;
    }
  }

  /** Memos only move forward: in every history none of whose restarts is forgetful, a memo
      that is completed at some point has the same status and output at every later point. */
  lemma MemosMoveForward(cfg: Config, acts: seq<Act>, n: nat, i: nat)
    requires Possible(cfg, Init(), acts) && Mindful(cfg, Init(), acts) && n <= |acts|
    requires var rows := Exec(cfg, Init(), acts[..n]).db.steps;
             i < |rows| && rows[i].status.StepCompleted?
    ensures var rows, u := Exec(cfg, Init(), acts[..n]).db.steps, Exec(cfg, Init(), acts).db.steps;
            i < |u| && SameMemo(rows[i], u[i])
  {
    InitInv(cfg);
    ExecSplit(cfg, Init(), acts, n);
    MindfulSplit(cfg, Init(), acts, n);
    var o := ExecKeepsMemos(cfg, Init(), Some(RunnerTok), acts[..n]);
    var _ := ExecKeepsMemos(cfg, Exec(cfg, Init(), acts[..n]), o, acts[n..]);
  }

  /** Some crash-free continuation changes a completed memo. */
  ghost predicate Forgets(cfg: Config, t: RunSt) {
    exists u :: Leads(cfg, t, u) && !MemosKept(t.db.steps, u.db.steps)
  }

  /** The runner sees another outcome of the wait, and saves it. */
  lemma SecondOutcome(cfg: Config, t: RunSt, k: Hash, other: Json, final: WaitStatus)
    requires t.db.Live() && t.runner.Idle? && k in t.db.waits && t.db.waits[k].status == Waiting
    requires Settles(cfg, t.db.waits[k], other, final) && InOrder(cfg, t) && LastIs(t.db.steps, StepCompleted)
    requires t.db.steps[|t.db.steps| - 1].key == k && t.db.steps[|t.db.steps| - 1].output != other
    ensures Forgets(cfg, t)
  {
    LeadsNot(cfg, t);
    var see := if final == Resolved then SeeEvent(k, other.event) else SeeExpired(k, t.db.waits[k].expires.value + 1);
    LeadsOn(cfg, t, t, see);
    assert Next(cfg, t, see) == t.(runner := Saw(k, other, final));
    SecondSave(cfg, t, t.(runner := Saw(k, other, final)));
  }

  lemma SecondSave(cfg: Config, t: RunSt, u: RunSt)
    requires Leads(cfg, t, u) && u.runner.Saw? && u.db == t.db && u.runner.key in u.db.waits
    requires InOrder(cfg, t) && LastIs(t.db.steps, StepCompleted)
    requires var last := t.db.steps[|t.db.steps| - 1]; last.key == u.runner.key && last.output != u.runner.output
    ensures Forgets(cfg, t)
  {
    LeadsOn(cfg, t, u, SaveMemo);
    OtherMemo(cfg, u);
  }

  lemma OtherMemo(cfg: Config, u: RunSt)
    requires u.runner.Saw? && u.runner.key in u.db.waits && InOrder(cfg, u) && LastIs(u.db.steps, StepCompleted)
    requires var last := u.db.steps[|u.db.steps| - 1]; last.key == u.runner.key && last.output != u.runner.output
    ensures !MemosKept(u.db.steps, Next(cfg, u, SaveMemo).db.steps)
  {
    var k := u.runner.key;
    SaveMemoIs(cfg, u);
    OtherRow(cfg, u.db.steps, StepRow(k, u.db.waits[k].stepId, OpWait, StepCompleted, u.runner.output, "", 0, 0),
             Next(cfg, u, SaveMemo).db.steps);
  }

  lemma OtherRow(cfg: Config, rows: seq<StepRow>, r: StepRow, u: seq<StepRow>)
    requires Ordered(cfg.handler, cfg.functionId, cfg.input, rows) && LastIs(rows, StepCompleted)
    requires r.key == rows[|rows| - 1].key && r.output != rows[|rows| - 1].output && u == Upsert(rows, r)
    ensures !MemosKept(rows, u)
  {
    UpsertLast(cfg.handler, cfg.functionId, cfg.input, rows, r);
    assert !SameMemo(rows[|rows| - 1], u[|rows| - 1]);
  }

  /** A restart lets a completed memo be changed if and only if it is forgetful: it falls
      between saving the outcome of a wait and settling the wait, the run is live, and the
      wait could still have another outcome, an event it matches or its timeout. */
  lemma RestartForgetsIff(cfg: Config, acts: seq<Act>, requeued: set<ItemId>)
    requires Possible(cfg, Init(), acts) && Mindful(cfg, Init(), acts)
    requires Tame(Exec(cfg, Init(), acts), Crash(requeued))
    ensures var s := Exec(cfg, Init(), acts);
            Forgets(cfg, Next(cfg, s, Crash(requeued))) <==> Forgetful(cfg, s)
  {
    InitInv(cfg);
    var o := ExecKeepsMemos(cfg, Init(), Some(RunnerTok), acts);
    var s := Exec(cfg, Init(), acts);
    var t := Next(cfg, s, Crash(requeued));
    if Forgetful(cfg, s) {
      var k := s.runner.key;
      var other, final :| Settles(cfg, s.db.waits[k], other, final) && other != s.runner.output;
      assert Holds(s, WaitTok(k));
      SecondOutcome(cfg, t, k, other, final);
    } else {
      var o' := StepKeepsMemos(cfg, s, o, Crash(requeued));
      forall u | Leads(cfg, t, u) ensures MemosKept(t.db.steps, u.db.steps) {
        var more :| Possible(cfg, t, more) && CrashFree(more) && Exec(cfg, t, more) == u;
        CrashFreeMindful(cfg, t, more);
        var _ := ExecKeepsMemos(cfg, t, o', more);
      }
    }
  }

  // ---------- a memo that is changed ----------

  predicate FirstWait(s: RunSt, k: Hash) {
    |s.db.steps| == 1 && s.db.steps[0].key == k && s.db.Live() && s.runner.Idle?
  }

  /** The first callback opens a wait, and the dispatch ends. */
  lemma OpenFirstWait(cfg: Config, k: Hash) returns (s: RunSt)
    requires cfg == RunRestart.WaitConfig() && k == Key("f", "w", 0)
    ensures Leads(cfg, Init(), s) && FirstWait(s, k) && s.flights == map[]
    ensures s.db.waits == map[k := Wait("w", "go", "", None, Waiting)]
  {
    RunRestart.AnswersWait();
    var op := WaitForEvent(k, "w", "go", "", Forever);
    s := FirstCallback(cfg, op);
    s := SaveWait(cfg, s, op);
    LeadsOn(cfg, Init(), s, Fly(0, SweepIt));
    s := FlyNext(cfg, s, 0, SweepIt);
  }

  lemma SaveWait(cfg: Config, t: RunSt, op: Opcode) returns (s: RunSt)
    requires Leads(cfg, Init(), t) && FirstDispatch(t) && t.flights[0].pc.Apply? && t.flights[0].pc.op == op
    requires op.WaitForEvent? && Waitable(op.event, op.timeout) && op.timeout.Forever?
    ensures Leads(cfg, Init(), s) && FirstWait(s, op.key) && s.flights.Keys == {0} && s.flights[0].pc.Spent?
    ensures s.db.waits == map[op.key := Wait(op.stepId, op.event, op.pattern, None, Waiting)]
  {
    LeadsOn(cfg, Init(), t, Fly(0, Commit(0)));
    s := FlyNext(cfg, t, 0, Commit(0));
    LeadsOn(cfg, Init(), s, Fly(0, OpenIt));
    s := FlyNext(cfg, s, 0, OpenIt);
  }

  /** It happens: the memo of a wait is saved with one event, the platform restarts, and
      another event of that name takes its place. */
  lemma MemoChangedAfterRestart() returns (s: RunSt)
    ensures Leads(RunRestart.WaitConfig(), Init(), s) && s.flights == map[]
    ensures Forgets(RunRestart.WaitConfig(), Next(RunRestart.WaitConfig(), s, Crash({})))
  {
    var cfg, k := RunRestart.WaitConfig(), Key("f", "w", 0);
    var one, two := Event("x", "go", "", 0), Event("y", "go", "", 0);
    s := OpenFirstWait(cfg, k);
    LeadsOn(cfg, Init(), s, SeeEvent(k, one));
    s := Next(cfg, s, SeeEvent(k, one));
    LeadsOn(cfg, Init(), s, SaveMemo);
    s := Next(cfg, s, SaveMemo);
    var acts :| Possible(cfg, Init(), acts) && CrashFree(acts) && Exec(cfg, Init(), acts) == s;
    CrashFreeMindful(cfg, Init(), acts);
    assert Settles(cfg, s.db.waits[k], Arrived(two), Resolved) && Arrived(two) != s.runner.output;
    RestartForgetsIff(cfg, acts, {});
  }
}
