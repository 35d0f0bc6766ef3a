/** What a restart does to a run: between CreateWait and the CompleteQueueItem after it, it
    can leave the run with two places to go on from; before a lease has expired, with none. */
module RunRestart {
  import opened StepKeys
  import opened Sdk
  import opened RunStore
  import opened RunMachine
  import opened RunSafety
  import opened Wrappers

  /** A dispatch that has created its wait but not yet removed its queue item. */
  predicate InWindow(s: RunSt, id: ItemId) {
    id in s.flights && s.flights[id].pc.Spent?
  }

  /** What the rest of the run goes on from is still there after a restart. */
  predicate Survives(s: RunSt, o: Option<Token>) {
    match o
    case Some(ItemTok(_)) => true
    case Some(WaitTok(_)) => true
    case Some(FlightTok(id)) => id in s.flights && !s.flights[id].pc.Hop?
    case _ => false
  }

  /** After a restart at any moment the run has at most one place to go on from if and
      only if no dispatch was in the window, or one was and nothing else survives. */
  lemma {:induction false} RestartKeepsOneIff(cfg: Config, s: RunSt, o: Option<Token>, requeued: set<ItemId>)
    requires Inv(cfg, s, o)
    ensures (exists o' :: Sole(Next(cfg, s, Crash(requeued)), o'))
            <==> (forall i, j :: InWindow(s, i) ==> (InWindow(s, j) ==> i == j) && !Survives(s, o))
  {
    var s' := Next(cfg, s, Crash(requeued));
    if i, j :| InWindow(s, i) && InWindow(s, j) && i != j {
      assert Holds(s', ItemTok(i)) && Holds(s', ItemTok(j));
    } else if i :| InWindow(s, i) {
      assert Holds(s', ItemTok(i));
      if Survives(s, o) {
        TwoPlaces(cfg, s, o.value, i, requeued);
      } else {
        forall t ensures Holds(s', t) <==> Some(ItemTok(i)) == Some(t) {
          assert Holds(s, t) <==> o == Some(t);
          if t.ItemTok? {
            assert Holds(s, FlightTok(t.id)) <==> o == Some(FlightTok(t.id));
            assert InWindow(s, t.id) <==> t.id == i;
          }
        }
        assert Sole(s', Some(ItemTok(i)));
      }
    } else {
      assert forall id :: id in s.flights ==> !InWindow(s, id);
      var o' := CrashInv(cfg, s, o, requeued);
    }
  }

  lemma TwoPlaces(cfg: Config, s: RunSt, t: Token, i: ItemId, requeued: set<ItemId>)
    requires Inv(cfg, s, Some(t)) && InWindow(s, i) && Survives(s, Some(t))
    ensures !exists o' :: Sole(Next(cfg, s, Crash(requeued)), o')
  {
    var s' := Next(cfg, s, Crash(requeued));
    assert Holds(s, t);
    var u := if t.FlightTok? then ItemTok(t.id) else t;
    assert Holds(s', ItemTok(i)) && Holds(s', u) && u != ItemTok(i);
  }

  /** As `Possible`, with restarts at any moment. */
  ghost predicate PossibleAny(cfg: Config, s: RunSt, acts: seq<Act>)
    decreases |acts|
  {
    acts == [] || (Enabled(cfg, s, acts[0]) && PossibleAny(cfg, Next(cfg, s, acts[0]), acts[1..]))
  }

  lemma {:induction false} AnySnoc(cfg: Config, s: RunSt, acts: seq<Act>, a: Act)
    requires PossibleAny(cfg, s, acts) && Enabled(cfg, Exec(cfg, s, acts), a)
    ensures PossibleAny(cfg, s, acts + [a])
    decreases |acts|
  {
    if acts == [] {
      assert (acts + [a])[1..] == [];
    } else {
      AnySnoc(cfg, Next(cfg, s, acts[0]), acts[1..], a);
      assert (acts + [a])[1..] == acts[1..] + [a];
    }
  }

  ghost predicate Arrives(cfg: Config, t: RunSt) {
    exists acts :: PossibleAny(cfg, Init(), acts) && Exec(cfg, Init(), acts) == t
  }

  lemma ArriveOn(cfg: Config, t: RunSt, a: Act)
    requires Arrives(cfg, t) && Enabled(cfg, t, a)
    ensures Arrives(cfg, Next(cfg, t, a))
  {
    var acts :| PossibleAny(cfg, Init(), acts) && Exec(cfg, Init(), acts) == t;
    AnySnoc(cfg, Init(), acts, a);
    ExecSnoc(cfg, Init(), acts, a);
  }

  /** One dispatch of a live, unthrottled, registered run from its lease to the callback. */
  lemma CallOut(cfg: Config, t: RunSt, id: ItemId) returns (u: RunSt)
    requires Arrives(cfg, t) && t.db.Live() && !cfg.throttled
    requires id in t.db.items && !t.db.items[id].leased && t.db.items[id].at <= 0 && id !in t.flights
    ensures Arrives(cfg, u) && id in u.flights && u.flights[id].pc.Calling? && u.flights[id].pc.memos == CompletedMemos(u.db.steps)
    ensures u.flights == t.flights[id := u.flights[id]] && u.runner == t.runner
    ensures u.db.Live() && u.db.waits == t.db.waits && u.db.steps == t.db.CompleteSleeping().steps
    ensures u.db.items == t.db.items[id := t.db.items[id].(leased := true)]
  {
    ArriveOn(cfg, t, Lease(id, 0));
    u := Next(cfg, t, Lease(id, 0));
    u := CountOut(cfg, u, id);
    u := SendOut(cfg, u, id, u.flights[id].pc.attempt);
  }

  lemma CountOut(cfg: Config, t: RunSt, id: ItemId) returns (u: RunSt)
    requires Arrives(cfg, t) && t.db.Live() && !cfg.throttled && id in t.flights && t.flights[id].pc == Start
    ensures Arrives(cfg, u) && id in u.flights && u.flights[id].pc.Mark? && u.flights == t.flights[id := u.flights[id]]
    ensures u.db.Live() && u.db == t.db.(row := u.db.row) && u.runner == t.runner
  {
    ArriveOn(cfg, t, Fly(id, ReadRun(true)));
    u := FlyNext(cfg, t, id, ReadRun(true));
    ArriveOn(cfg, u, Fly(id, Increment));
    u := FlyNext(cfg, u, id, Increment);
  }

  lemma SendOut(cfg: Config, t: RunSt, id: ItemId, n: nat) returns (u: RunSt)
    requires Arrives(cfg, t) && t.db.Live() && id in t.flights && t.flights[id].pc == Mark(n)
    ensures Arrives(cfg, u) && id in u.flights && u.flights[id].pc.Calling? && u.flights[id].pc.memos == CompletedMemos(u.db.steps)
    ensures u.flights == t.flights[id := u.flights[id]] && u.runner == t.runner
    ensures u.db.Live() && u.db.waits == t.db.waits && u.db.steps == t.db.CompleteSleeping().steps && u.db.items == t.db.items
  {
    ArriveOn(cfg, t, Fly(id, MarkIt));
    u := WakeOut(cfg, FlyNext(cfg, t, id, MarkIt), id, n);
  }

  lemma WakeOut(cfg: Config, t: RunSt, id: ItemId, n: nat) returns (u: RunSt)
    requires Arrives(cfg, t) && t.db.Live() && id in t.flights && t.flights[id].pc == Wake(n)
    ensures Arrives(cfg, u) && id in u.flights && u.flights[id].pc.Calling? && u.flights[id].pc.memos == CompletedMemos(u.db.steps)
    ensures u.flights == t.flights[id := u.flights[id]] && u.runner == t.runner
    ensures u.db.Live() && u.db.waits == t.db.waits && u.db.steps == t.db.CompleteSleeping().steps && u.db.items == t.db.items
  {
    ArriveOn(cfg, t, Fly(id, WakeIt));
    u := FlyNext(cfg, t, id, WakeIt);
    ArriveOn(cfg, u, Fly(id, LoadIt));
    u := FlyNext(cfg, u, id, LoadIt);
  }

  /** A handler that waits for one event and returns it. */
  function WaitForGo(inp: Input, outs: seq<Json>): Action {
    if outs == [] then Call("w", WaitStep("go", "", Forever)) else Return(outs[0])
  }

  const ANY_INPUT := Input(Event("e", "start", "", 0), [])

  function WaitConfig(): Config {
    Config(WaitForGo, "f", "r", ANY_INPUT, false, 4, (p: string, e: Event, i: Input) => true)
  }

  lemma AnswersWait()
    ensures Answers(WaitForGo, "f", ANY_INPUT, map[], WaitForEvent(Key("f", "w", 0), "w", "go", "", Forever))
  {
    assert StopsAt(WaitForGo, "f", ANY_INPUT, map[], []);
    assert Reports(WaitForGo, "f", ANY_INPUT, [], WaitForEvent(Key("f", "w", 0), "w", "go", "", Forever));
  }

  /** The window is real: a restart in it, an event that resolves the wait, and two
      callbacks of one run are in flight at once. */
  lemma TwoCallbacksAfterRestart() returns (t: RunSt)
    ensures Arrives(WaitConfig(), t)
    ensures 0 in t.flights && 1 in t.flights && t.flights[0].pc.Calling? && t.flights[1].pc.Calling?
  {
    var cfg := WaitConfig();
    var k := Key("f", "w", 0);
    t := CallFirst(cfg);
    AnswersWait();
    t := OpenTheWait(cfg, t, k);
    ArriveOn(cfg, t, Crash({0}));
    t := Next(cfg, t, Crash({0}));
    t := CallOut(cfg, t, 0);
    t := ResolveTheWait(cfg, t, k);
    t := CallOut(cfg, t, 1);
  }

  lemma CallFirst(cfg: Config) returns (t: RunSt)
    requires cfg == WaitConfig()
    ensures Arrives(cfg, t) && t.db.Live() && t.flights.Keys == {0} && t.flights[0].pc.Calling? && t.flights[0].pc.memos == map[]
    ensures t.db.steps == [] && t.db.waits == map[] && t.runner == Idle && t.db.items == map[0 := Item(0, true)]
  {
    t := Init();
    assert Exec(cfg, Init(), []) == t;
    ArriveOn(cfg, t, FirstEnqueue(0, 0));
    t := CallOut(cfg, Next(cfg, t, FirstEnqueue(0, 0)), 0);
    assert t.db.steps == [];
  }

  lemma OpenTheWait(cfg: Config, s: RunSt, k: Hash) returns (t: RunSt)
    requires cfg == WaitConfig() && Arrives(cfg, s) && s.db.Live() && k == Key("f", "w", 0)
    requires 0 in s.flights && s.flights[0].pc.Calling? && s.flights[0].pc.memos == map[]
    requires s.db.steps == [] && s.db.waits == map[] && s.runner == Idle && s.flights.Keys == {0}
    requires s.db.items.Keys == {0} && s.db.items[0].at <= 0
    requires Answers(WaitForGo, "f", ANY_INPUT, map[], WaitForEvent(k, "w", "go", "", Forever))
    ensures Arrives(cfg, t) && t.db.Live() && t.runner == Idle && t.flights.Keys == {0} && t.flights[0].pc.Spent?
    ensures t.db.items == s.db.items && t.db.waits == map[k := Wait("w", "go", "", None, Waiting)]
  {
    var op := WaitForEvent(k, "w", "go", "", Forever);
    ArriveOn(cfg, s, Fly(0, Respond(Answer(op))));
    t := FlyNext(cfg, s, 0, Respond(Answer(op)));
    ArriveOn(cfg, t, Fly(0, RecheckIt));
    t := FlyNext(cfg, t, 0, RecheckIt);
    t := SaveTheWait(cfg, t, op);
  }

  lemma SaveTheWait(cfg: Config, s: RunSt, op: Opcode) returns (t: RunSt)
    requires Arrives(cfg, s) && s.db.Live() && s.flights.Keys == {0} && s.flights[0].pc.Apply? && s.flights[0].pc.op == op
    requires op.WaitForEvent? && Waitable(op.event, op.timeout) && op.timeout == Forever && s.db.waits == map[] && s.runner == Idle
    ensures Arrives(cfg, t) && t.db.Live() && t.runner == Idle && t.flights.Keys == {0} && t.flights[0].pc.Spent?
    ensures t.db.items == s.db.items && t.db.waits == map[op.key := Wait(op.stepId, op.event, op.pattern, None, Waiting)]
  {
    ArriveOn(cfg, s, Fly(0, Commit(0)));
    t := FlyNext(cfg, s, 0, Commit(0));
    ArriveOn(cfg, t, Fly(0, OpenIt));
    t := FlyNext(cfg, t, 0, OpenIt);
  }

  lemma ResolveTheWait(cfg: Config, s: RunSt, k: Hash) returns (t: RunSt)
    requires cfg == WaitConfig() && Arrives(cfg, s) && s.db.Live() && s.runner == Idle
    requires s.db.waits == map[k := Wait("w", "go", "", None, Waiting)]
    requires s.flights.Keys == {0} && s.db.items.Keys == {0}
    ensures Arrives(cfg, t) && t.db.Live() && t.flights == s.flights
    ensures 1 in t.db.items && t.db.items[1] == Item(0, false)
  {
    var e := Event("x", "go", "", 0);
    ArriveOn(cfg, s, SeeEvent(k, e));
    t := Next(cfg, s, SeeEvent(k, e));
    ArriveOn(cfg, t, SaveMemo);
    t := Next(cfg, t, SaveMemo);
    ArriveOn(cfg, t, SettleWait);
    t := Next(cfg, t, SettleWait);
    ArriveOn(cfg, t, EnqueueResume(1, 0));
    t := Next(cfg, t, EnqueueResume(1, 0));
  }

  // ---------- leases that outlive the restart ----------

  /** The items that a restart at `now` requeues: those whose lease has expired. */
  function Requeued(s: RunSt, expires: map<ItemId, Time>, now: Time): set<ItemId> {
    set i | i in s.db.items && i in expires && expires[i] <= now
  }

  /** Nothing is left that could go on: no dispatch, no runner at work, no item to lease,
      no wait to resolve. */
  predicate Stranded(s: RunSt) {
    && s.flights == map[] && s.runner.Idle?
    && (forall i :: i in s.db.items ==> s.db.items[i].leased)
    && (forall k :: k in s.db.waits ==> s.db.waits[k].status != Waiting)
  }

  lemma {:induction false} StrandedStays(cfg: Config, s: RunSt, acts: seq<Act>)
    requires Stranded(s) && Possible(cfg, s, acts) && CrashFree(acts)
    ensures Stranded(Exec(cfg, s, acts))
    decreases |acts|
  {
    if acts != [] {
      assert acts[0] in acts;
      StrandedStays(cfg, Next(cfg, s, acts[0]), acts[1..]);
    }
  }

  /** A dispatch of the run will be possible without another restart. */
  ghost predicate Resumable(cfg: Config, s: RunSt) {
    exists acts :: Possible(cfg, s, acts) && CrashFree(acts) && Exec(cfg, s, acts).flights != map[]
  }

  /** A run whose dispatch a restart cuts short is taken up again without another restart
      if and only if the restart does not fall between removing its item and enqueueing
      the next, and the lease of its item has expired when the platform starts: leases
      are looked at then, and never later. */
  lemma RestartResumesIff(cfg: Config, s: RunSt, id: ItemId, expires: map<ItemId, Time>, now: Time)
    requires Inv(cfg, s, Some(FlightTok(id))) && id in s.flights && forall i :: !InWindow(s, i)
    ensures Resumable(cfg, Next(cfg, s, Crash(Requeued(s, expires, now))))
            <==> !s.flights[id].pc.Hop? && id in expires && expires[id] <= now
  {
    var t := Next(cfg, s, Crash(Requeued(s, expires, now)));
    OnlyItem(cfg, s, Some(FlightTok(id)));
    if !s.flights[id].pc.Hop? && id in expires && expires[id] <= now {
      var acts := [Lease(id, t.db.items[id].at)];
      assert acts[1..] == [];
      assert Possible(cfg, t, acts);
      assert id in Exec(cfg, t, acts).flights;
    } else {
      NeverAgain(cfg, t);
    }
  }

  /** A restart between creating a run, or settling its wait, and enqueueing its item
      strands the run. */
  lemma RestartStrandsEnqueue(cfg: Config, s: RunSt, requeued: set<ItemId>)
    requires Inv(cfg, s, Some(RunnerTok)) && forall i :: !InWindow(s, i)
    ensures !Resumable(cfg, Next(cfg, s, Crash(requeued)))
  {
    OnlyItem(cfg, s, Some(RunnerTok));
    NeverAgain(cfg, Next(cfg, s, Crash(requeued)));
  }

  lemma NeverAgain(cfg: Config, t: RunSt)
    requires Stranded(t)
    ensures !Resumable(cfg, t)
  {
    forall acts | Possible(cfg, t, acts) && CrashFree(acts) ensures Exec(cfg, t, acts).flights == map[] {
      StrandedStays(cfg, t, acts);
    }
  }

  /** A run in a dispatch or a hand-over has no item but that of its dispatch, and no wait
      to resolve. */
  lemma OnlyItem(cfg: Config, s: RunSt, o: Option<Token>)
    requires Inv(cfg, s, o) && o.Some? && (o.value.FlightTok? || o.value.RunnerTok?) && forall i :: !InWindow(s, i)
    ensures forall i :: i in s.db.items ==> o == Some(FlightTok(i)) && s.db.items[i].leased && i in s.flights && !s.flights[i].pc.Hop?
    ensures o.value.FlightTok? && o.value.id in s.flights && !s.flights[o.value.id].pc.Hop? ==> o.value.id in s.db.items
    ensures forall k :: k in s.db.waits ==> s.db.waits[k].status != Waiting
  {
    forall i | i in s.db.items ensures i in s.flights && o == Some(FlightTok(i)) {
      assert Holds(s, ItemTok(i)) <==> o == Some(ItemTok(i));
      assert !InWindow(s, i);
      assert Holds(s, FlightTok(i)) <==> o == Some(FlightTok(i));
    }
    forall k | k in s.db.waits ensures s.db.waits[k].status != Waiting {
      assert Holds(s, WaitTok(k)) <==> o == Some(WaitTok(k));
    }
  }
}
