/** The runner's loops over suspended runs: resuming waits that an event matches or
    whose timeout has passed. Each is a path of every run's machine. */
module WaitRunner {
  import opened StepKeys
  import opened Sdk
  import opened RunStore
  import opened RunMachine
  import DispatchEffects
  import opened Wrappers

  type World = map<RunId, RunSt>

  type WaitRef = (RunId, Hash)

  /** What sets the runner to work: an event, or the clock. */
  datatype Cause = ByEvent(e: Event, now: Time) | ByClock(now: Time)

  /** The steps the runner takes for a cause. */
  predicate Due(c: Cause, a: Act) {
    match a
    case SeeEvent(_, e) => c.ByEvent? && e == c.e
    case SeeExpired(_, now) => c.ByClock? && now == c.now
    case SaveMemo => true
    case SettleWait => true
    case EnqueueResume(_, now) => now == c.now
    case ClearWait => true
    case _ => false
  }

  /** `t` is reached from `s` by steps of the runner for a cause. */
  ghost predicate Reaches(cfg: Config, c: Cause, s: RunSt, t: RunSt) {
    exists acts: seq<Act> :: ReachesBy(cfg, c, s, t, acts)
  }

  ghost predicate ReachesBy(cfg: Config, c: Cause, s: RunSt, t: RunSt, acts: seq<Act>) {
    Possible(cfg, s, acts) && Exec(cfg, s, acts) == t && forall i :: 0 <= i < |acts| ==> Due(c, acts[i])
  }

  lemma ReachesNot(cfg: Config, c: Cause, s: RunSt)
    ensures Reaches(cfg, c, s, s)
  {
    assert ReachesBy(cfg, c, s, s, []);
  }

  lemma ReachesOn(cfg: Config, c: Cause, s: RunSt, t: RunSt, a: Act)
    requires Reaches(cfg, c, s, t) && Enabled(cfg, t, a) && Due(c, a)
    ensures Reaches(cfg, c, s, Next(cfg, t, a))
  {
    var acts :| ReachesBy(cfg, c, s, t, acts);
    ExecSnoc(cfg, s, acts, a);
    assert ReachesBy(cfg, c, s, Next(cfg, t, a), acts + [a]);
  }

  /** The runner saves the memo of a wait it has seen an outcome for, and settles the wait. */
  lemma MemoOn(cfg: Config, c: Cause, s: RunSt, t: RunSt, k: Hash, output: Json, final: WaitStatus) returns (t': RunSt)
    requires Reaches(cfg, c, s, t) && t.runner == Saw(k, output, final) && k in t.db.waits
    ensures Reaches(cfg, c, s, t') && t'.runner == Saved(k, output, final) && t'.flights == t.flights
    ensures t'.db == t.db.SaveStep(StepRow(k, t.db.waits[k].stepId, OpWait, StepCompleted, output, "", 0, 0))
  {
    ReachesOn(cfg, c, s, t, SaveMemo);
    t' := Next(cfg, t, SaveMemo);
  }

  lemma SettleOn(cfg: Config, c: Cause, s: RunSt, t: RunSt, k: Hash, output: Json, final: WaitStatus) returns (t': RunSt)
    requires Reaches(cfg, c, s, t) && t.runner == Saved(k, output, final)
    ensures Reaches(cfg, c, s, t') && t'.runner == Resume && t'.flights == t.flights && t'.db == t.db.SetWait(k, final)
  {
    ReachesOn(cfg, c, s, t, SettleWait);
    t' := Next(cfg, t, SettleWait);
  }

  predicate UsedBelow(s: RunSt, free: ItemId) {
    (forall i :: i in s.db.items ==> i < free) && (forall i :: i in s.flights ==> i < free)
  }

  /** A wait that `WaitingWaitsForEvent` lists. */
  predicate Listed(d: RunDb, k: Hash, event: string) {
    k in d.waits && d.waits[k].status == Waiting && d.waits[k].event == event
  }

  /** A wait that `ExpiredWaits` lists. */
  predicate Expired(d: RunDb, k: Hash, now: Time) {
    k in d.waits && d.waits[k].status == Waiting && d.waits[k].expires.Some? && d.waits[k].expires.value < now
  }

  /** A wait that was opened at `now` has expired at `t` if and only if it has a timeout and
      that has passed. */
  lemma ExpiredIff(d: RunDb, k: Hash, timeout: Timeout, now: Time, t: Time)
    requires k in d.waits && d.waits[k].status == Waiting && DispatchEffects.ExpiresFor(timeout, now, d.waits[k].expires)
    ensures Expired(d, k, t) <==> timeout.After? && t > now + timeout.d
  {}

  /** The tables of a world. */
  function DbOf(w: World): map<RunId, RunDb> {
    map r | r in w :: w[r].db
  }

  /** What becomes of one listed wait when event `e` arrives. */
  predicate Handled(cfg: Config, before: RunDb, after: RunDb, k: Hash, e: Event) {
    k in before.waits && k in after.waits &&
    if before.row.status.Terminal() then after.waits[k] == before.waits[k].(status := WaitCancelled)
    else if cfg.matches(before.waits[k].pattern, e, cfg.input)
    then after.waits[k] == before.waits[k].(status := Resolved)
    else after.waits[k] == before.waits[k]
  }

  /** What becomes of one expired wait. */
  predicate GivenUp(before: RunDb, after: RunDb, k: Hash) {
    k in before.waits && k in after.waits &&
    after.waits[k] == before.waits[k].(status := if before.row.status.Terminal() then WaitCancelled else TimedOut)
  }

  predicate SameWait(before: RunDb, after: RunDb, k: Hash) {
    k in before.waits && k in after.waits && after.waits[k] == before.waits[k]
  }

  /** The loops' progress from world `w` to `v`: the references in `todo` are untouched. */
  ghost predicate Progress(cfgs: map<RunId, Config>, c: Cause, w: World, v: World, listed: set<WaitRef>, todo: set<WaitRef>) {
    && v.Keys == w.Keys <= cfgs.Keys && todo <= listed
    && (forall r :: r in w ==> Reaches(cfgs[r], c, w[r], v[r]) && v[r].db.row == w[r].db.row)
    && (forall p: WaitRef :: p in listed ==> p.0 in w)
    && (forall p: WaitRef :: p in todo ==> SameWait(w[p.0].db, v[p.0].db, p.1))
  }

  /** One reference is dealt with; only its own wait changes. */
  lemma ProgressOn(cfgs: map<RunId, Config>, c: Cause, w: World, v: World, listed: set<WaitRef>, todo: set<WaitRef>, p: WaitRef, s: RunSt)
    requires Progress(cfgs, c, w, v, listed, todo) && p in todo
    requires Reaches(cfgs[p.0], c, w[p.0], s) && s.db.row == v[p.0].db.row
    requires forall k :: k != p.1 && k in v[p.0].db.waits ==> SameWait(v[p.0].db, s.db, k)
    ensures Progress(cfgs, c, w, v[p.0 := s], listed, todo - {p})
    ensures forall q: WaitRef :: q in listed && q != p && q.1 in v[q.0].db.waits ==> SameWait(v[q.0].db, v[p.0 := s][q.0].db, q.1)
  {
    OthersSame(v, listed, p, s);
    forall q: WaitRef | q in todo - {p} ensures SameWait(w[q.0].db, v[p.0 := s][q.0].db, q.1) {
      assert SameWait(w[q.0].db, v[q.0].db, q.1);
    }
  }

  lemma OthersSame(v: World, listed: set<WaitRef>, p: WaitRef, s: RunSt)
    requires p.0 in v && forall q: WaitRef :: q in listed ==> q.0 in v
    requires forall k :: k != p.1 && k in v[p.0].db.waits ==> SameWait(v[p.0].db, s.db, k)
    ensures forall q: WaitRef :: q in listed && q != p && q.1 in v[q.0].db.waits ==> SameWait(v[q.0].db, v[p.0 := s][q.0].db, q.1)
  {
    forall q: WaitRef | q in listed && q != p && q.1 in v[q.0].db.waits ensures SameWait(v[q.0].db, v[p.0 := s][q.0].db, q.1) {
      assert q.0 == p.0 ==> q.1 != p.1;
    }
  }

  /** The loop of `resumeWaits`. */
  ghost predicate Resuming(cfgs: map<RunId, Config>, c: Cause, w: World, v: World, listed: set<WaitRef>, todo: set<WaitRef>, e: Event) {
    && Progress(cfgs, c, w, v, listed, todo)
    && (forall p: WaitRef :: p in listed ==> Listed(w[p.0].db, p.1, e.name))
    && (forall p: WaitRef :: p in listed && p !in todo ==> Handled(cfgs[p.0], w[p.0].db, v[p.0].db, p.1, e))
  }

  lemma ResumingStart(cfgs: map<RunId, Config>, c: Cause, w: World, listed: set<WaitRef>, e: Event)
    requires w.Keys <= cfgs.Keys && forall p: WaitRef :: p in listed <==> p.0 in DbOf(w) && Listed(DbOf(w)[p.0], p.1, e.name)
    ensures Resuming(cfgs, c, w, w, listed, listed, e)
  {
    forall r | r in w ensures Reaches(cfgs[r], c, w[r], w[r]) { ReachesNot(cfgs[r], c, w[r]); }
  }

  /** The next reference is as it was when it was listed. */
  lemma ResumingNext(cfgs: map<RunId, Config>, c: Cause, w: World, v: World, listed: set<WaitRef>, todo: set<WaitRef>,
                    e: Event, p: WaitRef, free: ItemId)
    requires Resuming(cfgs, c, w, v, listed, todo, e) && p in todo && Ready(v, free)
    ensures p.0 in v && p.0 in w && p.0 in cfgs && Listed(v[p.0].db, p.1, e.name) && Reaches(cfgs[p.0], c, w[p.0], v[p.0])
    ensures v[p.0].runner.Idle? && UsedBelow(v[p.0], free) && p.0 in DbOf(v) && DbOf(v)[p.0] == v[p.0].db
  {
    assert SameWait(w[p.0].db, v[p.0].db, p.1);
  }

  lemma ResumingOn(cfgs: map<RunId, Config>, c: Cause, w: World, v: World, listed: set<WaitRef>, todo: set<WaitRef>,
                  e: Event, p: WaitRef, s: RunSt, free: ItemId)
    requires Resuming(cfgs, c, w, v, listed, todo, e) && p in todo
    requires Reaches(cfgs[p.0], c, w[p.0], s) && s.db.row == v[p.0].db.row
    requires forall k :: k != p.1 && k in v[p.0].db.waits ==> SameWait(v[p.0].db, s.db, k)
    requires Handled(cfgs[p.0], v[p.0].db, s.db, p.1, e)
    requires Ready(v, free) && s.runner.Idle? && UsedBelow(s, free + 1)
    ensures Resuming(cfgs, c, w, v[p.0 := s], listed, todo - {p}, e)
    ensures Ready(v[p.0 := s], free + 1) && DbOf(v[p.0 := s]) == DbOf(v)[p.0 := s.db]
  {
    ReadyOn(v, free, p.0, s);
    ProgressOn(cfgs, c, w, v, listed, todo, p, s);
    assert SameWait(w[p.0].db, v[p.0].db, p.1);
  }

  lemma ResumingDone(cfgs: map<RunId, Config>, c: Cause, w: World, v: World, listed: set<WaitRef>, e: Event)
    requires Resuming(cfgs, c, w, v, listed, {}, e)
    requires forall p: WaitRef :: p in listed <==> p.0 in DbOf(w) && Listed(DbOf(w)[p.0], p.1, e.name)
    ensures forall r :: r in w ==> Reaches(cfgs[r], c, w[r], v[r])
    ensures forall r, k :: r in w && Listed(w[r].db, k, e.name) ==> Handled(cfgs[r], w[r].db, v[r].db, k, e)
  {
    forall r, k | r in w && Listed(w[r].db, k, e.name) ensures Handled(cfgs[r], w[r].db, v[r].db, k, e) {
      var p: WaitRef := (r, k);
      assert p in listed;
    }
  }

  /** The loop of `scanWaitTimeouts`. */
  ghost predicate Expiring(cfgs: map<RunId, Config>, c: Cause, w: World, v: World, listed: set<WaitRef>, todo: set<WaitRef>, now: Time) {
    && Progress(cfgs, c, w, v, listed, todo)
    && (forall p: WaitRef :: p in listed ==> Expired(w[p.0].db, p.1, now))
    && (forall p: WaitRef :: p in listed && p !in todo ==> GivenUp(w[p.0].db, v[p.0].db, p.1))
  }

  lemma ExpiringStart(cfgs: map<RunId, Config>, c: Cause, w: World, listed: set<WaitRef>, now: Time)
    requires w.Keys <= cfgs.Keys && forall p: WaitRef :: p in listed <==> p.0 in DbOf(w) && Expired(DbOf(w)[p.0], p.1, now)
    ensures Expiring(cfgs, c, w, w, listed, listed, now)
  {
    forall r | r in w ensures Reaches(cfgs[r], c, w[r], w[r]) { ReachesNot(cfgs[r], c, w[r]); }
  }

  /** The next reference is as it was when it was listed. */
  lemma ExpiringNext(cfgs: map<RunId, Config>, c: Cause, w: World, v: World, listed: set<WaitRef>, todo: set<WaitRef>,
                    now: Time, p: WaitRef, free: ItemId)
    requires Expiring(cfgs, c, w, v, listed, todo, now) && p in todo && Ready(v, free)
    ensures p.0 in v && p.0 in w && p.0 in cfgs && Expired(v[p.0].db, p.1, now) && Reaches(cfgs[p.0], c, w[p.0], v[p.0])
    ensures v[p.0].runner.Idle? && UsedBelow(v[p.0], free) && p.0 in DbOf(v) && DbOf(v)[p.0] == v[p.0].db
  {
    assert SameWait(w[p.0].db, v[p.0].db, p.1);
  }

  lemma ExpiringOn(cfgs: map<RunId, Config>, c: Cause, w: World, v: World, listed: set<WaitRef>, todo: set<WaitRef>,
                  now: Time, p: WaitRef, s: RunSt, free: ItemId)
    requires Expiring(cfgs, c, w, v, listed, todo, now) && p in todo
    requires Reaches(cfgs[p.0], c, w[p.0], s) && s.db.row == v[p.0].db.row
    requires forall k :: k != p.1 && k in v[p.0].db.waits ==> SameWait(v[p.0].db, s.db, k)
    requires GivenUp(v[p.0].db, s.db, p.1)
    requires Ready(v, free) && s.runner.Idle? && UsedBelow(s, free + 1)
    ensures Expiring(cfgs, c, w, v[p.0 := s], listed, todo - {p}, now)
    ensures Ready(v[p.0 := s], free + 1) && DbOf(v[p.0 := s]) == DbOf(v)[p.0 := s.db]
  {
    ReadyOn(v, free, p.0, s);
    ProgressOn(cfgs, c, w, v, listed, todo, p, s);
    assert SameWait(w[p.0].db, v[p.0].db, p.1);
  }

  lemma ExpiringDone(cfgs: map<RunId, Config>, c: Cause, w: World, v: World, listed: set<WaitRef>, now: Time)
    requires Expiring(cfgs, c, w, v, listed, {}, now)
    requires forall p: WaitRef :: p in listed <==> p.0 in DbOf(w) && Expired(DbOf(w)[p.0], p.1, now)
    ensures forall r :: r in w ==> Reaches(cfgs[r], c, w[r], v[r])
    ensures forall r, k :: r in w && Expired(w[r].db, k, now) ==> GivenUp(w[r].db, v[r].db, k)
  {
    forall r, k | r in w && Expired(w[r].db, k, now) ensures GivenUp(w[r].db, v[r].db, k) {
      var p: WaitRef := (r, k);
      assert p in listed;
    }
  }

  /** The runner is idle in every run of a world. */
  predicate Ready(w: World, free: ItemId) {
    forall r :: r in w ==> w[r].runner.Idle? && UsedBelow(w[r], free)
  }

  lemma ReadyOn(w: World, free: ItemId, r: RunId, s: RunSt)
    requires r in w && Ready(w, free) && s.runner.Idle? && UsedBelow(s, free + 1)
    ensures Ready(w[r := s], free + 1)
    ensures DbOf(w[r := s]) == DbOf(w)[r := s.db]
  {}

  class Runner {
    const store: Store
    const cfgs: map<RunId, Config>

    constructor (store: Store, cfgs: map<RunId, Config>)
      ensures this.store == store && this.cfgs == cfgs
    {
      this.store, this.cfgs := store, cfgs;
    }

    /** `w` is the machine state of every run, with the runner idle. */
    ghost predicate At(w: World, free: ItemId)
      reads this, store
    {
      store.db == DbOf(w) && w.Keys <= cfgs.Keys && Ready(w, free)
    }

    method WaitingWaitsForEvent(event: string) returns (ps: set<WaitRef>)
      ensures forall p: WaitRef :: p in ps <==> p.0 in store.db && Listed(store.db[p.0], p.1, event)
    {
      ps := set r, k | r in store.db && k in store.db[r].waits
                       && store.db[r].waits[k].status == Waiting && store.db[r].waits[k].event == event :: (r, k);
    }

    method ExpiredWaits(now: Time) returns (ps: set<WaitRef>)
      ensures forall p: WaitRef :: p in ps <==> p.0 in store.db && Expired(store.db[p.0], p.1, now)
    {
      ps := set r, k | r in store.db && k in store.db[r].waits
                       && store.db[r].waits[k].status == Waiting && store.db[r].waits[k].expires.Some?
                       && store.db[r].waits[k].expires.value < now :: (r, k);
    }

    /** Memo, wait status, resume item, in that order. */
    method Settle(p: WaitRef, output: Json, final: WaitStatus, newId: ItemId, now: Time, ghost c: Cause, ghost s0: RunSt, ghost s: RunSt)
      returns (ghost s': RunSt)
      requires p.0 in store.db && p.0 in cfgs && s.db == store.db[p.0] && p.1 in s.db.waits
      requires c.now == now && s.runner == Saw(p.1, output, final) && Reaches(cfgs[p.0], c, s0, s) && UsedBelow(s, newId)
      modifies store
      ensures store.db == old(store.db)[p.0 := s'.db] && Reaches(cfgs[p.0], c, s0, s')
      ensures s'.runner.Idle? && UsedBelow(s', newId + 1)
      ensures s'.db.row == s.db.row
      ensures s'.db.steps == Upsert(s.db.steps, StepRow(p.1, s.db.waits[p.1].stepId, OpWait, StepCompleted, output, "", 0, 0))
      ensures s'.db.waits == s.db.waits[p.1 := s.db.waits[p.1].(status := final)]
    {
      var cfg := cfgs[p.0];
      var w := store.db[p.0].waits[p.1];
      store.SaveStepResult(p.0, StepRow(p.1, w.stepId, OpWait, StepCompleted, output, "", 0, 0));
      s' := MemoOn(cfg, c, s0, s, p.1, output, final);
      store.SetWaitStatus(p.0, p.1, final);
      s' := SettleOn(cfg, c, s0, s', p.1, output, final);
      store.Enqueue(p.0, newId, now);
      ReachesOn(cfg, c, s0, s', EnqueueResume(newId, now));
      s' := Next(cfg, s', EnqueueResume(newId, now));
    }

    /** One round of the loop of `resumeWaits`. */
    method ResumeOne(p: WaitRef, e: Event, newId: ItemId, now: Time, ghost c: Cause, ghost s0: RunSt, ghost s: RunSt)
      returns (ghost s': RunSt)
      requires c == ByEvent(e, now) && p.0 in cfgs && p.0 in store.db && Listed(store.db[p.0], p.1, e.name)
      requires s.db == store.db[p.0] && s.runner.Idle?
      requires Reaches(cfgs[p.0], c, s0, s) && UsedBelow(s, newId)
      modifies store
      ensures store.db == old(store.db)[p.0 := s'.db] && Reaches(cfgs[p.0], c, s0, s')
      ensures s'.runner.Idle? && UsedBelow(s', newId + 1)
      ensures Handled(cfgs[p.0], s.db, s'.db, p.1, e) && s'.db.row == s.db.row
      ensures forall k :: k != p.1 && k in s.db.waits ==> SameWait(s.db, s'.db, k)
    {
      var cfg := cfgs[p.0];
      var run := store.db[p.0].row;
      ReachesOn(cfg, c, s0, s, SeeEvent(p.1, e));
      s' := Next(cfg, s, SeeEvent(p.1, e));
      if run.status.Terminal() {
        store.SetWaitStatus(p.0, p.1, WaitCancelled);
        ReachesOn(cfg, c, s0, s', ClearWait);
        s' := Next(cfg, s', ClearWait);
        return;
      }
      if !cfg.matches(store.db[p.0].waits[p.1].pattern, e, cfg.input) {
        return;
      }
      s' := Settle(p, Arrived(e), Resolved, newId, now, c, s0, s');
    }

    /** `resumeWaits`: every wait that is waiting for the event's name is handled, and
        every run has only taken runner steps of its machine. */
    method ResumeWaits(e: Event, free: ItemId, now: Time, ghost w: World) returns (ghost w': World, free': ItemId)
      requires At(w, free)
      modifies store
      ensures At(w', free') && w'.Keys == w.Keys
      ensures forall r :: r in w ==> Reaches(cfgs[r], ByEvent(e, now), w[r], w'[r])
      ensures forall r, k :: r in w && Listed(w[r].db, k, e.name) ==> Handled(cfgs[r], w[r].db, w'[r].db, k, e)
    {
      ghost var c := ByEvent(e, now);
      var todo := WaitingWaitsForEvent(e.name);
      ghost var listed := todo;
      w', free' := w, free;
      ResumingStart(cfgs, c, w, listed, e);
      while todo != {}
        invariant At(w', free') && Resuming(cfgs, c, w, w', listed, todo, e)
        decreases |todo|
      {
        var p :| p in todo;
        ResumingNext(cfgs, c, w, w', listed, todo, e, p, free');
        ghost var s := ResumeOne(p, e, free', now, c, w[p.0], w'[p.0]);
        ResumingOn(cfgs, c, w, w', listed, todo, e, p, s, free');
        w', free' := w'[p.0 := s], free' + 1;
        todo := todo - {p};
      }
      ResumingDone(cfgs, c, w, w', listed, e);
    }

    /** One round of the loop of `scanWaitTimeouts`. */
    method ExpireOne(p: WaitRef, newId: ItemId, now: Time, ghost c: Cause, ghost s0: RunSt, ghost s: RunSt)
      returns (ghost s': RunSt)
      requires c == ByClock(now) && p.0 in cfgs && p.0 in store.db && Expired(store.db[p.0], p.1, now)
      requires s.db == store.db[p.0] && s.runner.Idle?
      requires Reaches(cfgs[p.0], c, s0, s) && UsedBelow(s, newId)
      modifies store
      ensures store.db == old(store.db)[p.0 := s'.db] && Reaches(cfgs[p.0], c, s0, s')
      ensures s'.runner.Idle? && UsedBelow(s', newId + 1)
      ensures GivenUp(s.db, s'.db, p.1) && s'.db.row == s.db.row
      ensures forall k :: k != p.1 && k in s.db.waits ==> SameWait(s.db, s'.db, k)
    {
      var cfg := cfgs[p.0];
      var run := store.db[p.0].row;
      ReachesOn(cfg, c, s0, s, SeeExpired(p.1, now));
      s' := Next(cfg, s, SeeExpired(p.1, now));
      if run.status.Terminal() {
        store.SetWaitStatus(p.0, p.1, WaitCancelled);
        ReachesOn(cfg, c, s0, s', ClearWait);
        s' := Next(cfg, s', ClearWait);
        return;
      }
      s' := Settle(p, Null, TimedOut, newId, now, c, s0, s');
    }

    /** `scanWaitTimeouts`: no wait that had expired is still waiting. */
    method ScanWaitTimeouts(free: ItemId, now: Time, ghost w: World) returns (ghost w': World, free': ItemId)
      requires At(w, free)
      modifies store
      ensures At(w', free') && w'.Keys == w.Keys
      ensures forall r :: r in w ==> Reaches(cfgs[r], ByClock(now), w[r], w'[r])
      ensures forall r, k :: r in w && Expired(w[r].db, k, now) ==> GivenUp(w[r].db, w'[r].db, k)
    {
      ghost var c := ByClock(now);
      var todo := ExpiredWaits(now);
      ghost var listed := todo;
      w', free' := w, free;
      ExpiringStart(cfgs, c, w, listed, now);
      while todo != {}
        invariant At(w', free') && Expiring(cfgs, c, w, w', listed, todo, now)
        decreases |todo|
      {
        var p :| p in todo;
        ExpiringNext(cfgs, c, w, w', listed, todo, now, p, free');
        ghost var s := ExpireOne(p, free', now, c, w[p.0], w'[p.0]);
        ExpiringOn(cfgs, c, w, w', listed, todo, now, p, s, free');
        w', free' := w'[p.0 := s], free' + 1;
        todo := todo - {p};
      }
      ExpiringDone(cfgs, c, w, w', listed, now);
    }
  }
}
