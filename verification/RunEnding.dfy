/** The loops that end runs from outside: cancelOn rules and run timeouts. Each is a path
    of every run's machine, and ends exactly the runs it should. */
module RunEnding {
  import opened Sdk
  import opened RunStore
  import opened RunMachine
  import opened Wrappers
  import opened FunctionRegistry

  predicate HasRule(rules: seq<CancelRule>, event: string) {
    exists r :: r in rules && r.event == event
  }

  /** A rule of the run's function hits. */
  predicate RuleHits(rules: seq<CancelRule>, e: Event, cfg: Config) {
    exists r :: r in rules && r.event == e.name && cfg.matches(r.pattern, e, cfg.input)
  }

  predicate ToCancel(cfg: Config, rules: map<string, seq<CancelRule>>, e: Event, d: RunDb) {
    d.Live() && cfg.functionId in rules && RuleHits(rules[cfg.functionId], e, cfg)
  }

  predicate ToTimeOut(cfg: Config, timeouts: map<string, Time>, createdAt: Time, now: Time, d: RunDb) {
    d.Live() && cfg.functionId in timeouts && timeouts[cfg.functionId] > 0 && now - createdAt > timeouts[cfg.functionId]
  }

  /** Being cancelled by a rule, and failing by timeout, are steps of the run's machine. */
  lemma CancelPath(cfg: Config, s: RunSt, now: Time)
    requires s.db.Live() && s.runner.Idle?
    ensures var acts := [Act.CancelRun(now), ClearWaits];
            Possible(cfg, s, acts) && Exec(cfg, s, acts) == s.(db := s.db.Cancel(now).CancelWaits())
  {
    var acts, rest := [Act.CancelRun(now), ClearWaits], [ClearWaits];
    assert acts[1..] == rest && rest[1..] == [];
    assert Exec(cfg, Next(cfg, s, acts[0]), rest) == Next(cfg, Next(cfg, s, acts[0]), ClearWaits);
  }

  lemma TimeoutPath(cfg: Config, s: RunSt, msg: string, now: Time)
    ensures var acts := [Act.TimeoutRun(msg, now)];
            Possible(cfg, s, acts) && Exec(cfg, s, acts) == s.(db := s.db.TimeOut(msg, now))
  {
    assert [Act.TimeoutRun(msg, now)][1..] == [];
  }

  function AfterCancel(cfg: Config, rules: map<string, seq<CancelRule>>, e: Event, now: Time, d: RunDb): RunDb {
    if ToCancel(cfg, rules, e, d) then d.Cancel(now).CancelWaits() else d
  }

  function AfterTimeout(cfg: Config, timeouts: map<string, Time>, createdAt: Time, msg: Time -> string, now: Time, d: RunDb): RunDb {
    if ToTimeOut(cfg, timeouts, createdAt, now, d) then d.TimeOut(msg(timeouts[cfg.functionId]), now) else d
  }

  /** A run is cancelled by an event: no error, its waits end with it, pending items go. */
  ghost predicate IsCancelled(d: RunDb, u: RunDb, now: Time) {
    EndedAs(d, u, Cancelled, d.row.output, d.row.error, now) && WaitsCancelled(d, u) && KeepsLeased(d, u)
  }

  /** A run has failed for its timeout: an error, its waits stay, pending items go. */
  ghost predicate IsTimedOut(d: RunDb, u: RunDb, error: string, now: Time) {
    EndedAs(d, u, Failed, d.row.output, error, now) && u.waits == d.waits && KeepsLeased(d, u)
  }

  lemma AfterCancelIs(cfg: Config, rules: map<string, seq<CancelRule>>, e: Event, now: Time, d: RunDb)
    ensures var u := AfterCancel(cfg, rules, e, now, d);
            if ToCancel(cfg, rules, e, d) then IsCancelled(d, u, now) else u == d
  {}

  lemma AfterTimeoutIs(cfg: Config, timeouts: map<string, Time>, createdAt: Time, msg: Time -> string, now: Time, d: RunDb)
    ensures var u := AfterTimeout(cfg, timeouts, createdAt, msg, now, d);
            if ToTimeOut(cfg, timeouts, createdAt, now, d) then IsTimedOut(d, u, msg(timeouts[cfg.functionId]), now) else u == d
  {}

  class RunEnder {
    const store: Store
    const cfgs: map<RunId, Config>
    const created: map<RunId, Time>

    constructor (store: Store, cfgs: map<RunId, Config>, created: map<RunId, Time>)
      ensures this.store == store && this.cfgs == cfgs && this.created == created
    {
      this.store, this.cfgs, this.created := store, cfgs, created;
    }

    method ActiveRunsByFunction(f: string) returns (rs: set<RunId>)
      requires store.db.Keys <= cfgs.Keys
      ensures forall r :: r in rs <==> r in store.db && store.db[r].Live() && cfgs[r].functionId == f
    {
      rs := set r | r in store.db && (store.db[r].row.status == Queued || store.db[r].row.status == Running) && cfgs[r].functionId == f;
    }

    /** `cancelMatchHit`. */
    method CancelMatchHit(rules: seq<CancelRule>, e: Event, cfg: Config) returns (hit: bool)
      ensures hit <==> RuleHits(rules, e, cfg)
    {
      hit := false;
      for i := 0 to |rules|
        invariant !hit && forall j :: 0 <= j < i ==> !(rules[j].event == e.name && cfg.matches(rules[j].pattern, e, cfg.input))
      {
        if rules[i].event == e.name && cfg.matches(rules[i].pattern, e, cfg.input) {
          return true;
        }
      }
    }

    /** One run of the loop: it is live, so it is cancelled with its waits if a rule hits. */
    method CancelOne(r: RunId, rules: map<string, seq<CancelRule>>, e: Event, now: Time)
      requires r in store.db && r in cfgs && cfgs[r].functionId in rules && store.db[r].Live()
      modifies store
      ensures store.db == old(store.db)[r := AfterCancel(cfgs[r], rules, e, now, old(store.db)[r])]
    {
      var hit := CancelMatchHit(rules[cfgs[r].functionId], e, cfgs[r]);
      if hit {
        var cancelled := store.CancelRun(r, now);
        if cancelled {
          store.CancelWaitsForRun(r);
        }
      }
    }

    /** The live runs of one function that a rule hits are cancelled, with their waits. */
    method CancelRunsOf(f: string, rules: map<string, seq<CancelRule>>, e: Event, now: Time)
      requires f in rules && store.db.Keys <= cfgs.Keys
      modifies store
      ensures store.db.Keys == old(store.db).Keys
      ensures forall r :: r in store.db ==>
        store.db[r] == (if cfgs[r].functionId == f
                        then AfterCancel(cfgs[r], rules, e, now, old(store.db)[r]) else old(store.db)[r])
    {
      var runs := ActiveRunsByFunction(f);
      while runs != {}
        invariant store.db.Keys == old(store.db).Keys
        invariant forall r :: r in runs ==> r in store.db && store.db[r].Live() && cfgs[r].functionId == f
        invariant forall r :: r in store.db ==>
          store.db[r] == (if cfgs[r].functionId == f && r !in runs
                          then AfterCancel(cfgs[r], rules, e, now, old(store.db)[r]) else old(store.db)[r])
        decreases |runs|
      {
        var r :| r in runs;
        runs := runs - {r};
        CancelOne(r, rules, e, now);
      }
    }

    /** `applyCancelOn`: every live run that a cancelOn rule of its function hits is
        cancelled and its waits with it; the other runs are as they were. */
    method ApplyCancelOn(rules: map<string, seq<CancelRule>>, e: Event, now: Time)
      requires store.db.Keys <= cfgs.Keys
      modifies store
      ensures store.db.Keys == old(store.db).Keys
      ensures forall r :: r in store.db ==> store.db[r] == AfterCancel(cfgs[r], rules, e, now, old(store.db)[r])
      ensures forall r :: r in store.db ==>
                if ToCancel(cfgs[r], rules, e, old(store.db)[r])
                then IsCancelled(old(store.db)[r], store.db[r], now) else store.db[r] == old(store.db)[r]
    {
      var todo := set f | f in rules && HasRule(rules[f], e.name);
      while todo != {}
        invariant store.db.Keys == old(store.db).Keys && forall f :: f in todo ==> f in rules
        invariant forall r :: r in store.db ==>
          store.db[r] == (if cfgs[r].functionId in todo then old(store.db)[r] else AfterCancel(cfgs[r], rules, e, now, old(store.db)[r]))
        decreases |todo|
      {
        var f :| f in todo;
        todo := todo - {f};
        CancelRunsOf(f, rules, e, now);
      }
      forall r | r in store.db
        ensures if ToCancel(cfgs[r], rules, e, old(store.db)[r])
                then IsCancelled(old(store.db)[r], store.db[r], now) else store.db[r] == old(store.db)[r]
      {
        AfterCancelIs(cfgs[r], rules, e, now, old(store.db)[r]);
      }
    }

    /** The live runs of one function older than its timeout are failed. */
    method TimeOutRunsOf(f: string, timeouts: map<string, Time>, msg: Time -> string, now: Time)
      requires f in timeouts && timeouts[f] > 0 && store.db.Keys <= cfgs.Keys && store.db.Keys <= created.Keys
      modifies store
      ensures store.db.Keys == old(store.db).Keys
      ensures forall r :: r in store.db ==>
        store.db[r] == (if cfgs[r].functionId == f
                        then AfterTimeout(cfgs[r], timeouts, created[r], msg, now, old(store.db)[r]) else old(store.db)[r])
    {
      var runs := ActiveRunsByFunction(f);
      while runs != {}
        invariant store.db.Keys == old(store.db).Keys
        invariant forall r :: r in runs ==> r in store.db && cfgs[r].functionId == f
        invariant forall r :: r in store.db ==>
          store.db[r] == (if cfgs[r].functionId == f && r !in runs
                          then AfterTimeout(cfgs[r], timeouts, created[r], msg, now, old(store.db)[r]) else old(store.db)[r])
        decreases |runs|
      {
        var r :| r in runs;
        runs := runs - {r};
        if now - created[r] > timeouts[f] {
          var _ := store.TimeoutRun(r, msg(timeouts[f]), now);
        }
      }
    }

    /** `scanRunTimeouts`: every live run older than the timeout of its function is failed
        and its pending items removed; the other runs are as they were. A timeout of zero
        or less is none. */
    method ScanRunTimeouts(timeouts: map<string, Time>, msg: Time -> string, now: Time)
      requires store.db.Keys <= cfgs.Keys && store.db.Keys <= created.Keys
      modifies store
      ensures store.db.Keys == old(store.db).Keys
      ensures forall r :: r in store.db ==> store.db[r] == AfterTimeout(cfgs[r], timeouts, created[r], msg, now, old(store.db)[r])
      ensures forall r :: r in store.db ==>
                if ToTimeOut(cfgs[r], timeouts, created[r], now, old(store.db)[r])
                then IsTimedOut(old(store.db)[r], store.db[r], msg(timeouts[cfgs[r].functionId]), now)
                else store.db[r] == old(store.db)[r]
    {
      var todo := timeouts.Keys;
      while todo != {}
        invariant store.db.Keys == old(store.db).Keys && todo <= timeouts.Keys
        invariant forall r :: r in store.db ==>
          store.db[r] == (if cfgs[r].functionId in todo then old(store.db)[r]
                          else AfterTimeout(cfgs[r], timeouts, created[r], msg, now, old(store.db)[r]))
        decreases |todo|
      {
        var f :| f in todo;
        todo := todo - {f};
        if timeouts[f] > 0 {
          TimeOutRunsOf(f, timeouts, msg, now);
        }
      }
      forall r | r in store.db
        ensures if ToTimeOut(cfgs[r], timeouts, created[r], now, old(store.db)[r])
                then IsTimedOut(old(store.db)[r], store.db[r], msg(timeouts[cfgs[r].functionId]), now)
                else store.db[r] == old(store.db)[r]
      {
        AfterTimeoutIs(cfgs[r], timeouts, created[r], msg, now, old(store.db)[r]);
      }
    }
  }
}
