/** The cron scheduler: each check fires what came due since the one before it. */
module CronScheduler {
  import opened Wrappers

  /** Nanoseconds since the Unix epoch. */
  type Time = int

  const SECOND := 1_000_000_000

  function Unix(t: Time): int {
    t / SECOND
  }

  /** A parsed expression: its due instants, and the next one after a time. */
  datatype Schedule = Schedule(due: Time -> bool, next: Time -> Time)

  /** Due instants are whole seconds, and `next` is the first one strictly after. */
  ghost predicate Sound(s: Schedule) {
    && (forall t :: s.due(t) ==> t % SECOND == 0)
    && (forall t :: s.due(s.next(t)) && s.next(t) > t)
    && (forall t, u :: t < u < s.next(t) ==> !s.due(u))
  }

  datatype CronFunction = CronFunction(id: string, expr: string)

  /** What one check fires for a function: the first due instant in (last, now], if any. */
  function Fires(s: Option<Schedule>, paused: bool, last: Time, now: Time): (r: Option<Time>)
    ensures r.Some? ==> r.value <= now
  {
    if paused || s.None? || s.value.next(last) > now then None else Some(s.value.next(last))
  }

  /** A run created for a function at a due instant. */
  datatype CronRun = CronRun(functionId: string, at: Time)

  function RunsOf(id: string, at: Option<Time>): seq<CronRun> {
    if at.None? then [] else [CronRun(id, at.value)]
  }

  type Parser = string -> Option<Schedule>

  /** What one check fires for all functions, in turn. */
  function FiresAll(parse: Parser, fs: seq<CronFunction>, paused: set<string>, last: Time, now: Time): seq<CronRun> {
    if fs == [] then [] else
      var f := fs[|fs| - 1];
      FiresAll(parse, fs[..|fs| - 1], paused, last, now) + RunsOf(f.id, Fires(parse(f.expr), f.id in paused, last, now))
  }

  /** No instant lies strictly after `now` and not after it, so a check whose window is
      empty fires nothing. */
  lemma {:induction false} NothingDueYet(parse: Parser, fs: seq<CronFunction>, paused: set<string>, now: Time)
    requires forall e :: parse(e).Some? ==> Sound(parse(e).value)
    ensures FiresAll(parse, fs, paused, now, now) == []
  {
    if fs != [] {
      NothingDueYet(parse, fs[..|fs| - 1], paused, now);
    }
  }

  /** An expression due exactly at `now`: a scheduler whose last check was before that fires
      it, and one for which this is the very first check does not. */
  lemma DueAtFirstCheck(s: Schedule, earlier: Time, now: Time)
    requires Sound(s) && s.due(now) && earlier < now && forall t :: earlier < t < now ==> !s.due(t)
    ensures Fires(Some(s), false, earlier, now) == Some(now)
    ensures Fires(Some(s), false, now, now) == None
  {
    assert s.due(s.next(earlier)) && s.next(earlier) > earlier;
    assert !(earlier < now < s.next(earlier));
  }

  predicate Remembered(fired: map<string, int>, last: Time) {
    forall id :: id in fired ==> fired[id] * SECOND <= last
  }

  class Scheduler {
    const parse: Parser
    var last: Option<Time>
    var fired: map<string, int>
    var scheds: map<string, (string, Schedule)>
    var runs: seq<CronRun>

    /** `last` is after the epoch, and no remembered fire is later. */
    ghost predicate Valid()
      reads this
    {
      && (forall e :: parse(e).Some? ==> Sound(parse(e).value))
      && (forall id :: id in scheds ==> parse(scheds[id].0) == Some(scheds[id].1))
      && (if last.None? then fired == map[] else last.value >= 0 && Remembered(fired, last.value))
    }

    constructor (parse: Parser)
      requires forall e :: parse(e).Some? ==> Sound(parse(e).value)
      ensures Valid() && this.parse == parse && last == None && runs == []
    {
      this.parse := parse;
      last, fired, scheds, runs := None, map[], map[], [];
    }

    /** `Run` up to its loop: the start is the baseline, nothing before it is made up for. */
    method Start(now: Time)
      requires Valid() && last == None && now >= 0
      modifies this`last
      ensures Valid() && last == Some(now)
    {
      last := Some(now);
    }

    /** `scheduleFor`: the parsed expression, from the cache while it has not changed. */
    method ScheduleFor(f: CronFunction) returns (s: Option<Schedule>)
      requires Valid()
      modifies this`scheds
      ensures Valid() && s == parse(f.expr)
    {
      if f.id in scheds && scheds[f.id].0 == f.expr {
        return Some(scheds[f.id].1);
      }
      s := parse(f.expr);
      if s.Some? {
        scheds := scheds[f.id := (f.expr, s.value)];
      }
    }

    /** `fire`, at an instant later than all before: it is never taken for a repetition. */
    method Fire(id: string, at: Time, ghost before: Time)
      requires last.Some? && 0 <= before < at <= last.value && at % SECOND == 0
      requires Remembered(fired, last.value) && (id in fired ==> fired[id] * SECOND <= before)
      modifies this`fired, this`runs
      ensures runs == old(runs) + [CronRun(id, at)]
      ensures Remembered(fired, last.value) && forall g :: g != id && g in fired ==> g in old(fired) && fired[g] == old(fired)[g]
    {
      if (if id in fired then fired[id] else 0) == Unix(at) {
        return;
      }
      fired := fired[id := Unix(at)];
      runs := runs + [CronRun(id, at)];
    }

    /** What a check does for one function. */
    method CheckOne(f: CronFunction, paused: set<string>, since: Time, now: Time)
      requires Valid() && last == Some(now) && 0 <= since <= now && (f.id in fired ==> fired[f.id] * SECOND <= since)
      modifies this`scheds, this`fired, this`runs
      ensures Valid() && runs == old(runs) + RunsOf(f.id, Fires(parse(f.expr), f.id in paused, since, now))
      ensures forall g :: g != f.id && g in fired ==> g in old(fired) && fired[g] == old(fired)[g]
    {
      if f.id in paused {
        return;
      }
      var s := ScheduleFor(f);
      if s.None? {
        return;
      }
      var next := s.value.next(since);
      if next <= now {
        Fire(f.id, next, since);
      }
    }

    /** `check`: every function fires the first instant that came due since the last check,
        and no other; on the very first check of a scheduler that was not started, none. */
    method Check(fs: seq<CronFunction>, paused: set<string>, now: Time)
      requires Valid() && now >= 0 && (last.Some? ==> now >= last.value)
      requires forall i, j :: 0 <= i < j < |fs| ==> fs[i].id != fs[j].id
      modifies this
      ensures Valid() && last == Some(now)
      ensures runs == old(runs) + FiresAll(parse, fs, paused, old(last).GetOr(now), now)
      ensures old(last).None? ==> runs == old(runs)
    {
      var since := last.GetOr(now);
      last := Some(now);
      for i := 0 to |fs|
        invariant Valid() && last == Some(now)
        invariant forall j :: i <= j < |fs| && fs[j].id in fired ==> fired[fs[j].id] * SECOND <= since
        invariant runs == old(runs) + FiresAll(parse, fs[..i], paused, since, now)
      {
        assert fs[..i + 1][..i] == fs[..i];
        CheckOne(fs[i], paused, since, now);
      }
      assert fs[..|fs|] == fs;
      if old(last).None? { NothingDueYet(parse, fs, paused, now); }
    }

    /** `Run`: the start is the baseline, then one check for each tick of the clock. Each
        function has the runs that its own sequence of checks fires. */
    method Run(fs: seq<CronFunction>, start: Time, beats: seq<Beat>) returns (ghost made: seq<CronRun>)
      requires Valid() && last == None && 0 <= start && Ascends(start, beats)
      requires forall i, j :: 0 <= i < j < |fs| ==> fs[i].id != fs[j].id
      modifies this
      ensures Valid() && runs == old(runs) + made
      ensures forall f :: f in fs ==> InstantsOf(made, f.id) == FiredBy(parse(f.expr), start, TicksOf(beats, f.id))
    {
      Start(start);
      made := [];
      for i := 0 to |beats|
        invariant Valid() && last == Some(LastBeat(start, beats[..i]))
        invariant runs == old(runs) + made && AllFired(parse, fs, start, beats[..i], made)
      {
        BeatsOn(start, beats, i);
        ghost var more := FiresAll(parse, fs, beats[i].paused, LastBeat(start, beats[..i]), beats[i].now);
        Check(fs, beats[i].paused, beats[i].now);
        AllFiredOn(parse, fs, start, beats[..i], made, beats[i]);
        AppendAssoc(old(runs), made, more);
        made := made + more;
      }
      assert beats[..|beats|] == beats;
    }
  }

  /** A tick of the clock, and the functions that are paused then. */
  datatype Beat = Beat(now: Time, paused: set<string>)

  predicate Ascends(start: Time, beats: seq<Beat>) {
    && (forall i :: 0 <= i < |beats| ==> start <= beats[i].now)
    && (forall i, j :: 0 <= i < j < |beats| ==> beats[i].now <= beats[j].now)
  }

  function LastBeat(start: Time, beats: seq<Beat>): Time {
    if beats == [] then start else beats[|beats| - 1].now
  }

  lemma AppendAssoc(a: seq<CronRun>, b: seq<CronRun>, c: seq<CronRun>)
    ensures (a + b) + c == a + (b + c)
  {}

  lemma BeatsOn(start: Time, beats: seq<Beat>, i: nat)
    requires Ascends(start, beats) && i < |beats|
    ensures LastBeat(start, beats[..i]) <= beats[i].now && beats[..i] + [beats[i]] == beats[..i + 1]
  {}

  /** The checks of one function. */
  function TicksOf(beats: seq<Beat>, id: string): (ticks: seq<Tick>)
    ensures |ticks| == |beats|
  {
    seq(|beats|, i requires 0 <= i < |beats| => Tick(beats[i].now, id in beats[i].paused))
  }

  /** The instants at which a function has got a run, in order. */
  function InstantsOf(runs: seq<CronRun>, id: string): seq<Time> {
    if runs == [] then [] else
      var r := runs[|runs| - 1];
      InstantsOf(runs[..|runs| - 1], id) + if r.functionId == id then [r.at] else []
  }

  lemma {:induction false} InstantsAppend(a: seq<CronRun>, b: seq<CronRun>, id: string)
    ensures InstantsOf(a + b, id) == InstantsOf(a, id) + InstantsOf(b, id)
  {
    if b == [] {
      assert a + b == a;
    } else {
      assert (a + b)[..|a + b| - 1] == a + b[..|b| - 1];
      InstantsAppend(a, b[..|b| - 1], id);
    }
  }

  function Instant(at: Option<Time>): seq<Time> {
    if at.None? then [] else [at.value]
  }

  lemma RunsOfInstant(id: string, at: Option<Time>, g: string)
    ensures InstantsOf(RunsOf(id, at), g) == if id == g then Instant(at) else []
  {}

  lemma {:induction false} NoneOf(parse: Parser, fs: seq<CronFunction>, paused: set<string>, last: Time, now: Time, id: string)
    requires forall f :: f in fs ==> f.id != id
    ensures InstantsOf(FiresAll(parse, fs, paused, last, now), id) == []
  {
    if fs != [] {
      var before, f := fs[..|fs| - 1], fs[|fs| - 1];
      NoneOf(parse, before, paused, last, now, id);
      var at := Fires(parse(f.expr), f.id in paused, last, now);
      InstantsAppend(FiresAll(parse, before, paused, last, now), RunsOf(f.id, at), id);
      RunsOfInstant(f.id, at, id);
    }
  }

  /** In one check a function gets the run its own schedule asks for. */
  lemma {:induction false} OneOf(parse: Parser, fs: seq<CronFunction>, paused: set<string>, last: Time, now: Time, f: CronFunction)
    requires f in fs && forall i, j :: 0 <= i < j < |fs| ==> fs[i].id != fs[j].id
    ensures InstantsOf(FiresAll(parse, fs, paused, last, now), f.id)
            == Instant(Fires(parse(f.expr), f.id in paused, last, now))
  {
    var before, g := fs[..|fs| - 1], fs[|fs| - 1];
    var at := Fires(parse(g.expr), g.id in paused, last, now);
    InstantsAppend(FiresAll(parse, before, paused, last, now), RunsOf(g.id, at), f.id);
    RunsOfInstant(g.id, at, f.id);
    if f == g {
      NoneOf(parse, before, paused, last, now, f.id);
    } else {
      assert f in before;
      OneOf(parse, before, paused, last, now, f);
    }
  }

  predicate AllFired(parse: Parser, fs: seq<CronFunction>, start: Time, beats: seq<Beat>, runs: seq<CronRun>) {
    forall f :: f in fs ==> InstantsOf(runs, f.id) == FiredBy(parse(f.expr), start, TicksOf(beats, f.id))
  }

  lemma AllFiredOn(parse: Parser, fs: seq<CronFunction>, start: Time, beats: seq<Beat>, runs: seq<CronRun>, b: Beat)
    requires AllFired(parse, fs, start, beats, runs) && forall i, j :: 0 <= i < j < |fs| ==> fs[i].id != fs[j].id
    ensures AllFired(parse, fs, start, beats + [b], runs + FiresAll(parse, fs, b.paused, LastBeat(start, beats), b.now))
  {
    forall f | f in fs
      ensures InstantsOf(runs + FiresAll(parse, fs, b.paused, LastBeat(start, beats), b.now), f.id)
              == FiredBy(parse(f.expr), start, TicksOf(beats + [b], f.id))
    {
      InstantsAppend(runs, FiresAll(parse, fs, b.paused, LastBeat(start, beats), b.now), f.id);
      OneOf(parse, fs, b.paused, LastBeat(start, beats), b.now, f);
      FiredOn(parse(f.expr), start, beats, b, f.id);
    }
  }

  lemma FiredOn(s: Option<Schedule>, start: Time, beats: seq<Beat>, b: Beat, id: string)
    ensures FiredBy(s, start, TicksOf(beats + [b], id))
            == FiredBy(s, start, TicksOf(beats, id)) + Instant(Fires(s, id in b.paused, LastBeat(start, beats), b.now))
  {
    var ticks, t := TicksOf(beats, id), Tick(b.now, id in b.paused);
    assert TicksOf(beats + [b], id) == ticks + [t];
    FiredBySnoc(s, start, ticks, t);
  }

  /** A check creates a run for a function at exactly the instants it fires. */
  lemma {:induction false} FiresAllExact(parse: Parser, fs: seq<CronFunction>, paused: set<string>, last: Time, now: Time, r: CronRun)
    ensures r in FiresAll(parse, fs, paused, last, now) <==>
              exists f :: f in fs && f.id == r.functionId && Fires(parse(f.expr), f.id in paused, last, now) == Some(r.at)
  {
    if fs != [] {
      var before, f := fs[..|fs| - 1], fs[|fs| - 1];
      assert fs == before + [f];
      FiresAllExact(parse, before, paused, last, now, r);
    }
  }

  predicate Ascending(ts: seq<Time>) {
    forall i, j :: 0 <= i < j < |ts| ==> ts[i] < ts[j]
  }

  /** A check of one function. */
  datatype Tick = Tick(now: Time, paused: bool)

  predicate InOrder(base: Time, ticks: seq<Tick>) {
    forall k :: 0 <= k < |ticks| ==> Since(base, ticks, k) <= ticks[k].now
  }

  /** Where the window of the k-th check begins. */
  function Since(base: Time, ticks: seq<Tick>, k: nat): Time
    requires k <= |ticks|
  {
    if k == 0 then base else ticks[k - 1].now
  }

  /** What a function with a fixed expression fires over a sequence of checks. */
  function Fired(s: Schedule, base: Time, ticks: seq<Tick>): seq<Time>
    decreases |ticks|
  {
    if ticks == [] then [] else
      var first := Fires(Some(s), ticks[0].paused, base, ticks[0].now);
      (if first.Some? then [first.value] else []) + Fired(s, ticks[0].now, ticks[1..])
  }

  /** An expression that does not parse never fires. */
  function FiredBy(s: Option<Schedule>, base: Time, ticks: seq<Tick>): seq<Time> {
    if s.None? then [] else Fired(s.value, base, ticks)
  }

  lemma {:induction false} FiredBySnoc(s: Option<Schedule>, base: Time, ticks: seq<Tick>, t: Tick)
    ensures FiredBy(s, base, ticks + [t])
            == FiredBy(s, base, ticks) + Instant(Fires(s, t.paused, Since(base, ticks, |ticks|), t.now))
    decreases |ticks|
  {
    var all := ticks + [t];
    if ticks == [] {
      assert all == [t] && all[1..] == [];
      assert FiredBy(s, t.now, []) == [];
    } else if s.Some? {
      assert all[1..] == ticks[1..] + [t];
      FiredBySnoc(s, ticks[0].now, ticks[1..], t);
    }
  }

  /** `u` lies in the window of the k-th check, ... */
  predicate InWindow(base: Time, ticks: seq<Tick>, k: nat, u: Time)
    requires k < |ticks|
  {
    Since(base, ticks, k) < u <= ticks[k].now
  }

  /** ... and is the first instant due in it. */
  ghost predicate FirstDue(s: Schedule, base: Time, ticks: seq<Tick>, k: nat, u: Time)
    requires k < |ticks|
  {
    InWindow(base, ticks, k, u) && s.due(u) && forall v :: Since(base, ticks, k) < v < u ==> !s.due(v)
  }

  /** What fires is, for each check without a pause, the first instant due in its window. */
  lemma {:induction false} FiredExact(s: Schedule, base: Time, ticks: seq<Tick>, u: Time)
    requires Sound(s)
    ensures u in Fired(s, base, ticks) <==> exists k :: 0 <= k < |ticks| && !ticks[k].paused && FirstDue(s, base, ticks, k, u)
    decreases |ticks|
  {
    if ticks != [] {
      var rest := ticks[1..];
      FiredExact(s, ticks[0].now, rest, u);
      assert Fires(Some(s), ticks[0].paused, base, ticks[0].now) == Some(u) <==> !ticks[0].paused && FirstDue(s, base, ticks, 0, u);
      forall k | 0 <= k < |rest|
        ensures FirstDue(s, ticks[0].now, rest, k, u) <==> FirstDue(s, base, ticks, k + 1, u)
      {
        assert Since(ticks[0].now, rest, k) == Since(base, ticks, k + 1);
      }
      if k :| 0 <= k < |ticks| && !ticks[k].paused && FirstDue(s, base, ticks, k, u) {
        assert k > 0 ==> FirstDue(s, ticks[0].now, rest, k - 1, u) && rest[k - 1] == ticks[k];
      }
    }
  }

  /** A due instant fires at most once. */
  lemma {:induction false} FiresOnce(s: Schedule, base: Time, ticks: seq<Tick>)
    requires Sound(s) && InOrder(base, ticks)
    ensures Ascending(Fired(s, base, ticks)) && forall u :: u in Fired(s, base, ticks) ==> u > base
    decreases |ticks|
  {
    if ticks != [] {
      var rest := ticks[1..];
      forall k | 0 <= k < |rest| ensures Since(ticks[0].now, rest, k) <= rest[k].now {
        assert Since(ticks[0].now, rest, k) == Since(base, ticks, k + 1) && rest[k] == ticks[k + 1];
      }
      FiresOnce(s, ticks[0].now, rest);
      assert Since(base, ticks, 0) <= ticks[0].now;
      var later := Fired(s, ticks[0].now, rest);
      assert forall j :: 0 <= j < |later| ==> later[j] in later;
    }
  }

  /** No two due instants fall into one window. */
  ghost predicate OnePerWindow(s: Schedule, base: Time, ticks: seq<Tick>) {
    forall k, u, v :: 0 <= k < |ticks| && u < v && s.due(u) && s.due(v) && InWindow(base, ticks, k, u) ==> !InWindow(base, ticks, k, v)
  }

  lemma {:induction false} WindowsCover(base: Time, ticks: seq<Tick>, u: Time)
    requires ticks != [] && base < u <= ticks[|ticks| - 1].now
    ensures exists k :: 0 <= k < |ticks| && InWindow(base, ticks, k, u)
  {
    var k := |ticks| - 1;
    while k > 0 && u <= ticks[k - 1].now
      invariant 0 <= k < |ticks| && u <= ticks[k].now
    {
      k := k - 1;
    }
    assert InWindow(base, ticks, k, u);
  }

  lemma WindowUnique(base: Time, ticks: seq<Tick>, j: nat, k: nat, u: Time)
    requires InOrder(base, ticks) && j < |ticks| && k < |ticks| && InWindow(base, ticks, j, u) && InWindow(base, ticks, k, u)
    ensures j == k
  {
    if j < k {
      NowsAscend(base, ticks, j, k - 1);
    } else if k < j {
      NowsAscend(base, ticks, k, j - 1);
    }
  }

  lemma {:induction false} NowsAscend(base: Time, ticks: seq<Tick>, j: nat, k: nat)
    requires InOrder(base, ticks) && j <= k < |ticks|
    ensures ticks[j].now <= ticks[k].now
    decreases k
  {
    if j < k {
      NowsAscend(base, ticks, j, k - 1);
      assert Since(base, ticks, k) <= ticks[k].now;
    }
  }

  lemma OnlyDueFires(s: Schedule, base: Time, ticks: seq<Tick>, u: Time)
    requires Sound(s) && ticks != [] && forall k :: 0 <= k < |ticks| ==> !ticks[k].paused
    requires OnePerWindow(s, base, ticks) && s.due(u) && base < u <= ticks[|ticks| - 1].now
    ensures u in Fired(s, base, ticks)
  {
    WindowsCover(base, ticks, u);
    var k :| 0 <= k < |ticks| && InWindow(base, ticks, k, u);
    forall v | Since(base, ticks, k) < v < u ensures !s.due(v) {
      assert InWindow(base, ticks, k, v);
    }
    assert FirstDue(s, base, ticks, k, u);
    FiredExact(s, base, ticks, u);
  }

  lemma SecondDueMissed(s: Schedule, base: Time, ticks: seq<Tick>, k: nat, u: Time, v: Time)
    requires Sound(s) && InOrder(base, ticks) && k < |ticks|
    requires u < v && s.due(u) && InWindow(base, ticks, k, u) && InWindow(base, ticks, k, v)
    ensures v !in Fired(s, base, ticks) && base < v <= ticks[|ticks| - 1].now
  {
    FiredExact(s, base, ticks, v);
    forall j | 0 <= j < |ticks| ensures !FirstDue(s, base, ticks, j, v) {
      if InWindow(base, ticks, j, v) { WindowUnique(base, ticks, j, k, v); }
    }
    NowsAscend(base, ticks, k, |ticks| - 1);
    SinceAfterBase(base, ticks, k);
  }

  /** Without pauses, everything that came due after the baseline has fired exactly if no
      window held two due instants. */
  lemma AllFireIff(s: Schedule, base: Time, ticks: seq<Tick>)
    requires Sound(s) && InOrder(base, ticks) && ticks != [] && forall k :: 0 <= k < |ticks| ==> !ticks[k].paused
    ensures (forall u :: s.due(u) && base < u <= ticks[|ticks| - 1].now ==> u in Fired(s, base, ticks)) <==> OnePerWindow(s, base, ticks)
  {
    if OnePerWindow(s, base, ticks) {
      forall u | s.due(u) && base < u <= ticks[|ticks| - 1].now ensures u in Fired(s, base, ticks) {
        OnlyDueFires(s, base, ticks, u);
      }
    } else {
      var k, u, v :| 0 <= k < |ticks| && u < v && s.due(u) && s.due(v) && InWindow(base, ticks, k, u) && InWindow(base, ticks, k, v);
      SecondDueMissed(s, base, ticks, k, u, v);
    }
  }

  lemma SinceAfterBase(base: Time, ticks: seq<Tick>, k: nat)
    requires InOrder(base, ticks) && k < |ticks|
    ensures base <= Since(base, ticks, k)
  {
    if k > 0 {
      NowsAscend(base, ticks, 0, k - 1);
      assert Since(base, ticks, 0) <= ticks[0].now;
    }
  }

  /** If checks are no further apart than the smallest gap between due instants, what fires
      is exactly what came due, except in the windows of checks that found a pause. */
  lemma CloseChecksFireAll(s: Schedule, base: Time, ticks: seq<Tick>, gap: Time, u: Time)
    requires Sound(s) && forall v, w :: s.due(v) && s.due(w) && v < w ==> w - v >= gap
    requires forall k :: 0 <= k < |ticks| ==> ticks[k].now - Since(base, ticks, k) <= gap
    ensures u in Fired(s, base, ticks) <==> s.due(u) && exists k :: 0 <= k < |ticks| && !ticks[k].paused && InWindow(base, ticks, k, u)
  {
    FiredExact(s, base, ticks, u);
    if s.due(u) {
      forall k | 0 <= k < |ticks| && InWindow(base, ticks, k, u) ensures FirstDue(s, base, ticks, k, u) {
        forall v | Since(base, ticks, k) < v < u ensures !s.due(v) {
          assert s.due(v) ==> u - v >= gap;
          assert ticks[k].now - Since(base, ticks, k) <= gap;
        }
      }
    }
  }
}
