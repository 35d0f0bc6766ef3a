/** Throttle windows: how many first executions a key is granted over time, and why
    pruning stale window rows is invisible. */
module Throttle {

  type Time = int

  datatype Window = Open(start: Time, count: nat) | NoWindow

  /** The decision of `ReserveThrottleSlot`; a denial carries the retry time. */
  datatype Decision = Granted | Denied(retryAt: Time)

  predicate Expired(w: Window, period: Time, now: Time) {
    w.NoWindow? || now >= w.start + period
  }

  function Decide(w: Window, limit: nat, period: Time, now: Time): Decision {
    if !Expired(w, period, now) && w.count >= limit then Denied(w.start + period) else Granted
  }

  function After(w: Window, limit: nat, period: Time, now: Time): Window {
    if Decide(w, limit, period, now).Denied? then w
    else if Expired(w, period, now) then Open(now, 1)
    else Open(w.start, w.count + 1)
  }

  /** The throttle_state table. */
  class ThrottleTable {
    var rows: map<string, (Time, nat)>

    constructor ()
      ensures rows == map[]
    {
      rows := map[];
    }

    function WindowOf(key: string): Window
      reads this
    {
      if key in rows then Open(rows[key].0, rows[key].1) else NoWindow
    }

    method ReserveThrottleSlot(key: string, limit: nat, period: Time, now: Time) returns (d: Decision)
      modifies this
      ensures d == Decide(old(WindowOf(key)), limit, period, now)
      ensures WindowOf(key) == After(old(WindowOf(key)), limit, period, now)
      ensures forall k :: k != key ==> WindowOf(k) == old(WindowOf(k))
    {
      var start, count := 0, 0;
      var found := key in rows;
      if found {
        start, count := rows[key].0, rows[key].1;
      }
      var expired := !found || now >= start + period;
      if !expired && count >= limit {
        return Denied(start + period);
      }
      if expired {
        start, count := now, 0;
      }
      rows := rows[key := (start, count + 1)];
      d := Granted;
    }

    method DeleteThrottleStateBefore(cutoff: Time)
      modifies this
      ensures forall k :: WindowOf(k) == Pruned(old(WindowOf(k)), cutoff)
    {
      rows := map k | k in rows && !(rows[k].0 < cutoff) :: rows[k];
    }
  }

  function Pruned(w: Window, cutoff: Time): Window {
    if w.Open? && w.start < cutoff then NoWindow else w
  }

  // ---------- the grant bound ----------

  predicate Nondecreasing(times: seq<Time>) {
    forall i :: 0 <= i < |times| - 1 ==> times[i] <= times[i + 1]
  }

  /** Grants with a time in [a, b) when one key is asked at `times`, starting from `w`. */
  function Grants(w: Window, limit: nat, period: Time, times: seq<Time>, a: Time, b: Time): nat
    decreases |times|
  {
    if times == [] then 0 else
      (if a <= times[0] < b && Decide(w, limit, period, times[0]).Granted? then 1 else 0)
      + Grants(After(w, limit, period, times[0]), limit, period, times[1..], a, b)
  }

  /** How many windows of length `period` can start in [x, b). */
  function Starts(x: Time, period: Time, b: Time): (n: nat)
    requires period > 0
    decreases b - x
  {
    if b <= x then 0 else 1 + Starts(x + period, period, b)
  }

  lemma {:induction false} StartsMonotone(x: Time, y: Time, period: Time, b: Time)
    requires period > 0 && x <= y
    ensures Starts(y, period, b) <= Starts(x, period, b)
    decreases b - x
  {
    if y < b {
      StartsMonotone(x + period, y + period, period, b);
    }
  }

  lemma {:induction false} StartsOfMultiple(x: Time, period: Time, k: nat)
    requires period > 0
    ensures Starts(x, period, x + k * period) == k
    decreases k
  {
    if k > 0 {
      assert x + k * period == (x + period) + (k - 1) * period;
      assert k * period >= period by { assert (k - 1) * period >= 0; }
      StartsOfMultiple(x + period, period, k - 1);
    }
  }

  /** Slots a window still has, and the windows that can be opened after it. */
  function Room(w: Window, limit: nat, period: Time, from: Time, b: Time): int
    requires period > 0
  {
    if w.NoWindow? || w.start + period <= from then limit * Starts(from, period, b)
    else (limit - w.count) + limit * Starts(w.start + period, period, b)
  }

  predicate Sane(w: Window, limit: nat, now: Time) {
    w.Open? ==> 1 <= w.count <= limit && w.start <= now
  }

  lemma AfterSane(w: Window, limit: nat, period: Time, now: Time)
    requires limit > 0 && period > 0 && Sane(w, limit, now)
    ensures Sane(After(w, limit, period, now), limit, now)
  {}

  /** From time `from` on, no more grants before `b` than there is room for. */
  lemma {:induction false} GrantsFit(w: Window, limit: nat, period: Time, times: seq<Time>, from: Time, a: Time, b: Time)
    requires limit > 0 && period > 0 && Nondecreasing(times) && Sane(w, limit, from)
    requires times != [] ==> from <= times[0]
    ensures 0 <= Grants(w, limit, period, times, a, b) <= Room(w, limit, period, from, b)
    decreases |times|
  {
    if times == [] {
      RoomNotNegative(w, limit, period, from, b);
    } else {
      var t, rest := times[0], times[1..];
      assert forall i :: 0 <= i < |rest| ==> rest[i] == times[i + 1];
      var w' := After(w, limit, period, t);
      AfterSane(w, limit, period, t);
      GrantsFit(w', limit, period, rest, t, a, b);
      if t >= b {
        NoneLate(w', limit, period, rest, a, b);
        RoomNotNegative(w, limit, period, from, b);
      } else {
        RoomShrinks(w, limit, period, from, t, b);
      }
    }
  }

  lemma {:induction false} NoneLate(w: Window, limit: nat, period: Time, times: seq<Time>, a: Time, b: Time)
    requires Nondecreasing(times) && (times != [] ==> b <= times[0])
    ensures Grants(w, limit, period, times, a, b) == 0
    decreases |times|
  {
    if times != [] {
      assert forall i :: 0 <= i < |times[1..]| ==> times[1..][i] == times[i + 1];
      NoneLate(After(w, limit, period, times[0]), limit, period, times[1..], a, b);
    }
  }

  lemma RoomNotNegative(w: Window, limit: nat, period: Time, from: Time, b: Time)
    requires period > 0 && Sane(w, limit, from)
    ensures Room(w, limit, period, from, b) >= 0
  {
    assert limit * Starts(from, period, b) >= 0;
    if w.Open? { assert limit * Starts(w.start + period, period, b) >= 0; }
  }

  /** One call uses up the room it is granted. */
  lemma RoomShrinks(w: Window, limit: nat, period: Time, from: Time, t: Time, b: Time)
    requires limit > 0 && period > 0 && Sane(w, limit, from) && from <= t < b
    ensures Room(After(w, limit, period, t), limit, period, t, b)
            + (if Decide(w, limit, period, t).Granted? then 1 else 0) <= Room(w, limit, period, from, b)
  {
    var n := Starts(t + period, period, b);
    assert Starts(t, period, b) == 1 + n;
    assert limit * (1 + n) == limit + limit * n;
    if Expired(w, period, t) {
      var x := if w.NoWindow? || w.start + period <= from then from else w.start + period;
      StartsMonotone(x, t, period, b);
      assert limit * Starts(t, period, b) <= limit * Starts(x, period, b) by {
        Scale(limit, Starts(t, period, b), Starts(x, period, b));
      }
    }
  }

  lemma Scale(m: nat, x: nat, y: nat)
    requires x <= y
    ensures m * x <= m * y
  {}

  /** The throttle bound: for calls at nondecreasing times with a fixed limit and period,
      a half-open interval of length k periods holds at most (k + 1) * limit grants. */
  lemma {:induction false} ThrottleBound(w: Window, limit: nat, period: Time, times: seq<Time>, from: Time, a: Time, k: nat)
    requires limit > 0 && period > 0 && Nondecreasing(times) && Sane(w, limit, from)
    requires times != [] ==> from <= times[0]
    ensures Grants(w, limit, period, times, a, a + k * period) <= (k + 1) * limit
    decreases |times|
  {
    var b := a + k * period;
    if times == [] {
      assert (k + 1) * limit >= 0;
    } else if times[0] < a {
      var t, rest := times[0], times[1..];
      assert forall i :: 0 <= i < |rest| ==> rest[i] == times[i + 1];
      AfterSane(w, limit, period, t);
      ThrottleBound(After(w, limit, period, t), limit, period, rest, t, a, k);
    } else {
      var f := if from < a then a else from;
      GrantsFit(w, limit, period, times, f, a, b);
      StartsOfMultiple(a, period, k);
      StartsMonotone(a, f, period, b);
      Scale(limit, Starts(f, period, b), k);
      if w.Open? && w.start + period > f {
        StartsMonotone(f, w.start + period, period, b);
        Scale(limit, Starts(w.start + period, period, b), k);
      }
      assert (k + 1) * limit == limit * k + limit;
    }
  }

  /** Windows of a key are disjoint: a new one starts a full period after the old one. */
  lemma WindowsDisjoint(w: Window, limit: nat, period: Time, now: Time)
    requires w.Open? && After(w, limit, period, now) != w
    ensures var w' := After(w, limit, period, now);
            || (w'.start == w.start && w'.count == w.count + 1 <= limit)
            || (w'.start == now >= w.start + period && w'.count == 1)
  {}

  /** A denial names a strictly later time; a retry then, with no call of the key in
      between, is granted, and one before then is denied again. */
  lemma DenialRetrySucceeds(w: Window, limit: nat, period: Time, now: Time)
    requires Decide(w, limit, period, now).Denied?
    ensures var r := Decide(w, limit, period, now).retryAt;
            && r > now && Decide(After(w, limit, period, now), limit, period, r).Granted?
            && forall t :: now <= t < r ==> Decide(After(w, limit, period, now), limit, period, t).Denied?
  {}

  /** The window of a key after calls at `times`. */
  function Later(w: Window, limit: nat, period: Time, times: seq<Time>): Window
    decreases |times|
  {
    if times == [] then w else Later(After(w, limit, period, times[0]), limit, period, times[1..])
  }

  /** The count of a window is the number of grants since it opened. */
  lemma {:induction false} CountIsGrants(w: Window, limit: nat, period: Time, times: seq<Time>, b: Time)
    requires period > 0 && Nondecreasing(times) && (forall i :: 0 <= i < |times| ==> times[i] < b)
    requires w.Open? && times != [] ==> w.start <= times[0]
    ensures var v := Later(w, limit, period, times);
            && (times != [] || w.Open? ==> v.Open?)
            && (v.Open? && w.Open? && v.start == w.start ==> v.count == w.count + Grants(w, limit, period, times, v.start, b))
            && (v.Open? && w.Open? && v.start != w.start ==> v.start >= w.start + period)
            && (v.Open? && !(w.Open? && v.start == w.start) ==> v.count == Grants(w, limit, period, times, v.start, b))
    decreases |times|
  {
    if times != [] {
      var rest := times[1..];
      assert forall i :: 0 <= i < |rest| ==> rest[i] == times[i + 1];
      CountIsGrants(After(w, limit, period, times[0]), limit, period, rest, b);
    }
  }

  /** The throttle denies only when it must: at a denial the key has had `limit` grants, or
      more, since some instant less than a period ago. */
  lemma DeniedOnlyWhenFull(limit: nat, period: Time, times: seq<Time>, now: Time) returns (since: Time)
    requires limit > 0 && period > 0 && Nondecreasing(times) && forall i :: 0 <= i < |times| ==> times[i] <= now
    requires Decide(Later(NoWindow, limit, period, times), limit, period, now).Denied?
    ensures now - period < since <= now && Grants(NoWindow, limit, period, times, since, now + 1) >= limit
  {
    CountIsGrants(NoWindow, limit, period, times, now + 1);
    StartsBefore(NoWindow, limit, period, times, now);
    since := Later(NoWindow, limit, period, times).start;
  }

  lemma {:induction false} StartsBefore(w: Window, limit: nat, period: Time, times: seq<Time>, now: Time)
    requires (w.Open? ==> w.start <= now) && forall i :: 0 <= i < |times| ==> times[i] <= now
    ensures Later(w, limit, period, times).Open? ==> Later(w, limit, period, times).start <= now
    decreases |times|
  {
    if times != [] {
      assert forall i :: 0 <= i < |times[1..]| ==> times[1..][i] == times[i + 1];
      StartsBefore(After(w, limit, period, times[0]), limit, period, times[1..], now);
    }
  }

  // ---------- pruning ----------

  /** A history of one key: calls, and the janitor's pruning at `now` with its age limit. */
  datatype Op = Reserve(now: Time) | Prune(now: Time)

  predicate InTimeOrder(ops: seq<Op>) {
    forall i :: 0 <= i < |ops| - 1 ==> ops[i].now <= ops[i + 1].now
  }

  function Decisions(w: Window, limit: nat, period: Time, age: Time, ops: seq<Op>): seq<Decision>
    decreases |ops|
  {
    if ops == [] then [] else
      match ops[0]
      case Reserve(t) => [Decide(w, limit, period, t)] + Decisions(After(w, limit, period, t), limit, period, age, ops[1..])
      case Prune(t) => Decisions(Pruned(w, t - age), limit, period, age, ops[1..])
  }

  /** The same history without any pruning. */
  function Unpruned(ops: seq<Op>): seq<Op>
    decreases |ops|
  {
    if ops == [] then [] else (if ops[0].Reserve? then [ops[0]] else []) + Unpruned(ops[1..])
  }

  /** The two tables agree: same row, or one is missing a row that is expired for good. */
  predicate Agree(pruned: Window, kept: Window, period: Time, now: Time) {
    pruned == kept || (pruned.NoWindow? && Expired(kept, period, now))
  }

  lemma {:induction false} PruningAgrees(w: Window, v: Window, limit: nat, period: Time, age: Time, ops: seq<Op>, now: Time)
    requires period <= age + 1 && InTimeOrder(ops) && (ops != [] ==> now <= ops[0].now)
    requires Agree(w, v, period, now)
    ensures Decisions(w, limit, period, age, ops) == Decisions(v, limit, period, age, Unpruned(ops))
    decreases |ops|
  {
    if ops != [] {
      var op, rest := ops[0], ops[1..];
      assert forall i :: 0 <= i < |rest| ==> rest[i] == ops[i + 1];
      match op {
        case Reserve(t) =>
          PruningAgrees(After(w, limit, period, t), After(v, limit, period, t), limit, period, age, rest, t);
          assert Unpruned(ops)[0] == op && Unpruned(ops)[1..] == Unpruned(rest);
        case Prune(t) =>
          PruningAgrees(Pruned(w, t - age), v, limit, period, age, rest, t);
          assert Unpruned(ops) == Unpruned(rest);
      }
    }
  }

  /** Pruning never changes a grant, a denial or a retry time ... */
  ghost predicate PruningInvisible(limit: nat, period: Time, age: Time) {
    forall ops: seq<Op> :: InTimeOrder(ops) ==>
      Decisions(NoWindow, limit, period, age, ops) == Decisions(NoWindow, limit, period, age, Unpruned(ops))
  }

  /** ... exactly when the period is at most one nanosecond longer than the age at which
      rows are pruned (24 hours in the janitor): a row goes when it is older than that. */
  lemma PruningInvisibleIff(limit: nat, period: Time, age: Time)
    requires limit > 0 && period > 0 && age > 0
    ensures PruningInvisible(limit, period, age) <==> period <= age + 1
  {
    if period <= age + 1 {
      forall ops: seq<Op> | InTimeOrder(ops)
        ensures Decisions(NoWindow, limit, period, age, ops) == Decisions(NoWindow, limit, period, age, Unpruned(ops))
      {
        if ops != [] { PruningAgrees(NoWindow, NoWindow, limit, period, age, ops, ops[0].now); }
      }
    } else {
      PruningShows(limit, period, age);
    }
  }

  /** `n` calls at time 0, then `tail`. */
  function Calls(n: nat, tail: seq<Op>): seq<Op> {
    if n == 0 then tail else [Reserve(0)] + Calls(n - 1, tail)
  }

  /** With a longer period: fill the window at 0, prune once it is older than `age` but
      not over, and call again; without the pruning the call is denied. */
  lemma PruningShows(limit: nat, period: Time, age: Time)
    requires limit > 0 && period > age + 1 && age > 0
    ensures !PruningInvisible(limit, period, age)
  {
    var last := [Reserve(age + 1)];
    var tail := [Prune(age + 1)] + last;
    var ops := Calls(limit, tail);
    assert tail[1..] == last && last[1..] == [];
    assert Unpruned(last) == last by { assert Unpruned(last[1..]) == []; }
    assert Unpruned(tail) == last by { assert [] + last == last; }
    CallsShape(limit, tail);
    CallsFill(NoWindow, limit, limit, period, age, tail);
    CallsFill(NoWindow, limit, limit, period, age, last);
    assert Decisions(Open(0, limit), limit, period, age, tail) == Decisions(NoWindow, limit, period, age, last);
    LastDecision(NoWindow, limit, period, age, age + 1);
    LastDecision(Open(0, limit), limit, period, age, age + 1);
    assert Decisions(NoWindow, limit, period, age, ops)[limit] == Granted;
    assert Decisions(NoWindow, limit, period, age, Unpruned(ops))[limit] == Denied(period);
  }

  lemma LastDecision(w: Window, limit: nat, period: Time, age: Time, t: Time)
    ensures Decisions(w, limit, period, age, [Reserve(t)]) == [Decide(w, limit, period, t)]
  {
    assert [Reserve(t)][1..] == [];
    assert Decisions(After(w, limit, period, t), limit, period, age, []) == [];
  }

  /** The decisions while `n` calls at time 0 fill the window. */
  function Filled(n: nat): seq<Decision> {
    seq(n, _ => Granted)
  }

  lemma {:induction false} CallsFill(w: Window, n: nat, limit: nat, period: Time, age: Time, tail: seq<Op>)
    requires period > 0 && n > 0 && (w == NoWindow ==> n <= limit) && (w.Open? ==> w.start == 0 && w.count + n <= limit)
    ensures Decisions(w, limit, period, age, Calls(n, tail))
            == Filled(n) + Decisions(Open(0, (if w.Open? then w.count else 0) + n), limit, period, age, tail)
    decreases n
  {
    var w' := After(w, limit, period, 0);
    assert Calls(n, tail)[1..] == Calls(n - 1, tail);
    if n > 1 {
      CallsFill(w', n - 1, limit, period, age, tail);
      assert Filled(n) == [Granted] + Filled(n - 1);
    } else {
      assert Filled(1) == [Granted];
    }
  }

  lemma {:induction false} CallsShape(n: nat, tail: seq<Op>)
    requires InTimeOrder(tail) && (tail != [] ==> tail[0].now >= 0)
    ensures InTimeOrder(Calls(n, tail)) && (Calls(n, tail) != [] ==> Calls(n, tail)[0].now >= 0)
    ensures Unpruned(Calls(n, tail)) == Calls(n, Unpruned(tail))
    decreases n
  {
    if n > 0 {
      CallsShape(n - 1, tail);
      Prepend(Reserve(0), Calls(n - 1, tail));
    }
  }

  lemma Prepend(op: Op, rest: seq<Op>)
    requires op.Reserve? && InTimeOrder(rest) && (rest != [] ==> op.now <= rest[0].now)
    ensures InTimeOrder([op] + rest) && Unpruned([op] + rest) == [op] + Unpruned(rest)
  {
    assert ([op] + rest)[1..] == rest;
    assert forall i :: 0 < i < |rest| + 1 ==> ([op] + rest)[i] == rest[i - 1];
  }
}
