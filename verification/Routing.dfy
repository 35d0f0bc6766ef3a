/** Routing: an event becomes one run per subscriber, however often it is routed. */
module Routing {
  import opened StepKeys
  import opened Sdk

  type Time = int

  /** A function the event's name is registered for; `flow` if it is batched or debounced,
      which has windows of its own. */
  datatype Subscriber = Subscriber(id: string, pattern: string, flow: bool)

  datatype RunRow = RunRow(functionId: string, event: Event)

  datatype Item = Item(runId: Hash, at: Time)

  /** The ids of an event and of a function that took it. */
  type Pair = (string, string)

  /** Match expressions, with the empty one always true. */
  type Matcher = (string, Event) -> bool

  predicate Passes(paused: set<string>, matches: Matcher, f: Subscriber, e: Event) {
    f.id !in paused && (f.pattern == "" || matches(f.pattern, e)) && !f.flow
  }

  /** The pairs that `e` makes with those of its subscribers that pass. */
  function Taken(paused: set<string>, matches: Matcher, subs: seq<Subscriber>, e: Event): set<Pair> {
    if subs == [] then {} else
      var f := subs[|subs| - 1];
      Taken(paused, matches, subs[..|subs| - 1], e) + (if Passes(paused, matches, f, e) then {(e.id, f.id)} else {})
  }

  lemma {:induction false} TakenExact(paused: set<string>, matches: Matcher, subs: seq<Subscriber>, e: Event, p: Pair)
    ensures p in Taken(paused, matches, subs, e) <==> p.0 == e.id && exists f :: f in subs && Passes(paused, matches, f, e) && f.id == p.1
  {
    if subs != [] {
      var before, f := subs[..|subs| - 1], subs[|subs| - 1];
      assert subs == before + [f];
      TakenExact(paused, matches, before, e, p);
    }
  }

  function PairOf(row: RunRow): Pair {
    (row.event.id, row.functionId)
  }

  function IdOf(p: Pair): Hash {
    DerivedRunId(p.0, p.1)
  }

  /** Exactly one run for each pair that has passed, with its function and event. */
  ghost predicate RunEach(runs: map<Hash, RunRow>, passed: set<Pair>) {
    && (forall p :: p in passed ==> IdOf(p) in runs && PairOf(runs[IdOf(p)]) == p)
    && (forall r :: r in runs ==> PairOf(runs[r]) in passed && r == IdOf(PairOf(runs[r])))
  }

  /** Exactly one item for each run, not before the time of its event. */
  ghost predicate ItemEach(runs: map<Hash, RunRow>, items: seq<Item>) {
    && (forall i, j :: 0 <= i < j < |items| ==> items[i].runId != items[j].runId)
    && (forall i :: 0 <= i < |items| ==> items[i].runId in runs && items[i].at >= runs[items[i].runId].event.ts)
    && (forall r :: r in runs ==> exists i :: 0 <= i < |items| && items[i].runId == r)
  }

  lemma RunEachKept(functionIds: set<string>, runs: map<Hash, RunRow>, passed: set<Pair>, f: string, e: Event)
    requires RunEach(runs, passed) && Apart(functionIds) && f in functionIds && forall p :: p in passed ==> p.1 in functionIds
    ensures IdOf((e.id, f)) in runs <==> (e.id, f) in passed
    ensures (e.id, f) !in passed ==> RunEach(runs[IdOf((e.id, f)) := RunRow(f, e)], passed + {(e.id, f)})
  {
    var r := IdOf((e.id, f));
    if r in runs {
      var p := PairOf(runs[r]);
      DerivedRunIdInjective(functionIds, e.id, f, p.0, p.1);
    }
  }

  lemma ItemEachKept(runs: map<Hash, RunRow>, items: seq<Item>, r: Hash, row: RunRow, at: Time)
    requires ItemEach(runs, items) && r !in runs && at >= row.event.ts
    ensures ItemEach(runs[r := row], items + [Item(r, at)])
  {
    var more := items + [Item(r, at)];
    var runs' := runs[r := row];
    forall q | q in runs' ensures exists i :: 0 <= i < |more| && more[i].runId == q {
      if q == r {
        assert more[|items|].runId == q;
      } else {
        var i :| 0 <= i < |items| && items[i].runId == q;
        assert more[i].runId == q;
      }
    }
  }

  /** Runs were only added, for the event `e`, and items for them at time `at`. */
  ghost predicate Grew(runs0: map<Hash, RunRow>, items0: seq<Item>, runs: map<Hash, RunRow>, items: seq<Item>, e: Event, at: Time) {
    && (forall r :: r in runs0 ==> r in runs && runs[r] == runs0[r])
    && (forall r :: r in runs && r !in runs0 ==> runs[r].event == e)
    && items0 <= items
    && (forall i :: |items0| <= i < |items| ==> items[i].at == at)
  }

  lemma GrewFurther(runs0: map<Hash, RunRow>, items0: seq<Item>, runs1: map<Hash, RunRow>, items1: seq<Item>,
                    runs: map<Hash, RunRow>, items: seq<Item>, e: Event, at: Time)
    requires Grew(runs0, items0, runs1, items1, e, at) && Grew(runs1, items1, runs, items, e, at)
    ensures Grew(runs0, items0, runs, items, e, at)
  {
    assert forall i :: 0 <= i < |items1| ==> items[i] == items1[i];
  }

  function Later(a: Time, b: Time): (t: Time)
    ensures t >= a && t >= b && (t == a || t == b)
  {
    if b > a then b else a
  }

  class Router {
    const functionIds: set<string>
    const matches: Matcher
    var paused: set<string>
    var runs: map<Hash, RunRow>
    var items: seq<Item>
    ghost var passed: set<Pair>

    ghost predicate Valid()
      reads this
    {
      && RunEach(runs, passed) && ItemEach(runs, items)
      && Apart(functionIds) && (forall p :: p in passed ==> p.1 in functionIds)
    }

    constructor (functionIds: set<string>, matches: Matcher)
      requires Apart(functionIds)
      ensures Valid() && passed == {} && runs == map[] && items == []
      ensures this.functionIds == functionIds && this.matches == matches
    {
      this.functionIds, this.matches := functionIds, matches;
      paused, runs, items, passed := {}, map[], [], {};
    }

    method SetFunctionPaused(f: string, on: bool)
      modifies this`paused
      ensures paused == if on then old(paused) + {f} else old(paused) - {f}
    {
      paused := if on then paused + {f} else paused - {f};
    }

    /** `CreateRun`: nothing happens if the id is taken. */
    method CreateRun(id: Hash, row: RunRow) returns (created: bool)
      modifies this`runs
      ensures created <==> id !in old(runs)
      ensures runs == if created then old(runs)[id := row] else old(runs)
    {
      created := id !in runs;
      if created {
        runs := runs[id := row];
      }
    }

    /** One subscriber of a routing. */
    method RouteTo(f: Subscriber, e: Event, now: Time)
      requires Valid() && f.id in functionIds
      modifies this`runs, this`items, this`passed
      ensures Valid() && passed == old(passed) + (if Passes(paused, matches, f, e) then {(e.id, f.id)} else {})
      ensures passed == old(passed) ==> runs == old(runs) && items == old(items)
      ensures Grew(old(runs), old(items), runs, items, e, Later(now, e.ts))
    {
      if f.id in paused {
        return;
      }
      if f.pattern != "" && !matches(f.pattern, e) {
        return;
      }
      if f.flow {
        return;
      }
      var runId := DerivedRunId(e.id, f.id);
      RunEachKept(functionIds, runs, passed, f.id, e);
      var created := CreateRun(runId, RunRow(f.id, e));
      if !created {
        assert passed + {(e.id, f.id)} == passed;
        return;
      }
      var at := now;
      if e.ts > at {
        at := e.ts;
      }
      ItemEachKept(old(runs), items, runId, RunRow(f.id, e), at);
      items := items + [Item(runId, at)];
      passed := passed + {(e.id, f.id)};
    }

    /** `route`, for the subscribers without flow control. Every subscriber that passes now
        or passed before has exactly one run and one first queue item for the event, and
        a routing that brings no new pair changes nothing. */
    method Route(e: Event, subs: seq<Subscriber>, now: Time)
      requires Valid() && forall f :: f in subs ==> f.id in functionIds
      modifies this`runs, this`items, this`passed
      ensures Valid() && passed == old(passed) + Taken(paused, matches, subs, e)
      ensures Taken(paused, matches, subs, e) <= old(passed) ==> runs == old(runs) && items == old(items)
      ensures Grew(old(runs), old(items), runs, items, e, Later(now, e.ts))
    {
      for i := 0 to |subs|
        invariant Valid() && passed == old(passed) + Taken(paused, matches, subs[..i], e)
        invariant passed == old(passed) ==> runs == old(runs) && items == old(items)
        invariant Grew(old(runs), old(items), runs, items, e, Later(now, e.ts))
      {
        assert subs[..i + 1][..i] == subs[..i];
        ghost var runs1, items1 := runs, items;
        RouteTo(subs[i], e, now);
        GrewFurther(old(runs), old(items), runs1, items1, runs, items, e, Later(now, e.ts));
      }
      assert subs[..|subs|] == subs;
    }
  }
}
