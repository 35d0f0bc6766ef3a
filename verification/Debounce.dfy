/** Debounce windows: the events of a (function, key) that arrive close together become
    one run, which carries the last of them. */
module Debounce {
  import opened StepKeys
  import opened Sdk

  type Time = int

  /** A function id and the value of its debounce key. */
  type Slot = (string, string)

  /** `timeout` zero or less: no cap. */
  datatype Conf = Conf(period: Time, timeout: Time)

  datatype Window = Window(runId: Hash, firstAt: Time, triggerAt: Time)

  datatype RunRow = RunRow(functionId: string, snapshot: Event)

  datatype Arrival = Arrival(event: Event, at: Time)

  /** `debounceTriggerAt`. */
  function TriggerAt(now: Time, firstAt: Time, c: Conf): Time {
    if c.timeout > 0 && now + c.period > firstAt + c.timeout then firstAt + c.timeout else now + c.period
  }

  /** The events a window has taken, in time order. */
  ghost predicate InOrder(log: seq<Arrival>) {
    log != [] && forall i, j :: 0 <= i < j < |log| ==> log[i].at <= log[j].at
  }

  /** The trigger time of a window that has taken `log`. */
  function Trigger(log: seq<Arrival>, c: Conf): Time
    requires log != []
  {
    TriggerAt(log[|log| - 1].at, log[0].at, c)
  }

  /** It is the last event's time plus the period or the first event's plus the timeout,
      whichever is earlier; and taking more events never moves it back. */
  lemma TriggerMeans(log: seq<Arrival>, c: Conf, n: nat)
    requires InOrder(log) && 0 < n <= |log|
    ensures var t, p, cap := Trigger(log, c), log[|log| - 1].at + c.period, log[0].at + c.timeout;
            if c.timeout > 0 then t <= p && t <= cap && (t == p || t == cap) else t == p
    ensures Trigger(log[..n], c) <= Trigger(log, c)
  {
    assert log[..n][0] == log[0] && log[..n][n - 1].at <= log[|log| - 1].at;
  }

  /** The tables (runs, debounce_pending rows, pending queue items by run), and what the
      windows have taken. */
  datatype View = View(runs: map<Hash, RunRow>, pending: map<Slot, Window>, items: map<Hash, Time>,
                       logs: map<Hash, seq<Arrival>>, slots: map<Hash, Slot>, clock: Time)

  /** A run carries the last event routed to its window; until it is dispatched (its queue
      item is pending) it has a window, that of its slot. */
  ghost predicate RunOk(v: View, r: Hash) {
    && (r in v.runs <==> r in v.logs) && (r in v.runs <==> r in v.slots) && (r in v.items ==> r in v.runs)
    && (r in v.runs ==>
          var log := v.logs[r];
          && InOrder(log) && log[|log| - 1].at <= v.clock
          && v.runs[r].snapshot == log[|log| - 1].event && v.runs[r].functionId == v.slots[r].0)
    && (r in v.items ==> v.slots[r] in v.pending && v.pending[v.slots[r]].runId == r)
  }

  /** An open window belongs to a run of its slot that is not dispatched, and its times are
      those of the events it has taken. */
  ghost predicate SlotOk(confs: map<string, Conf>, v: View, s: Slot) {
    s in v.pending ==>
      var w := v.pending[s];
      && s.0 in confs && w.runId in v.items && w.runId in v.slots && v.slots[w.runId] == s
      && w.runId in v.logs && v.logs[w.runId] != []
      && w.firstAt == v.logs[w.runId][0].at
      && w.triggerAt == Trigger(v.logs[w.runId], confs[s.0])
      && v.items[w.runId] >= w.triggerAt
  }

  ghost predicate Inv(confs: map<string, Conf>, v: View) {
    (forall r :: RunOk(v, r)) && (forall s :: SlotOk(confs, v, s))
  }

  /** A slot has at most one run that is not dispatched yet. */
  lemma OneLivePerSlot(confs: map<string, Conf>, v: View, r1: Hash, r2: Hash)
    requires Inv(confs, v) && r1 in v.items && r2 in v.items
    requires r1 in v.slots && r2 in v.slots && v.slots[r1] == v.slots[r2]
    ensures r1 == r2
  {
    assert RunOk(v, r1) && RunOk(v, r2);
  }

  /** An event joins the open window of slot `s`. */
  lemma JoinKeeps(confs: map<string, Conf>, v: View, s: Slot, e: Event, now: Time)
    requires Inv(confs, v) && s in v.pending && now >= v.clock
    ensures s.0 in confs && v.pending[s].runId in v.runs && v.pending[s].runId in v.logs
    ensures var w := v.pending[s];
            var at := TriggerAt(now, w.firstAt, confs[s.0]);
            Inv(confs, View(v.runs[w.runId := v.runs[w.runId].(snapshot := e)], v.pending[s := w.(triggerAt := at)], v.items[w.runId := at],
                            v.logs[w.runId := v.logs[w.runId] + [Arrival(e, now)]], v.slots, now))
  {
    var w := v.pending[s];
    assert SlotOk(confs, v, s) && RunOk(v, w.runId);
    var at := TriggerAt(now, w.firstAt, confs[s.0]);
    var v' := View(v.runs[w.runId := v.runs[w.runId].(snapshot := e)], v.pending[s := w.(triggerAt := at)], v.items[w.runId := at],
                   v.logs[w.runId := v.logs[w.runId] + [Arrival(e, now)]], v.slots, now);
    forall r ensures RunOk(v', r) { assert RunOk(v, r); }
    forall t ensures SlotOk(confs, v', t) { assert SlotOk(confs, v, t); }
  }

  /** An event opens a window with a new run. */
  lemma OpenKeeps(confs: map<string, Conf>, v: View, s: Slot, r: Hash, e: Event, now: Time)
    requires Inv(confs, v) && s !in v.pending && s.0 in confs && r !in v.runs && now >= v.clock
    ensures var at := TriggerAt(now, now, confs[s.0]);
            Inv(confs, View(v.runs[r := RunRow(s.0, e)], v.pending[s := Window(r, now, at)], v.items[r := at],
                            v.logs[r := [Arrival(e, now)]], v.slots[r := s], now))
  {
    assert RunOk(v, r);
    var at := TriggerAt(now, now, confs[s.0]);
    var v' := View(v.runs[r := RunRow(s.0, e)], v.pending[s := Window(r, now, at)], v.items[r := at],
                   v.logs[r := [Arrival(e, now)]], v.slots[r := s], now);
    forall q ensures RunOk(v', q) { assert RunOk(v, q); }
    forall t ensures SlotOk(confs, v', t) { assert SlotOk(confs, v, t); }
  }

  /** A queue item is put back for later, or time passes. */
  lemma DeferKeeps(confs: map<string, Conf>, v: View, items: map<Hash, Time>, now: Time)
    requires Inv(confs, v) && now >= v.clock && items.Keys == v.items.Keys
    requires forall r :: r in items ==> items[r] >= v.items[r]
    ensures Inv(confs, v.(items := items, clock := now))
  {
    var v' := v.(items := items, clock := now);
    forall r ensures RunOk(v', r) { assert RunOk(v, r); }
    forall s ensures SlotOk(confs, v', s) { assert SlotOk(confs, v, s); }
  }

  /** The run `r` is dispatched and its window closed: of all windows that is the one of
      its slot. */
  lemma CloseKeeps(confs: map<string, Conf>, v: View, r: Hash, now: Time)
    requires Inv(confs, v) && r in v.items && v.items[r] <= now && now >= v.clock
    ensures r in v.slots && v.slots[r] in v.pending && v.pending[v.slots[r]].runId == r && v.pending[v.slots[r]].triggerAt <= now
    ensures forall s :: s in v.pending && v.pending[s].runId == r ==> s == v.slots[r]
    ensures Inv(confs, v.(pending := v.pending - {v.slots[r]}, items := v.items - {r}, clock := now))
  {
    assert RunOk(v, r);
    var v' := v.(pending := v.pending - {v.slots[r]}, items := v.items - {r}, clock := now);
    forall q ensures RunOk(v', q) { assert RunOk(v, q); }
    forall s ensures SlotOk(confs, v', s) && (s in v.pending && v.pending[s].runId == r ==> s == v.slots[r]) {
      assert SlotOk(confs, v, s);
    }
    assert SlotOk(confs, v, v.slots[r]);
  }

  class DebounceTables {
    const confs: map<string, Conf>
    var runs: map<Hash, RunRow>
    var pending: map<Slot, Window>
    var items: map<Hash, Time>
    ghost var logs: map<Hash, seq<Arrival>>
    ghost var slots: map<Hash, Slot>
    ghost var clock: Time

    ghost function Now(): View
      reads this
    {
      View(runs, pending, items, logs, slots, clock)
    }

    ghost predicate Valid()
      reads this
    {
      Inv(confs, Now())
    }

    constructor (confs: map<string, Conf>)
      ensures Valid() && this.confs == confs && runs == map[] && pending == map[] && items == map[]
    {
      this.confs := confs;
      runs, pending, items, logs, slots, clock := map[], map[], map[], map[], map[], 0;
    }

    /** `routeDebounced`: an event joins the open window of its slot, or opens one with a
        run of its own; an event that had a run before and finds no window is dropped. */
    method RouteDebounced(f: string, key: string, e: Event, now: Time) returns (created: bool)
      requires Valid() && f in confs && now >= clock
      modifies this
      ensures Valid() && clock == now
      ensures created <==> (f, key) !in old(pending) && DerivedRunId(e.id, f) !in old(runs)
      ensures if created then
                && logs == old(logs)[DerivedRunId(e.id, f) := [Arrival(e, now)]]
                && slots == old(slots)[DerivedRunId(e.id, f) := (f, key)]
                && items == old(items)[DerivedRunId(e.id, f) := TriggerAt(now, now, confs[f])]
              else if (f, key) in old(pending) then
                var r := old(pending)[(f, key)].runId;
                && r in old(logs) && logs == old(logs)[r := old(logs)[r] + [Arrival(e, now)]]
                && slots == old(slots)
                && items == old(items)[r := TriggerAt(now, old(pending)[(f, key)].firstAt, confs[f])]
              else logs == old(logs) && slots == old(slots) && items == old(items)
      ensures pending - {(f, key)} == old(pending) - {(f, key)}
    {
      var s := (f, key);
      if s in pending {
        JoinKeeps(confs, Now(), s, e, now);
        var w := pending[s];
        runs := runs[w.runId := runs[w.runId].(snapshot := e)];
        var at := TriggerAt(now, w.firstAt, confs[f]);
        assert w.runId in items by { assert SlotOk(confs, old(Now()), s); }
        if w.runId in items {
          items := items[w.runId := at];
        }
        pending := pending[s := w.(triggerAt := at)];
        logs, clock := logs[w.runId := logs[w.runId] + [Arrival(e, now)]], now;
        return false;
      }
      var r := DerivedRunId(e.id, f);
      if r in runs {
        DeferKeeps(confs, Now(), items, now);
        clock := now;
        return false;
      }
      OpenKeeps(confs, Now(), s, r, e, now);
      var at := TriggerAt(now, now, confs[f]);
      runs := runs[r := RunRow(f, e)];
      items := items[r := at];
      pending := pending[s := Window(r, now, at)];
      logs, slots, clock := logs[r := [Arrival(e, now)]], slots[r := s], now;
      created := true;
    }

    /** A dispatch that the throttle turns away: the item is put back for later. */
    method Defer(r: Hash, now: Time, retryAt: Time)
      requires Valid() && r in items && items[r] <= now && now < retryAt && now >= clock
      modifies this
      ensures Valid() && Now() == old(Now()).(items := old(items)[r := retryAt], clock := now)
    {
      DeferKeeps(confs, Now(), items[r := retryAt], now);
      items := items[r := retryAt];
      clock := now;
    }

    /** A dispatch: the item is leased and the window of the run is closed. It never comes
        before the window's trigger time; the run keeps its snapshot from here on, since no
        window leads to it any more. */
    method Dispatch(r: Hash, now: Time)
      requires Valid() && r in items && items[r] <= now && now >= clock
      modifies this
      ensures Valid() && r in slots && slots[r] in old(pending) && old(pending)[slots[r]].triggerAt <= now
      ensures Now() == old(Now()).(items := old(items) - {r}, pending := old(pending) - {slots[r]}, clock := now)
      ensures forall s :: s in pending ==> pending[s].runId != r
    {
      CloseKeeps(confs, Now(), r, now);
      pending := map s | s in pending && pending[s].runId != r :: pending[s];
      items := items - {r};
      clock := now;
      assert pending == old(pending) - {slots[r]};
    }
  }
}
