/** Batch windows: events are collected per (function, key) and leave in batches. No
    event is lost, duplicated or reordered on the way. */
module Batching {
  import opened Sdk

  type Time = int

  datatype Entry = Entry(seqNo: nat, event: Event, addedAt: Time)

  datatype BatchConf = BatchConf(maxSize: nat, timeout: Time)

  datatype BatchRun = BatchRun(slot: Slot, events: seq<Event>)

  /** A function id and the value of its batch key. */
  type Slot = (string, string)

  function Events(es: seq<Entry>): (r: seq<Event>)
    ensures |r| == |es|
  {
    seq(|es|, i requires 0 <= i < |es| => es[i].event)
  }

  /** Everything that left slot `s`, batch after batch. */
  function Flushed(runs: seq<BatchRun>, s: Slot): seq<Event> {
    if runs == [] then [] else
      var last := runs[|runs| - 1];
      Flushed(runs[..|runs| - 1], s) + (if last.slot == s then last.events else [])
  }

  lemma FlushedSnoc(runs: seq<BatchRun>, r: BatchRun, s: Slot)
    ensures Flushed(runs + [r], s) == Flushed(runs, s) + (if r.slot == s then r.events else [])
  {
    assert (runs + [r])[..|runs|] == runs;
  }

  predicate InSeqOrder(es: seq<Entry>, clock: Time) {
    && (forall i, j :: 0 <= i < j < |es| ==> es[i].seqNo < es[j].seqNo && es[i].addedAt <= es[j].addedAt)
    && (forall i :: 0 <= i < |es| ==> es[i].addedAt <= clock)
  }

  function Rows<T>(m: map<Slot, seq<T>>, s: Slot): seq<T> {
    if s in m then m[s] else []
  }

  function Opened(windows: map<Slot, Time>, s: Slot, now: Time): map<Slot, Time> {
    if s in windows then windows else windows[s := now]
  }

  function Reopened(windows: map<Slot, Time>, s: Slot, rest: seq<Entry>): map<Slot, Time> {
    if rest == [] then windows - {s} else windows[s := rest[0].addedAt]
  }

  /** A slot conserves its events: what has left it (`gone`), followed by what it still
      holds, is what was appended to it (`all`). And its window is open exactly if it holds
      entries, with the earliest of their times as its `first_at`. */
  ghost predicate Conserved(open: bool, firstAt: Time, es: seq<Entry>, gone: seq<Event>, all: seq<Event>, clock: Time) {
    && gone + Events(es) == all
    && (open <==> es != [])
    && (open ==> firstAt == es[0].addedAt)
    && InSeqOrder(es, clock)
  }

  ghost predicate SlotOk(windows: map<Slot, Time>, entries: map<Slot, seq<Entry>>, runs: seq<BatchRun>,
                         appended: map<Slot, seq<Event>>, clock: Time, s: Slot) {
    Conserved(s in windows, if s in windows then windows[s] else 0, Rows(entries, s), Flushed(runs, s), Rows(appended, s), clock)
  }

  ghost predicate AllOk(windows: map<Slot, Time>, entries: map<Slot, seq<Entry>>, runs: seq<BatchRun>,
                        appended: map<Slot, seq<Event>>, clock: Time) {
    forall s :: SlotOk(windows, entries, runs, appended, clock, s)
  }

  lemma AppendKeeps(open: bool, firstAt: Time, es: seq<Entry>, gone: seq<Event>, all: seq<Event>, clock: Time, x: Entry)
    requires Conserved(open, firstAt, es, gone, all, clock) && x.addedAt >= clock
    requires forall i :: 0 <= i < |es| ==> es[i].seqNo < x.seqNo
    ensures Conserved(true, if open then firstAt else x.addedAt, es + [x], gone, all + [x.event], x.addedAt)
  {
    assert Events(es + [x]) == Events(es) + [x.event];
    assert gone + Events(es + [x]) == (gone + Events(es)) + [x.event];
  }

  lemma FlushKeeps(open: bool, firstAt: Time, es: seq<Entry>, gone: seq<Event>, all: seq<Event>, clock: Time, n: nat)
    requires Conserved(open, firstAt, es, gone, all, clock) && 0 < n <= |es|
    ensures Conserved(n < |es|, if n < |es| then es[n].addedAt else 0, es[n..], gone + Events(es[..n]), all, clock)
  {
    assert Events(es) == Events(es[..n]) + Events(es[n..]);
    assert gone + (Events(es[..n]) + Events(es[n..])) == (gone + Events(es[..n])) + Events(es[n..]);
  }

  lemma AllAppendKeeps(windows: map<Slot, Time>, entries: map<Slot, seq<Entry>>, runs: seq<BatchRun>,
                       appended: map<Slot, seq<Event>>, clock: Time, s: Slot, x: Entry)
    requires AllOk(windows, entries, runs, appended, clock) && x.addedAt >= clock
    requires forall i :: 0 <= i < |Rows(entries, s)| ==> Rows(entries, s)[i].seqNo < x.seqNo
    ensures AllOk(Opened(windows, s, x.addedAt), entries[s := Rows(entries, s) + [x]], runs,
                  appended[s := Rows(appended, s) + [x.event]], x.addedAt)
  {
    var windows', entries', appended' := Opened(windows, s, x.addedAt), entries[s := Rows(entries, s) + [x]],
                                         appended[s := Rows(appended, s) + [x.event]];
    forall t ensures SlotOk(windows', entries', runs, appended', x.addedAt, t) {
      assert SlotOk(windows, entries, runs, appended, clock, t);
      if t == s {
        AppendKeeps(s in windows, if s in windows then windows[s] else 0, Rows(entries, s), Flushed(runs, s), Rows(appended, s), clock, x);
      }
    }
  }

  lemma AllFlushKeeps(windows: map<Slot, Time>, entries: map<Slot, seq<Entry>>, runs: seq<BatchRun>,
                      appended: map<Slot, seq<Event>>, clock: Time, s: Slot, n: nat)
    requires AllOk(windows, entries, runs, appended, clock) && 0 < n <= |Rows(entries, s)|
    ensures var es := Rows(entries, s);
            AllOk(Reopened(windows, s, es[n..]), entries[s := es[n..]], runs + [BatchRun(s, Events(es[..n]))], appended, clock)
  {
    var es := Rows(entries, s);
    var windows', entries', runs' := Reopened(windows, s, es[n..]), entries[s := es[n..]], runs + [BatchRun(s, Events(es[..n]))];
    forall t ensures SlotOk(windows', entries', runs', appended, clock, t) {
      assert SlotOk(windows, entries, runs, appended, clock, t);
      FlushedSnoc(runs, BatchRun(s, Events(es[..n])), t);
      if t == s {
        FlushKeeps(s in windows, if s in windows then windows[s] else 0, es, Flushed(runs, s), Rows(appended, s), clock, n);
      }
    }
  }

  /** Entries and events of a slot that grow by arrival after arrival. */
  lemma OneMore(es0: seq<Entry>, sent0: seq<Event>, es: seq<Entry>, sent: seq<Event>, x: Entry, arrivals: seq<Event>, i: nat)
    requires i < |arrivals| && x.event == arrivals[i] && es0 <= es
    requires Events(es) == Events(es0) + arrivals[..i] && sent == sent0 + arrivals[..i]
    ensures es0 <= es + [x] && Events(es + [x]) == Events(es0) + arrivals[..i + 1]
    ensures sent + [arrivals[i]] == sent0 + arrivals[..i + 1]
  {
    assert Events(es + [x]) == Events(es) + [x.event];
    assert arrivals[..i + 1] == arrivals[..i] + [arrivals[i]];
  }

  /** batch_windows, batch_entries and the runs that batches have become. */
  class BatchTables {
    var windows: map<Slot, Time>
    var entries: map<Slot, seq<Entry>>
    var runs: seq<BatchRun>
    ghost var appended: map<Slot, seq<Event>>
    ghost var clock: Time

    ghost predicate Valid()
      reads this
    {
      AllOk(windows, entries, runs, appended, clock)
    }

    constructor ()
      ensures Valid() && runs == [] && windows == map[] && entries == map[] && appended == map[]
    {
      windows, entries, runs, appended, clock := map[], map[], [], map[], 0;
    }

    /** `AppendBatchEntry`: the window is opened if there is none, the entry takes the next
        seq, and the number of entries is returned. */
    method AppendBatchEntry(s: Slot, e: Event, now: Time) returns (count: nat, ghost x: Entry)
      requires Valid() && now >= clock
      modifies this
      ensures Valid() && clock == now && runs == old(runs)
      ensures appended == old(appended)[s := Rows(old(appended), s) + [e]]
      ensures x.event == e && x.addedAt == now
      ensures entries == old(entries)[s := Rows(old(entries), s) + [x]]
      ensures windows == Opened(old(windows), s, now)
      ensures count == |Rows(old(entries), s)| + 1
    {
      assert SlotOk(windows, entries, runs, appended, clock, s);
      var es := BatchEntries(s);
      var next := NextSeq(es, clock);
      x := Entry(next, e, now);
      AllAppendKeeps(windows, entries, runs, appended, clock, s, x);
      if s !in windows {
        windows := windows[s := now];
      }
      entries := entries[s := es + [Entry(next, e, now)]];
      count := |es| + 1;
      appended, clock := appended[s := Rows(appended, s) + [e]], now;
    }

    /** `BatchEntries` in seq order. */
    method BatchEntries(s: Slot) returns (es: seq<Entry>)
      ensures es == Rows(entries, s)
    {
      es := if s in entries then entries[s] else [];
    }

    /** `FlushBatch`: the run is created and the entries up to `upTo` go. What was read
        (`n` entries) is still in front; entries that came later stay. */
    method FlushBatch(s: Slot, upTo: nat, events: seq<Event>, ghost n: nat)
      requires Valid() && 0 < n <= |Rows(entries, s)| && upTo == Rows(entries, s)[n - 1].seqNo
      requires events == Events(Rows(entries, s)[..n])
      modifies this
      ensures Valid() && clock == old(clock) && appended == old(appended)
      ensures runs == old(runs) + [BatchRun(s, events)]
      ensures entries == old(entries)[s := Rows(old(entries), s)[n..]]
      ensures windows == Reopened(old(windows), s, Rows(old(entries), s)[n..])
    {
      assert SlotOk(windows, entries, runs, appended, clock, s);
      var es := BatchEntries(s);
      AllFlushKeeps(windows, entries, runs, appended, clock, s, n);
      var rest := AfterSeq(es, upTo, n, clock);
      if rest != [] {
        var first := Earliest(rest);
        assert first == rest[0].addedAt;
        windows := windows[s := first];
      } else {
        windows := windows - {s};
      }
      entries := entries[s := rest];
      runs := runs + [BatchRun(s, events)];
    }
  }

  /** The entries with a seq above `upTo`. */
  method AfterSeq(es: seq<Entry>, upTo: nat, ghost n: nat, ghost clock: Time) returns (rest: seq<Entry>)
    requires InSeqOrder(es, clock) && 0 < n <= |es| && upTo == es[n - 1].seqNo
    ensures rest == es[n..]
  {
    rest := es;
    ghost var k := 0;
    while rest != [] && rest[0].seqNo <= upTo
      invariant k <= n && rest == es[k..]
    {
      rest := rest[1..];
      k := k + 1;
    }
  }

  /** `COALESCE(MAX(seq), 0) + 1`. */
  method NextSeq(es: seq<Entry>, ghost clock: Time) returns (n: nat)
    requires InSeqOrder(es, clock)
    ensures forall i :: 0 <= i < |es| ==> es[i].seqNo < n
  {
    n := 1;
    for i := 0 to |es|
      invariant n >= 1 && forall j :: 0 <= j < i ==> es[j].seqNo < n
    {
      if es[i].seqNo + 1 > n {
        n := es[i].seqNo + 1;
      }
    }
  }

  /** `MIN(added_at)`. */
  method Earliest(es: seq<Entry>) returns (t: Time)
    requires es != []
    ensures forall i :: 0 <= i < |es| ==> t <= es[i].addedAt
    ensures exists i :: 0 <= i < |es| && es[i].addedAt == t
  {
    t := es[0].addedAt;
    for i := 1 to |es|
      invariant forall j :: 0 <= j < i ==> t <= es[j].addedAt
      invariant exists j :: 0 <= j < i && es[j].addedAt == t
    {
      if es[i].addedAt < t {
        t := es[i].addedAt;
      }
    }
  }

  function Least(m: nat, n: nat): (r: nat)
    ensures r <= m && r <= n && (r == m || r == n)
  {
    if n > m then m else n
  }

  class BatchRouter {
    const tables: BatchTables
    const confs: map<string, BatchConf>

    constructor (tables: BatchTables, confs: map<string, BatchConf>)
      ensures this.tables == tables && this.confs == confs
    {
      this.tables, this.confs := tables, confs;
    }

    /** Every batch that has left holds between one and `maxSize` events. */
    ghost predicate Sized(runs: seq<BatchRun>) {
      forall i :: 0 <= i < |runs| ==>
        runs[i].slot.0 in confs && 1 <= |runs[i].events| <= confs[runs[i].slot.0].maxSize
    }

    /** Between two routings no window is full. */
    ghost predicate AtRest(entries: map<Slot, seq<Entry>>) {
      forall s :: s in entries && s.0 in confs ==> |entries[s]| < confs[s.0].maxSize
    }

    ghost predicate Good()
      reads tables
    {
      && tables.Valid() && Sized(tables.runs)
      && (forall f :: f in confs ==> confs[f].maxSize > 0 && confs[f].timeout > 0)
    }

    /** Arrivals between the read and the flush. */
    method Arrive(s: Slot, arrivals: seq<Event>, now: Time)
      requires Good() && now >= tables.clock
      modifies tables
      ensures Good() && tables.clock <= now && tables.runs == old(tables.runs)
      ensures arrivals == [] ==> tables.entries == old(tables.entries) && tables.windows == old(tables.windows)
      ensures Rows(old(tables.entries), s) <= Rows(tables.entries, s)
      ensures Events(Rows(tables.entries, s)) == Events(Rows(old(tables.entries), s)) + arrivals
      ensures arrivals == [] ==> tables.appended == old(tables.appended)
      ensures Rows(tables.appended, s) == Rows(old(tables.appended), s) + arrivals
      ensures tables.entries - {s} == old(tables.entries) - {s} && tables.appended - {s} == old(tables.appended) - {s}
    {
      var i := 0;
      while i < |arrivals|
        invariant i <= |arrivals| && Good() && tables.clock <= now && tables.runs == old(tables.runs)
        invariant i == 0 ==> tables.entries == old(tables.entries) && tables.windows == old(tables.windows)
        invariant i == 0 ==> tables.appended == old(tables.appended)
        invariant Rows(old(tables.entries), s) <= Rows(tables.entries, s)
        invariant Events(Rows(tables.entries, s)) == Events(Rows(old(tables.entries), s)) + arrivals[..i]
        invariant Rows(tables.appended, s) == Rows(old(tables.appended), s) + arrivals[..i]
        invariant tables.entries - {s} == old(tables.entries) - {s} && tables.appended - {s} == old(tables.appended) - {s}
      {
        ghost var es, sent := Rows(tables.entries, s), Rows(tables.appended, s);
        var _, x := tables.AppendBatchEntry(s, arrivals[i], now);
        assert Rows(tables.entries, s) == es + [x] && Rows(tables.appended, s) == sent + [arrivals[i]];
        OneMore(Rows(old(tables.entries), s), Rows(old(tables.appended), s), es, sent, x, arrivals, i);
        i := i + 1;
      }
      assert arrivals[..i] == arrivals;
    }

    /** `flushBatch`. The first `maxSize` entries become a run; `arrivals`, appended between
        the read and the flush, stay behind the ones that were left. */
    method FlushOne(s: Slot, arrivals: seq<Event>, now: Time)
      requires Good() && s.0 in confs && now >= tables.clock
      modifies tables
      ensures Good() && tables.clock <= now
      ensures Rows(tables.appended, s) == Rows(old(tables.appended), s) + arrivals
      ensures tables.entries - {s} == old(tables.entries) - {s} && tables.appended - {s} == old(tables.appended) - {s}
      ensures var es := Rows(old(tables.entries), s); var n := Least(confs[s.0].maxSize, |es|);
              && Events(Rows(tables.entries, s)) == Events(es[n..]) + arrivals
              && tables.runs == (if n == 0 then old(tables.runs) else old(tables.runs) + [BatchRun(s, Events(es[..n]))])
              && (arrivals == [] && n > 0 ==>
                    && tables.appended == old(tables.appended)
                    && tables.entries == old(tables.entries)[s := es[n..]]
                    && tables.windows == Reopened(old(tables.windows), s, es[n..]))
    {
      var read := tables.BatchEntries(s);
      Arrive(s, arrivals, now);
      if read == [] {
        return;
      }
      var batch := if |read| > confs[s.0].maxSize then read[..confs[s.0].maxSize] else read;
      ghost var all := Rows(tables.entries, s);
      var payload := [];
      for j := 0 to |batch|
        invariant payload == Events(batch[..j])
      {
        payload := payload + [batch[j].event];
      }
      assert batch[..|batch|] == batch == all[..|batch|];
      tables.FlushBatch(s, batch[|batch| - 1].seqNo, payload, |batch|);
      assert Events(all[|batch|..]) == Events(all)[|batch|..];
      assert Events(read[|batch|..]) == Events(read)[|batch|..];
    }

    /** `routeBatched`: the event is appended, and a window that is full leaves at once. */
    method RouteBatched(f: string, key: string, e: Event, now: Time)
      requires Good() && AtRest(tables.entries) && f in confs && now >= tables.clock
      modifies tables
      ensures Good() && AtRest(tables.entries)
      ensures tables.appended == old(tables.appended)[(f, key) := Rows(old(tables.appended), (f, key)) + [e]]
      ensures var es := Events(Rows(old(tables.entries), (f, key))) + [e];
              if |es| == confs[f].maxSize
              then tables.runs == old(tables.runs) + [BatchRun((f, key), es)] && Rows(tables.entries, (f, key)) == []
              else tables.runs == old(tables.runs) && Events(Rows(tables.entries, (f, key))) == es
    {
      var s := (f, key);
      var count, x := tables.AppendBatchEntry(s, e, now);
      ghost var es := Rows(tables.entries, s);
      assert Events(es) == Events(Rows(old(tables.entries), s)) + [e];
      if count >= confs[f].maxSize {
        FlushOne(s, [], now);
        assert es[..|es|] == es;
      }
    }

    ghost predicate Overdue(windows: map<Slot, Time>, s: Slot, now: Time) {
      s in windows && s.0 in confs && now >= windows[s] + confs[s.0].timeout
    }

    /** One overdue window leaves as a batch and is closed. */
    method Expire(s: Slot, now: Time)
      requires Good() && AtRest(tables.entries) && now >= tables.clock && s in tables.windows && s.0 in confs
      modifies tables
      ensures Good() && AtRest(tables.entries) && tables.clock <= now
      ensures tables.appended == old(tables.appended)
      ensures tables.windows == old(tables.windows) - {s}
      ensures tables.entries == old(tables.entries)[s := []]
      ensures tables.runs == old(tables.runs) + [BatchRun(s, Events(Rows(old(tables.entries), s)))]
    {
      ghost var es := Rows(tables.entries, s);
      assert SlotOk(tables.windows, tables.entries, tables.runs, tables.appended, tables.clock, s);
      FlushOne(s, [], now);
      assert es[..|es|] == es && es[|es|..] == [];
    }

    /** Where slot `s` stands while the windows in `todo` are still to be looked at. */
    ghost predicate Scanned(windows: map<Slot, Time>, entries: map<Slot, seq<Entry>>, listed: map<Slot, Time>,
                            was: map<Slot, seq<Entry>>, todo: set<Slot>, s: Slot, now: Time) {
      if s in listed && (s in todo || !Overdue(listed, s, now))
      then s in windows && windows[s] == listed[s] && Rows(entries, s) == Rows(was, s)
      else s !in windows && Rows(entries, s) == [] && (s !in listed ==> Rows(was, s) == [])
    }

    /** `scanBatchTimeouts`: afterwards no window of a configured function is overdue, and
        only overdue ones were touched. */
    method ScanBatchTimeouts(now: Time)
      requires Good() && AtRest(tables.entries) && now >= tables.clock
      modifies tables
      ensures Good() && AtRest(tables.entries)
      ensures forall s :: !Overdue(tables.windows, s, now)
      ensures tables.appended == old(tables.appended)
      ensures forall s :: Rows(tables.entries, s) ==
                if Overdue(old(tables.windows), s, now) then [] else Rows(old(tables.entries), s)
    {
      var listed := tables.windows;
      ghost var was := tables.entries;
      var todo := listed.Keys;
      forall s ensures Scanned(listed, was, listed, was, todo, s, now) {
        assert SlotOk(listed, was, tables.runs, tables.appended, tables.clock, s);
      }
      while todo != {}
        invariant Good() && AtRest(tables.entries) && now >= tables.clock
        invariant tables.appended == old(tables.appended)
        invariant todo <= listed.Keys
        invariant forall s :: Scanned(tables.windows, tables.entries, listed, was, todo, s, now)
        decreases |todo|
      {
        var s :| s in todo;
        ghost var left, windows, entries := todo, tables.windows, tables.entries;
        assert Scanned(windows, entries, listed, was, left, s, now);
        todo := todo - {s};
        if s.0 in confs && now >= listed[s] + confs[s.0].timeout {
          Expire(s, now);
        }
        forall t ensures Scanned(tables.windows, tables.entries, listed, was, todo, t, now) {
          assert Scanned(windows, entries, listed, was, left, t, now);
        }
      }
      forall s ensures !Overdue(tables.windows, s, now) {
        assert Scanned(tables.windows, tables.entries, listed, was, todo, s, now);
      }
      forall s ensures Rows(tables.entries, s) == if Overdue(listed, s, now) then [] else Rows(was, s) {
        assert Scanned(tables.windows, tables.entries, listed, was, todo, s, now);
        assert SlotOk(tables.windows, tables.entries, tables.runs, tables.appended, tables.clock, s);
      }
    }
  }
}
