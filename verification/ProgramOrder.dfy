/** Step rows in program order: row i belongs to the handler's i-th step call, and
    only the last row can be unfinished. */
module ProgramOrder {
  import opened StepKeys
  import opened Sdk
  import opened RunStore
  import opened Wrappers

  function Outs(rows: seq<StepRow>): (outs: seq<Json>)
    ensures |outs| == |rows|
  {
    seq(|rows|, i requires 0 <= i < |rows| => rows[i].output)
  }

  /** The rows up to the first unfinished one. */
  function Done(rows: seq<StepRow>): seq<StepRow> {
    if rows != [] && !rows[|rows| - 1].status.StepCompleted? then rows[..|rows| - 1] else rows
  }

  ghost predicate Ordered(h: Handler, fid: string, inp: Input, rows: seq<StepRow>) {
    && (forall i :: 0 <= i < |rows| - 1 ==> rows[i].status.StepCompleted?)
    && (forall i :: 0 <= i < |rows| ==>
          h(inp, Outs(rows)[..i]).Call? && rows[i].key == KeyAt(h, fid, inp, Outs(rows)[..i]))
  }

  lemma OutsPrefix(rows: seq<StepRow>, i: nat)
    requires i <= |rows|
    ensures Outs(rows)[..i] == Outs(rows[..i])
  {}

  /** Rows of one run have different keys. */
  lemma OrderedKeysDiffer(h: Handler, fid: string, inp: Input, rows: seq<StepRow>, i: nat, j: nat)
    requires Ordered(h, fid, inp, rows) && i < j < |rows|
    ensures rows[i].key != rows[j].key
  {
    var outs := Outs(rows)[..j];
    assert outs[..i] == Outs(rows)[..i];
    KeysDiffer(h, fid, inp, outs, i);
  }

  /** The key of the next call is not the key of any finished row. */
  lemma NextKeyIsNew(h: Handler, fid: string, inp: Input, rows: seq<StepRow>, i: nat)
    requires Ordered(h, fid, inp, rows) && i < |Done(rows)|
    requires h(inp, Outs(Done(rows))).Call?
    ensures rows[i].key != KeyAt(h, fid, inp, Outs(Done(rows)))
  {
    var outs := Outs(Done(rows));
    OutsPrefix(rows, |Done(rows)|);
    assert outs[..i] == Outs(rows)[..i];
    KeysDiffer(h, fid, inp, outs, i);
  }

  lemma FindRowIs(rows: seq<StepRow>, key: Hash, i: nat)
    requires i <= |rows| && (i < |rows| ==> rows[i].key == key)
    requires forall j :: 0 <= j < i ==> rows[j].key != key
    ensures FindRow(rows, key) == i
  {}

  /** Writing the result of the next call either finishes the unfinished last row or
      appends a row; the rows stay in program order. */
  lemma CommitNext(h: Handler, fid: string, inp: Input, rows: seq<StepRow>, r: StepRow)
    requires Ordered(h, fid, inp, rows)
    requires h(inp, Outs(Done(rows))).Call? && r.key == KeyAt(h, fid, inp, Outs(Done(rows)))
    ensures Ordered(h, fid, inp, Upsert(rows, r))
    ensures |Upsert(rows, r)| == |Done(rows)| + 1 && Upsert(rows, r)[..|Done(rows)|] == Done(rows)
    ensures var u := Upsert(rows, r)[|Done(rows)|];
            u.key == r.key && u.status == r.status && u.output == r.output && u.until == r.until
  {
    var n := |Done(rows)|;
    OutsPrefix(rows, n);
    forall i | 0 <= i < n ensures rows[i].key != r.key {
      NextKeyIsNew(h, fid, inp, rows, i);
    }
    FindRowIs(rows, r.key, n);
    if n < |rows| {
      var last := rows[n].(status := r.status, output := r.output, error := r.error, attempt := rows[n].attempt + 1, until := r.until);
      assert Upsert(rows, r) == rows[n := last];
      OutsPrefix(rows, n);
      assert rows[n].key == r.key;
      RewriteLast(h, fid, inp, rows, last);
    } else {
      assert Upsert(rows, r) == rows + [r];
      AppendNext(h, fid, inp, rows, r);
    }
  }

  lemma AppendNext(h: Handler, fid: string, inp: Input, rows: seq<StepRow>, r: StepRow)
    requires Ordered(h, fid, inp, rows) && Done(rows) == rows
    requires h(inp, Outs(rows)).Call? && r.key == KeyAt(h, fid, inp, Outs(rows))
    ensures Ordered(h, fid, inp, rows + [r])
  {
    var u := rows + [r];
    assert Outs(u)[..|rows|] == Outs(rows);
    forall i | 0 <= i < |u|
      ensures h(inp, Outs(u)[..i]).Call? && u[i].key == KeyAt(h, fid, inp, Outs(u)[..i])
    {
      if i < |rows| {
        assert Outs(u)[..i] == Outs(rows)[..i];
      }
    }
  }

  /** Rewriting the last row without touching its key keeps the order. */
  lemma RewriteLast(h: Handler, fid: string, inp: Input, rows: seq<StepRow>, r: StepRow)
    requires Ordered(h, fid, inp, rows) && rows != [] && r.key == rows[|rows| - 1].key
    ensures Ordered(h, fid, inp, rows[|rows| - 1 := r])
  {
    var u := rows[|rows| - 1 := r];
    assert forall i :: 0 <= i < |rows| ==> Outs(u)[..i] == Outs(rows)[..i];
  }

  lemma UpsertLast(h: Handler, fid: string, inp: Input, rows: seq<StepRow>, r: StepRow)
    requires Ordered(h, fid, inp, rows) && rows != [] && r.key == rows[|rows| - 1].key
    ensures Ordered(h, fid, inp, Upsert(rows, r)) && |Upsert(rows, r)| == |rows|
    ensures Upsert(rows, r)[..|rows| - 1] == rows[..|rows| - 1]
    ensures var u := Upsert(rows, r)[|rows| - 1];
            u.key == r.key && u.status == r.status && u.output == r.output && u.until == r.until
  {
    var n := |rows| - 1;
    forall i | 0 <= i < n ensures rows[i].key != r.key {
      OrderedKeysDiffer(h, fid, inp, rows, i, n);
    }
    FindRowIs(rows, r.key, n);
    var last := rows[n].(status := r.status, output := r.output, error := r.error, attempt := rows[n].attempt + 1, until := r.until);
    RewriteLast(h, fid, inp, rows, last);
    assert Upsert(rows, r) == rows[n := last];
  }

  /** Waking touches the last row only. */
  lemma WakeLast(h: Handler, fid: string, inp: Input, d: RunDb)
    requires Ordered(h, fid, inp, d.steps)
    ensures d.steps == [] ==> d.CompleteSleeping().steps == []
    ensures d.steps != [] ==>
      var n := |d.steps| - 1;
      d.CompleteSleeping().steps == d.steps[n := WakeRow(d.steps[n])]
    ensures Ordered(h, fid, inp, d.CompleteSleeping().steps)
  {
    if d.steps != [] {
      var n := |d.steps| - 1;
      assert d.CompleteSleeping().steps == d.steps[n := WakeRow(d.steps[n])];
      RewriteLast(h, fid, inp, d.steps, WakeRow(d.steps[n]));
    } else {
      assert d.CompleteSleeping().steps == [];
    }
  }

  /** The memo of a finished row that no later row has the key of. */
  lemma {:induction false} LastOfKey(rows: seq<StepRow>, i: nat)
    requires i < |rows| && rows[i].status.StepCompleted? && forall j :: i < j < |rows| ==> rows[j].key != rows[i].key
    ensures rows[i].key in CompletedMemos(rows)
    ensures CompletedMemos(rows)[rows[i].key] == StepState(rows[i].stepId, "completed", rows[i].output)
  {
    var n := |rows| - 1;
    if i < n {
      LastOfKey(rows[..n], i);
    }
  }

  lemma MemoOf(h: Handler, fid: string, inp: Input, rows: seq<StepRow>, i: nat)
    requires Ordered(h, fid, inp, rows) && i < |Done(rows)|
    ensures rows[i].key in CompletedMemos(rows)
    ensures CompletedMemos(rows)[rows[i].key] == StepState(rows[i].stepId, "completed", rows[i].output)
  {
    forall j | i < j < |rows| ensures rows[j].key != rows[i].key {
      OrderedKeysDiffer(h, fid, inp, rows, i, j);
    }
    LastOfKey(rows, i);
  }

  lemma {:induction false} MemoHasRow(rows: seq<StepRow>, k: Hash) returns (i: nat)
    requires k in CompletedMemos(rows)
    ensures i < |rows| && rows[i].key == k && rows[i].status.StepCompleted?
  {
    var n := |rows| - 1;
    if rows[n].status.StepCompleted? && rows[n].key == k {
      i := n;
    } else {
      i := MemoHasRow(rows[..n], k);
    }
  }

  lemma MemoAnswers(h: Handler, fid: string, inp: Input, rows: seq<StepRow>, i: nat)
    requires Ordered(h, fid, inp, rows) && i < |Done(rows)|
    ensures var outs := Outs(Done(rows));
            && h(inp, outs[..i]).Call?
            && Hit(CompletedMemos(rows), KeyAt(h, fid, inp, outs[..i]))
            && CompletedMemos(rows)[KeyAt(h, fid, inp, outs[..i])].output == outs[i]
  {
    assert Outs(Done(rows))[..i] == Outs(rows)[..i];
    MemoOf(h, fid, inp, rows, i);
  }

  /** Replay from the completed memos reaches exactly the next step call: it is
      answered by the outputs of the finished rows, in order, and stops there. */
  lemma MemosStop(h: Handler, fid: string, inp: Input, rows: seq<StepRow>)
    requires Ordered(h, fid, inp, rows)
    ensures StopsAt(h, fid, inp, CompletedMemos(rows), Outs(Done(rows)))
  {
    var memos, outs := CompletedMemos(rows), Outs(Done(rows));
    forall i | 0 <= i < |outs|
      ensures h(inp, outs[..i]).Call? && Hit(memos, KeyAt(h, fid, inp, outs[..i]))
              && memos[KeyAt(h, fid, inp, outs[..i])].output == outs[i]
    {
      MemoAnswers(h, fid, inp, rows, i);
    }
    if h(inp, outs).Call? {
      var k := KeyAt(h, fid, inp, outs);
      if k in memos {
        var i := MemoHasRow(rows, k);
        NextKeyIsNew(h, fid, inp, rows, i);
      }
    }
  }

  /** An answer to those memos reports the action after the finished rows. */
  lemma AnswerReports(h: Handler, fid: string, inp: Input, rows: seq<StepRow>, op: Opcode)
    requires Ordered(h, fid, inp, rows) && Answers(h, fid, inp, CompletedMemos(rows), op)
    ensures Reports(h, fid, inp, Outs(Done(rows)), op)
  {
    var outs :| StopsAt(h, fid, inp, CompletedMemos(rows), outs) && Reports(h, fid, inp, outs, op);
    MemosStop(h, fid, inp, rows);
    StopsUnique(h, fid, inp, CompletedMemos(rows), outs, Outs(Done(rows)));
  }
}
