/** The four tables a run lives in. The rows of `runs`, `step_runs`, `waits` and
    `queue_items` are grouped by run; every function of `RunDb` is one store call,
    that is, one statement or one transaction. */
module RunStore {
  import opened StepKeys
  import opened Sdk
  import opened Wrappers

  type Time = int

  datatype RunStatus = Queued | Running | Completed | Failed | Cancelled {
    predicate Terminal() { Completed? || Failed? || Cancelled? }
  }

  datatype RunRow = RunRow(status: RunStatus, output: Json, error: string, attempt: nat, endedAt: Option<Time>)

  datatype StepOp = OpRun | OpSleep | OpSendEvent | OpWait

  datatype StepStatus = StepCompleted | StepFailed | StepSleeping | StepWaiting

  /** A row of `step_runs`. Rows are kept in `seq` order, so the column is the position.
      `until` is not a column: it records what a sleep asked for. */
  datatype StepRow = StepRow(key: Hash, stepId: string, op: StepOp, status: StepStatus,
                             output: Json, error: string, attempt: nat, until: Time)

  datatype WaitStatus = Waiting | Resolved | TimedOut | WaitCancelled

  /** A row of `waits`; the unique index (run_id, step_hash) is the map key. */
  datatype Wait = Wait(stepId: string, event: string, pattern: string, expires: Option<Time>, status: WaitStatus)

  datatype Item = Item(at: Time, leased: bool)

  type ItemId = nat

  type RunId = string

  function FindRow(rows: seq<StepRow>, key: Hash): (i: nat)
    ensures i <= |rows|
    ensures i < |rows| ==> rows[i].key == key
    ensures forall j :: 0 <= j < i ==> rows[j].key != key
  {
    if rows == [] then 0 else if rows[0].key == key then 0 else 1 + FindRow(rows[1..], key)
  }

  /** The upsert of `SaveStepResult`: a new row goes last and a row that is already
      there keeps its place, its step id and its op. */
  function Upsert(rows: seq<StepRow>, r: StepRow): (u: seq<StepRow>)
    ensures |rows| <= |u| <= |rows| + 1
    ensures forall i :: 0 <= i < |rows| ==> u[i].key == rows[i].key && (rows[i].key != r.key ==> u[i] == rows[i])
  {
    var i := FindRow(rows, r.key);
    if i == |rows| then rows + [r] else
      rows[i := rows[i].(status := r.status, output := r.output, error := r.error,
                         attempt := rows[i].attempt + 1, until := r.until)]
  }

  function WakeRow(r: StepRow): StepRow {
    if r.status.StepSleeping? then r.(status := StepCompleted) else r
  }

  datatype RunDb = RunDb(row: RunRow, steps: seq<StepRow>, waits: map<Hash, Wait>, items: map<ItemId, Item>) {

    predicate Live() { !row.status.Terminal() }

    function MarkRunning(): RunDb {
      if Live() then this.(row := row.(status := Running)) else this
    }

    function Complete(output: Json, now: Time): RunDb {
      if Live() then this.(row := row.(status := Completed, output := output, endedAt := Some(now))) else this
    }

    function Fail(msg: string, now: Time): RunDb {
      if Live() then this.(row := row.(status := Failed, error := msg, endedAt := Some(now))) else this
    }

    function WithoutPending(): RunDb {
      this.(items := map i | i in items && items[i].leased :: items[i])
    }

    /** `CancelRun`: the run ends and its pending queue items go in the same transaction. */
    function Cancel(now: Time): RunDb {
      if Live() then this.(row := row.(status := Cancelled, endedAt := Some(now))).WithoutPending() else this
    }

    /** `TimeoutRun`: as `CancelRun`, with status Failed. */
    function TimeOut(msg: string, now: Time): RunDb {
      if Live() then Fail(msg, now).WithoutPending() else this
    }

    function IncrementAttempt(): RunDb {
      this.(row := row.(attempt := row.attempt + 1))
    }

    function SaveStep(r: StepRow): RunDb {
      this.(steps := Upsert(steps, r))
    }

    function CompleteSleeping(): RunDb {
      this.(steps := seq(|steps|, i requires 0 <= i < |steps| => WakeRow(steps[i])))
    }

    function CreateWait(key: Hash, w: Wait): RunDb {
      if key in waits then this else this.(waits := waits[key := w])
    }

    function SetWait(key: Hash, status: WaitStatus): RunDb {
      if key in waits then this.(waits := waits[key := waits[key].(status := status)]) else this
    }

    function CancelWaits(): RunDb {
      this.(waits := map k | k in waits ::
        if waits[k].status == Waiting then waits[k].(status := WaitCancelled) else waits[k])
    }

    function Enqueue(id: ItemId, at: Time): RunDb {
      this.(items := items[id := Item(at, false)])
    }

    function Lease(id: ItemId): RunDb {
      if id in items then this.(items := items[id := items[id].(leased := true)]) else this
    }

    function Release(id: ItemId, retryAt: Time): RunDb {
      if id in items then this.(items := items[id := Item(retryAt, false)]) else this
    }

    function Remove(id: ItemId): RunDb {
      this.(items := items - {id})
    }
  }

  /** What `StepResults` and the request builder hand to the application: the
      completed memos by key. */
  function CompletedMemos(rows: seq<StepRow>): Memos {
    if rows == [] then map[] else
      var r := rows[|rows| - 1];
      var before := CompletedMemos(rows[..|rows| - 1]);
      if r.status.StepCompleted? then before[r.key := StepState(r.stepId, "completed", r.output)] else before
  }

  /** A run is over exactly when it has an end time. */
  predicate EndedIffTerminal(d: RunDb) {
    d.row.endedAt.Some? <==> d.row.status.Terminal()
  }

  // ---------- what the calls do to the columns ----------

  /** The run has ended: its row says how and when, and its steps are as they were. */
  predicate EndedAs(d: RunDb, u: RunDb, status: RunStatus, output: Json, error: string, now: Time) {
    && u.row.status == status && u.row.output == output && u.row.error == error && u.row.endedAt == Some(now)
    && u.row.attempt == d.row.attempt && u.steps == d.steps
  }

  /** The leased items stay as they are and the others are gone. */
  ghost predicate KeepsLeased(d: RunDb, u: RunDb) {
    && (forall i :: i in u.items <==> i in d.items && d.items[i].leased)
    && (forall i :: i in u.items ==> u.items[i] == d.items[i])
  }

  /** The waiting waits are cancelled and the others stay as they are. */
  predicate WaitsCancelled(d: RunDb, u: RunDb) {
    u.waits.Keys == d.waits.Keys
    && forall k :: k in d.waits ==> u.waits[k] == if d.waits[k].status.Waiting? then d.waits[k].(status := WaitCancelled) else d.waits[k]
  }

  /** `u` has `r` as the content of its row with that key, at its old place or else at the
      end; every other row is as it was. An old row keeps its step id and its op. */
  predicate RowSaved(rows: seq<StepRow>, u: seq<StepRow>, r: StepRow, i: nat) {
    && i <= |rows| && |u| == (if i < |rows| then |rows| else |rows| + 1)
    && (forall j :: 0 <= j < |rows| && j != i ==> u[j] == rows[j])
    && (forall j :: 0 <= j < i ==> rows[j].key != r.key)
    && (i < |rows| ==> rows[i].key == r.key && u[i].stepId == rows[i].stepId && u[i].op == rows[i].op && u[i].attempt == rows[i].attempt + 1)
    && (i == |rows| ==> u[i].stepId == r.stepId && u[i].op == r.op && u[i].attempt == r.attempt)
    && u[i].key == r.key && u[i].status == r.status && u[i].output == r.output && u[i].error == r.error && u[i].until == r.until
  }

  /** That is what writing a step result does. */
  lemma UpsertSaves(rows: seq<StepRow>, r: StepRow)
    ensures RowSaved(rows, Upsert(rows, r), r, FindRow(rows, r.key))
  {}

  /** The store. Its methods are the calls the platform's actors make. */
  class Store {
    var db: map<RunId, RunDb>

    constructor ()
      ensures db == map[]
    {
      db := map[];
    }

    method CreateRun(run: RunId) returns (created: bool)
      modifies this
      ensures created <==> run !in old(db)
      ensures db == if created then old(db)[run := NewRun()] else old(db)
    {
      created := run !in db;
      if created {
        db := db[run := NewRun()];
      }
    }

    method MarkRunRunning(run: RunId) returns (running: bool)
      requires run in db
      modifies this
      ensures running <==> old(db)[run].Live()
      ensures db == old(db)[run := old(db)[run].MarkRunning()]
      ensures db[run] == if running then old(db)[run].(row := old(db)[run].row.(status := Running)) else old(db)[run]
    {
      var d := db[run];
      running := d.row.status != Completed && d.row.status != Failed && d.row.status != Cancelled;
      if running {
        db := db[run := d.(row := d.row.(status := Running))];
      }
    }

    method CompleteRun(run: RunId, output: Json, now: Time)
      requires run in db
      modifies this
      ensures db == old(db)[run := old(db)[run].Complete(output, now)]
      ensures var d, u := old(db)[run], db[run];
              if d.row.status.Queued? || d.row.status.Running?
              then EndedAs(d, u, Completed, output, d.row.error, now) && u.waits == d.waits && u.items == d.items else u == d
    {
      var d := db[run];
      if d.row.status == Queued || d.row.status == Running {
        db := db[run := d.(row := d.row.(status := Completed, output := output, endedAt := Some(now)))];
      }
    }

    method FailRun(run: RunId, msg: string, now: Time)
      requires run in db
      modifies this
      ensures db == old(db)[run := old(db)[run].Fail(msg, now)]
      ensures var d, u := old(db)[run], db[run];
              if d.row.status.Queued? || d.row.status.Running?
              then EndedAs(d, u, Failed, d.row.output, msg, now) && u.waits == d.waits && u.items == d.items else u == d
    {
      var d := db[run];
      if d.row.status == Queued || d.row.status == Running {
        db := db[run := d.(row := d.row.(status := Failed, error := msg, endedAt := Some(now)))];
      }
    }

    method CancelRun(run: RunId, now: Time) returns (transitioned: bool)
      requires run in db
      modifies this
      ensures transitioned <==> old(db)[run].Live()
      ensures db == old(db)[run := old(db)[run].Cancel(now)]
      ensures var d, u := old(db)[run], db[run];
              if d.row.status.Queued? || d.row.status.Running?
              then EndedAs(d, u, Cancelled, d.row.output, d.row.error, now) && u.waits == d.waits && KeepsLeased(d, u) else u == d
    {
      var d := db[run];
      transitioned := d.row.status == Queued || d.row.status == Running;
      if transitioned {
        d := d.(row := d.row.(status := Cancelled, endedAt := Some(now)));
        db := db[run := d.(items := map i | i in d.items && d.items[i].leased :: d.items[i])];
      }
    }

    method TimeoutRun(run: RunId, msg: string, now: Time) returns (transitioned: bool)
      requires run in db
      modifies this
      ensures transitioned <==> old(db)[run].Live()
      ensures db == old(db)[run := old(db)[run].TimeOut(msg, now)]
      ensures var d, u := old(db)[run], db[run];
              if d.row.status.Queued? || d.row.status.Running?
              then EndedAs(d, u, Failed, d.row.output, msg, now) && u.waits == d.waits && KeepsLeased(d, u) else u == d
    {
      var d := db[run];
      transitioned := d.row.status == Queued || d.row.status == Running;
      if transitioned {
        d := d.(row := d.row.(status := Failed, error := msg, endedAt := Some(now)));
        db := db[run := d.(items := map i | i in d.items && d.items[i].leased :: d.items[i])];
      }
    }

    method IncrementRunAttempt(run: RunId) returns (attempt: nat)
      requires run in db
      modifies this
      ensures attempt == old(db)[run].row.attempt + 1
      ensures db == old(db)[run := old(db)[run].IncrementAttempt()]
      ensures db[run] == old(db)[run].(row := old(db)[run].row.(attempt := attempt))
    {
      var d := db[run];
      attempt := d.row.attempt + 1;
      db := db[run := d.(row := d.row.(attempt := attempt))];
    }

    method SaveStepResult(run: RunId, r: StepRow)
      requires run in db
      modifies this
      ensures db == old(db)[run := old(db)[run].SaveStep(r)]
    {
      var d := db[run];
      var i := 0;
      while i < |d.steps| && d.steps[i].key != r.key
        invariant i <= FindRow(d.steps, r.key)
      {
        i := i + 1;
      }
      if i < |d.steps| {
        d := d.(steps := d.steps[i := d.steps[i].(status := r.status, output := r.output, error := r.error,
                                                  attempt := d.steps[i].attempt + 1, until := r.until)]);
      } else {
        d := d.(steps := d.steps + [r]);
      }
      db := db[run := d];
    }

    method CompleteSleepingSteps(run: RunId)
      requires run in db
      modifies this
      ensures db == old(db)[run := old(db)[run].CompleteSleeping()]
      ensures var d, u := old(db)[run], db[run];
              && u == d.(steps := u.steps) && |u.steps| == |d.steps|
              && forall i :: 0 <= i < |d.steps| ==>
                   u.steps[i] == if d.steps[i].status.StepSleeping? then d.steps[i].(status := StepCompleted) else d.steps[i]
    {
      var d := db[run];
      var rows := d.steps;
      var i := 0;
      while i < |rows|
        invariant i <= |rows| == |d.steps|
        invariant forall j :: 0 <= j < i ==> rows[j] == WakeRow(d.steps[j])
        invariant forall j :: i <= j < |rows| ==> rows[j] == d.steps[j]
      {
        if rows[i].status == StepSleeping {
          rows := rows[i := rows[i].(status := StepCompleted)];
        }
        i := i + 1;
      }
      assert rows == d.CompleteSleeping().steps;
      db := db[run := d.(steps := rows)];
    }

    /** The completed memos of a run, as the request builder selects them. */
    method StepResults(run: RunId) returns (memos: Memos)
      requires run in db
      ensures memos == CompletedMemos(db[run].steps)
    {
      var rows := db[run].steps;
      memos := map[];
      var i := 0;
      while i < |rows|
        invariant i <= |rows| && memos == CompletedMemos(rows[..i])
      {
        assert rows[..i + 1][..i] == rows[..i];
        if rows[i].status == StepCompleted {
          memos := memos[rows[i].key := StepState(rows[i].stepId, "completed", rows[i].output)];
        }
        i := i + 1;
      }
      assert rows[..i] == rows;
    }

    method CreateWait(run: RunId, key: Hash, w: Wait)
      requires run in db
      modifies this
      ensures db == old(db)[run := old(db)[run].CreateWait(key, w)]
      ensures var d, u := old(db)[run], db[run];
              u == d.(waits := u.waits) && u.waits == if key in d.waits then d.waits else d.waits[key := w]
    {
      var d := db[run];
      if key !in d.waits {
        db := db[run := d.(waits := d.waits[key := w])];
      }
    }

    method SetWaitStatus(run: RunId, key: Hash, status: WaitStatus)
      requires run in db
      modifies this
      ensures db == old(db)[run := old(db)[run].SetWait(key, status)]
      ensures var d, u := old(db)[run], db[run];
              && u == d.(waits := u.waits) && u.waits.Keys == d.waits.Keys
              && forall k :: k in d.waits ==> u.waits[k] == if k == key then d.waits[k].(status := status) else d.waits[k]
    {
      var d := db[run];
      if key in d.waits {
        db := db[run := d.(waits := d.waits[key := d.waits[key].(status := status)])];
      }
    }

    method CancelWaitsForRun(run: RunId)
      requires run in db
      modifies this
      ensures db == old(db)[run := old(db)[run].CancelWaits()]
      ensures var d, u := old(db)[run], db[run]; u == d.(waits := u.waits) && WaitsCancelled(d, u)
    {
      var d := db[run];
      db := db[run := d.(waits := map k | k in d.waits ::
        if d.waits[k].status == Waiting then d.waits[k].(status := WaitCancelled) else d.waits[k])];
    }

    method Enqueue(run: RunId, id: ItemId, at: Time)
      requires run in db
      modifies this
      ensures db == old(db)[run := old(db)[run].Enqueue(id, at)]
      ensures db[run] == old(db)[run].(items := old(db)[run].items[id := Item(at, false)])
    {
      var d := db[run];
      db := db[run := d.(items := d.items[id := Item(at, false)])];
    }

    method ReleaseLease(run: RunId, id: ItemId, retryAt: Time)
      requires run in db
      modifies this
      ensures db == old(db)[run := old(db)[run].Release(id, retryAt)]
      ensures var d := old(db)[run]; db[run] == if id in d.items then d.(items := d.items[id := Item(retryAt, false)]) else d
    {
      var d := db[run];
      if id in d.items {
        db := db[run := d.(items := d.items[id := Item(retryAt, false)])];
      }
    }

    method CompleteQueueItem(run: RunId, id: ItemId)
      requires run in db
      modifies this
      ensures db == old(db)[run := old(db)[run].Remove(id)]
      ensures db[run] == old(db)[run].(items := old(db)[run].items - {id})
    {
      var d := db[run];
      db := db[run := d.(items := d.items - {id})];
    }
  }

  function NewRun(): RunDb {
    RunDb(RunRow(Queued, Absent, "", 0, None), [], map[], map[])
  }
}
