/** The application side: a handler re-run from the top on every callback, answered
    from the memos it is given, and cut short at its first step without one. */
module Sdk {
  import opened StepKeys

  datatype Event = Event(id: string, name: string, data: string, ts: int)

  /** What a handler is called with; `events` is the whole batch of a batch run. */
  datatype Input = Input(event: Event, events: seq<Event>)

  /** JSON values, kept in decoded form. `Absent` is a missing output. */
  datatype Json = Absent | Null | Raw(text: string) | EventIds(ids: seq<string>) | Arrived(event: Event)

  datatype OutEvent = OutEvent(id: string, name: string, data: string)

  datatype Timeout = Forever | After(d: int) | Malformed

  /** The durable primitives of the step package. */
  datatype Prim =
    | RunStep
    | SleepStep
    | SendStep(events: seq<OutEvent>)
    | WaitStep(event: string, pattern: string, timeout: Timeout)

  /** What a handler does next. */
  datatype Action =
    | Call(stepId: string, prim: Prim)
    | Return(output: Json)
    | Throw(msg: string)

  /** A deterministic handler: its next action depends on the input and on the
      outputs of the steps it has completed, and on nothing else. */
  type Handler = (Input, seq<Json>) -> Action

  datatype StepState = StepState(id: string, status: string, output: Json)

  type Memos = map<Hash, StepState>

  predicate Hit(memos: Memos, key: Hash) {
    key in memos && memos[key].status == "completed"
  }

  datatype Opcode =
    | StepComplete(key: Hash, stepId: string, output: Json)
    | StepError(key: Hash, stepId: string, msg: string)
    | Sleep(key: Hash, stepId: string, until: int)
    | SendEvent(key: Hash, stepId: string, events: seq<OutEvent>)
    | WaitForEvent(key: Hash, stepId: string, event: string, pattern: string, timeout: Timeout)
    | RunComplete(output: Json)
    | RunError(msg: string)

  /** How the body of a `step.Run` ends when it is executed. */
  datatype Outcome = Ok(value: Json) | Err(msg: string)

  /** How often the steps answered by `outs` used `stepId`. */
  function Uses(h: Handler, inp: Input, outs: seq<Json>, stepId: string): nat {
    if outs == [] then 0 else
      var before := outs[..|outs| - 1];
      Uses(h, inp, before, stepId) + (if h(inp, before).Call? && h(inp, before).stepId == stepId then 1 else 0)
  }

  /** The key of the step call that follows the outputs `outs`. */
  function KeyAt(h: Handler, fid: string, inp: Input, outs: seq<Json>): Hash
    requires h(inp, outs).Call?
  {
    Key(fid, h(inp, outs).stepId, Uses(h, inp, outs, h(inp, outs).stepId))
  }

  /** `outs` answers the first |outs| step calls from the memo table. */
  ghost predicate Follows(h: Handler, fid: string, inp: Input, memos: Memos, outs: seq<Json>) {
    forall i :: 0 <= i < |outs| ==>
      && h(inp, outs[..i]).Call?
      && Hit(memos, KeyAt(h, fid, inp, outs[..i]))
      && memos[KeyAt(h, fid, inp, outs[..i])].output == outs[i]
  }

  /** ... and what comes after `outs` is not a step with a memo. */
  ghost predicate StopsAt(h: Handler, fid: string, inp: Input, memos: Memos, outs: seq<Json>) {
    && Follows(h, fid, inp, memos, outs)
    && (h(inp, outs).Call? ==> !Hit(memos, KeyAt(h, fid, inp, outs)))
  }

  /** `op` reports the action the handler takes after `outs`. */
  predicate Reports(h: Handler, fid: string, inp: Input, outs: seq<Json>, op: Opcode) {
    match h(inp, outs)
    case Return(v) => op == RunComplete(v)
    case Throw(m) => op == RunError(m)
    case Call(id, prim) =>
      var k := KeyAt(h, fid, inp, outs);
      match prim
      case RunStep => (op.StepComplete? || op.StepError?) && op.key == k && op.stepId == id
      case SleepStep => op.Sleep? && op.key == k && op.stepId == id
      case SendStep(es) => op == SendEvent(k, id, es)
      case WaitStep(e, p, t) => op == WaitForEvent(k, id, e, p, t)
  }

  /** The responses an application can give to a callback carrying `memos`. */
  ghost predicate Answers(h: Handler, fid: string, inp: Input, memos: Memos, op: Opcode) {
    exists outs :: StopsAt(h, fid, inp, memos, outs) && Reports(h, fid, inp, outs, op)
  }

  lemma {:induction false} UsesMonotone(h: Handler, inp: Input, outs: seq<Json>, i: nat, stepId: string)
    requires i <= |outs|
    ensures Uses(h, inp, outs[..i], stepId) <= Uses(h, inp, outs, stepId)
    ensures i < |outs| && h(inp, outs[..i]).Call? && h(inp, outs[..i]).stepId == stepId
            ==> Uses(h, inp, outs[..i], stepId) < Uses(h, inp, outs, stepId)
  {
    if i == |outs| {
      assert outs[..i] == outs;
    } else {
      var before := outs[..|outs| - 1];
      assert before[..i] == outs[..i];
      UsesMonotone(h, inp, before, i, stepId);
    }
  }

  /** Different step calls of one invocation have different keys. */
  lemma KeysDiffer(h: Handler, fid: string, inp: Input, outs: seq<Json>, i: nat)
    requires i < |outs| && h(inp, outs[..i]).Call? && h(inp, outs).Call?
    ensures KeyAt(h, fid, inp, outs[..i]) != KeyAt(h, fid, inp, outs)
  {
    var a, b := h(inp, outs[..i]).stepId, h(inp, outs).stepId;
    UsesMonotone(h, inp, outs, i, a);
    if KeyAt(h, fid, inp, outs[..i]) == KeyAt(h, fid, inp, outs) {
      KeyInjective(fid, a, Uses(h, inp, outs[..i], a), b, Uses(h, inp, outs, b));
    }
  }

  lemma NextAgrees(h: Handler, fid: string, inp: Input, memos: Memos, a: seq<Json>, b: seq<Json>, n: nat)
    requires Follows(h, fid, inp, memos, a) && Follows(h, fid, inp, memos, b) && n < |a| && n < |b|
    requires a[..n] == b[..n]
    ensures a[n] == b[n] && a[..n + 1] == b[..n + 1]
  {
    assert a[n] == memos[KeyAt(h, fid, inp, a[..n])].output;
    assert b[n] == memos[KeyAt(h, fid, inp, b[..n])].output;
    assert a[..n + 1] == a[..n] + [a[n]] && b[..n + 1] == b[..n] + [b[n]];
  }

  /** Any two invocations agree on every step call they both reach: the k-th call has
      the same key and gets the same memo ... */
  lemma {:induction false} CallsAgree(h: Handler, fid: string, inp: Input, memos: Memos, a: seq<Json>, b: seq<Json>, n: nat)
    requires Follows(h, fid, inp, memos, a) && Follows(h, fid, inp, memos, b) && n <= |a| && n <= |b|
    ensures a[..n] == b[..n]
  {
    if n > 0 {
      CallsAgree(h, fid, inp, memos, a, b, n - 1);
      NextAgrees(h, fid, inp, memos, a, b, n - 1);
    }
  }

  /** ... so the point where replay stops is unique. */
  lemma StopsUnique(h: Handler, fid: string, inp: Input, memos: Memos, a: seq<Json>, b: seq<Json>)
    requires StopsAt(h, fid, inp, memos, a) && StopsAt(h, fid, inp, memos, b)
    ensures a == b
  {
    var n := if |a| < |b| then |a| else |b|;
    CallsAgree(h, fid, inp, memos, a, b, n);
    assert a[..|a|] == a && b[..|b|] == b;
  }

  /** The keys of the first |outs| calls. */
  ghost function KeysUsed(h: Handler, fid: string, inp: Input, outs: seq<Json>): (s: set<Hash>)
    requires forall i :: 0 <= i < |outs| ==> h(inp, outs[..i]).Call?
  {
    if outs == [] then {} else
      var before := outs[..|outs| - 1];
      assert forall i :: 0 <= i <= |before| ==> before[..i] == outs[..i];
      KeysUsed(h, fid, inp, before) + {KeyAt(h, fid, inp, before)}
  }

  lemma {:induction false} KeysUsedAre(h: Handler, fid: string, inp: Input, outs: seq<Json>, k: Hash)
    requires forall i :: 0 <= i < |outs| ==> h(inp, outs[..i]).Call?
    ensures k in KeysUsed(h, fid, inp, outs) <==> exists i :: 0 <= i < |outs| && KeyAt(h, fid, inp, outs[..i]) == k
  {
    if outs != [] {
      var before := outs[..|outs| - 1];
      assert forall i :: 0 <= i <= |before| ==> before[..i] == outs[..i];
      KeysUsedAre(h, fid, inp, before, k);
      assert outs[..|before|] == before;
    }
  }

  /** Answered calls use up distinct memos, so an invocation cannot go on for ever. */
  lemma {:induction false} UsesUpMemos(h: Handler, fid: string, inp: Input, memos: Memos, outs: seq<Json>)
    requires Follows(h, fid, inp, memos, outs)
    ensures |outs| <= |memos|
  {
    KeysAreMany(h, fid, inp, outs);
    var used := KeysUsed(h, fid, inp, outs);
    forall k | k in used ensures k in memos {
      KeysUsedAre(h, fid, inp, outs, k);
    }
    SubsetSize(used, memos.Keys);
  }

  lemma {:induction false} KeysAreMany(h: Handler, fid: string, inp: Input, outs: seq<Json>)
    requires forall i :: 0 <= i < |outs| ==> h(inp, outs[..i]).Call?
    ensures |KeysUsed(h, fid, inp, outs)| == |outs|
  {
    if outs != [] {
      var before := outs[..|outs| - 1];
      assert forall i :: 0 <= i <= |before| ==> before[..i] == outs[..i];
      KeysAreMany(h, fid, inp, before);
      var k := KeyAt(h, fid, inp, before);
      KeysUsedAre(h, fid, inp, before, k);
      if k in KeysUsed(h, fid, inp, before) {
        var i :| 0 <= i < |before| && KeyAt(h, fid, inp, before[..i]) == k;
        KeysDiffer(h, fid, inp, before, i);
      }
    }
  }

  lemma {:induction false} SubsetSize<T>(a: set<T>, b: set<T>)
    requires a <= b
    ensures |a| <= |b|
  {
    assert b == a + (b - a);
  }

  /** One more call is answered. */
  lemma FollowsOn(h: Handler, fid: string, inp: Input, memos: Memos, outs: seq<Json>, out: Json)
    requires Follows(h, fid, inp, memos, outs) && h(inp, outs).Call?
    requires Hit(memos, KeyAt(h, fid, inp, outs)) && memos[KeyAt(h, fid, inp, outs)].output == out
    ensures Follows(h, fid, inp, memos, outs + [out])
    ensures forall s :: Uses(h, inp, outs + [out], s) == Uses(h, inp, outs, s) + (if h(inp, outs).stepId == s then 1 else 0)
  {
    var more := outs + [out];
    assert more[..|outs|] == outs;
    assert forall i :: 0 <= i <= |outs| ==> more[..i] == outs[..i];
  }

  /** The execution context of one invocation. */
  class ExecCtx {
    const functionId: string
    const steps: Memos
    var counters: map<string, nat>

    constructor (functionId: string, steps: Memos)
      ensures this.functionId == functionId && this.steps == steps && counters == map[]
    {
      this.functionId, this.steps, counters := functionId, steps, map[];
    }

    function Count(stepId: string): nat
      reads this
    {
      if stepId in counters then counters[stepId] else 0
    }

    method NextHash(stepId: string) returns (h: Hash)
      modifies this
      ensures h == Key(functionId, stepId, old(Count(stepId)))
      ensures Count(stepId) == old(Count(stepId)) + 1
      ensures forall s :: s != stepId ==> Count(s) == old(Count(s))
    {
      var n := if stepId in counters then counters[stepId] else 0;
      counters := counters[stepId := n + 1];
      h := Key(functionId, stepId, n);
    }
  }

  /** One callback: run the handler, feeding memo hits back to it, until it leaves
      through a step without a memo, a return or an error. `outcome` and `wakeAt` are
      how the one step body executed ends and the instant a sleep asks for. */
  method HandleExec(h: Handler, fid: string, inp: Input, memos: Memos, outcome: Outcome, wakeAt: int)
    returns (op: Opcode, outs: seq<Json>)
    ensures StopsAt(h, fid, inp, memos, outs)
    ensures Reports(h, fid, inp, outs, op)
    ensures op.StepComplete? ==> outcome == Ok(op.output)
    ensures op.StepError? ==> outcome == Err(op.msg)
    ensures op.Sleep? ==> op.until == wakeAt
  {
    var ctx := new ExecCtx(fid, memos);
    outs := [];
    var action := h(inp, outs);
    while action.Call?
      invariant fresh(ctx) && ctx.functionId == fid && ctx.steps == memos
      invariant action == h(inp, outs)
      invariant Follows(h, fid, inp, memos, outs)
      invariant forall s :: ctx.Count(s) == Uses(h, inp, outs, s)
      decreases |memos| - |outs|
    {
      var key := ctx.NextHash(action.stepId);
      assert key == KeyAt(h, fid, inp, outs);
      if !Hit(ctx.steps, key) {
        match action.prim {
          case RunStep =>
            if outcome.Ok? {
              op := StepComplete(key, action.stepId, outcome.value);
            } else {
              op := StepError(key, action.stepId, outcome.msg);
            }
          case SleepStep => op := Sleep(key, action.stepId, wakeAt);
          case SendStep(es) => op := SendEvent(key, action.stepId, es);
          case WaitStep(e, p, t) => op := WaitForEvent(key, action.stepId, e, p, t);
        }
        return;
      }
      FollowsOn(h, fid, inp, memos, outs, ctx.steps[key].output);
      outs := outs + [ctx.steps[key].output];
      UsesUpMemos(h, fid, inp, memos, outs);
      action := h(inp, outs);
    }
    op := if action.Return? then RunComplete(action.output) else RunError(action.msg);
  }
}
