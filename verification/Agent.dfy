/** The agent loop as a client of durable steps: each model call and each tool execution
    is one step, and a resumed run rebuilds its history from their memos. */
module Agent {
  import opened StepKeys
  import opened Sdk
  import opened Wrappers
  import opened MessageShape

  datatype Usage = Usage(inputTokens: Option<nat>, outputTokens: Option<nat>)

  datatype Totals = Totals(inputTokens: nat, outputTokens: nat)

  datatype ToolCall = ToolCall(id: string, tool: string, input: Json)

  datatype LlmMemo = LlmMemo(text: string, toolCalls: seq<ToolCall>, responseMessages: seq<Message>, usage: Usage)

  datatype ToolRecord = ToolRecord(call: ToolCall, output: Json)

  datatype Result = Result(text: string, iterations: nat, usage: Totals, toolCalls: seq<ToolRecord>, output: seq<Message>)

  /** `decode` is how a memo reads as a model response (none if its structure is damaged),
      `prompt` the text an agent is run on, and `prepare` the optional history hook: it
      gets the history, the iteration and the usage of the previous model call. */
  datatype AgentOpts = AgentOpts(name: string, tools: set<string>, maxIterations: nat,
                                 prompt: Input -> string, decode: Json -> Option<LlmMemo>,
                                 prepare: Option<(seq<Message>, nat, Option<Usage>) -> seq<Message>>)

  datatype Failure = TooManyIterations | BadHistory | DamagedMemo | UnknownTool(tool: string)

  function LlmStep(name: string): string {
    "agent/" + name
  }

  function ToolStep(name: string, tool: string): string {
    "agent/" + name + "/" + tool
  }

  /** What a run has gathered so far. */
  datatype Gathered = Gathered(messages: seq<Message>, prevUsage: Option<Usage>, usage: Totals, records: seq<ToolRecord>)

  /** Where a run stands: a model call is due in iteration `i`; or the tool call
      `calls[0]`; or it is over. */
  datatype Stand =
    | LlmDue(i: nat, g: Gathered)
    | ToolDue(i: nat, calls: seq<ToolCall>, g: Gathered)
    | Finished(result: Result)
    | Failed(why: Failure)

  function OrZero(n: Option<nat>): nat {
    if n.Some? then n.value else 0
  }

  function AddUsage(t: Totals, u: Usage): Totals {
    Totals(t.inputTokens + OrZero(u.inputTokens), t.outputTokens + OrZero(u.outputTokens))
  }

  function OrNull(j: Json): Json {
    if j.Absent? then Null else j
  }

  function ToolMessage(c: ToolCall, output: Json): Message {
    Message(Tool, Parts([ToolResultPart(c.id, c.tool, OrNull(output))]))
  }

  function Start(o: AgentOpts, inp: Input): Gathered {
    Gathered([Message(User, Text(o.prompt(inp)))], None, Totals(0, 0), [])
  }

  function WithResponse(g: Gathered, m: LlmMemo): Gathered {
    Gathered(g.messages + m.responseMessages, Some(m.usage), AddUsage(g.usage, m.usage), g.records)
  }

  function WithTool(g: Gathered, c: ToolCall, output: Json): Gathered {
    g.(messages := g.messages + [ToolMessage(c, output)], records := g.records + [ToolRecord(c, output)])
  }

  /** Iteration `i` up to its model call. */
  function Iterate(o: AgentOpts, i: nat, g: Gathered): Stand {
    if i >= o.maxIterations then Failed(TooManyIterations)
    else match o.prepare
      case None => LlmDue(i, g)
      case Some(hook) =>
        var prepared := hook(g.messages, i, g.prevUsage);
        if ShapeOk(prepared) then LlmDue(i, g.(messages := prepared)) else Failed(BadHistory)
  }

  /** The tool calls that remain in iteration `i`. */
  function NextTool(o: AgentOpts, i: nat, calls: seq<ToolCall>, g: Gathered): Stand {
    if calls == [] then Iterate(o, i + 1, g)
    else if calls[0].tool !in o.tools then Failed(UnknownTool(calls[0].tool))
    else ToolDue(i, calls, g)
  }

  /** A run is given the output of the step that was due. */
  function Feed(o: AgentOpts, s: Stand, out: Json): Stand {
    match s
    case LlmDue(i, g) =>
      (match o.decode(out)
       case None => Failed(DamagedMemo)
       case Some(m) =>
         if m.toolCalls == []
         then Finished(Result(m.text, i + 1, AddUsage(g.usage, m.usage), g.records, g.messages + m.responseMessages))
         else NextTool(o, i, m.toolCalls, WithResponse(g, m)))
    case ToolDue(i, calls, g) =>
      if calls == [] then s else NextTool(o, i, calls[1..], WithTool(g, calls[0], out))
    case Finished(_) => s
    case Failed(_) => s
  }

  function FeedAll(o: AgentOpts, s: Stand, outs: seq<Json>): Stand {
    if outs == [] then s else Feed(o, FeedAll(o, s, outs[..|outs| - 1]), outs[|outs| - 1])
  }

  function Stands(o: AgentOpts, inp: Input, outs: seq<Json>): Stand {
    FeedAll(o, Iterate(o, 0, Start(o, inp)), outs)
  }

  /** An agent run by itself as a handler; `pack` encodes its result. */
  function AgentHandler(o: AgentOpts, pack: Result -> Json, msg: Failure -> string): Handler {
    (inp: Input, outs: seq<Json>) =>
      var s := Stands(o, inp, outs);
      match s
      case LlmDue(_, _) => Call(LlmStep(o.name), RunStep)
      case ToolDue(_, calls, _) => if calls == [] then Throw("") else Call(ToolStep(o.name, calls[0].tool), RunStep)
      case Finished(r) => Return(pack(r))
      case Failed(w) => Throw(msg(w))
  }

  /** The agent runs inside `h`, from where the outputs `pre` have been answered: while a step
      of it is due, that is the handler's next step. What the handler does before and after
      is left open, other agent runs included. */
  ghost predicate Embeds(o: AgentOpts, h: Handler, inp: Input, pre: seq<Json>) {
    forall outs ::
      match Stands(o, inp, outs)
      case LlmDue(_, _) => h(inp, pre + outs) == Call(LlmStep(o.name), RunStep)
      case ToolDue(_, calls, _) => calls != [] ==> h(inp, pre + outs) == Call(ToolStep(o.name, calls[0].tool), RunStep)
      case _ => true
  }

  lemma AloneEmbeds(o: AgentOpts, pack: Result -> Json, msg: Failure -> string, inp: Input)
    ensures Embeds(o, AgentHandler(o, pack, msg), inp, [])
  {
    assert forall outs: seq<Json> :: [] + outs == outs;
  }

  /** The invariant of a run on the context `ctx`: `outs` are the memos it has taken. */
  ghost predicate Tracked(h: Handler, ctx: ExecCtx, inp: Input, outs: seq<Json>)
    reads ctx
  {
    && Follows(h, ctx.functionId, inp, ctx.steps, outs)
    && (forall s :: ctx.Count(s) == Uses(h, inp, outs, s))
  }

  /** `step.run`: the memo of the next occurrence of `stepId`, if it is completed. */
  method StepRun(ctx: ExecCtx, stepId: string, ghost h: Handler, inp: Input, ghost outs: seq<Json>)
    returns (memo: Option<Json>, key: Hash)
    requires Tracked(h, ctx, inp, outs) && h(inp, outs) == Call(stepId, RunStep)
    modifies ctx
    ensures key == KeyAt(h, ctx.functionId, inp, outs)
    ensures memo.None? ==> StopsAt(h, ctx.functionId, inp, ctx.steps, outs)
    ensures memo.Some? ==> Tracked(h, ctx, inp, outs + [memo.value])
  {
    key := ctx.NextHash(stepId);
    if !Hit(ctx.steps, key) {
      return None, key;
    }
    memo := Some(ctx.steps[key].output);
    FollowsOn(h, ctx.functionId, inp, ctx.steps, outs, memo.value);
  }

  /** How a callback leaves the loop: at a step whose body is executed now, on the history
      it is given; with a result; or with an error. */
  datatype Exit = Interrupted(key: Hash, stepId: string, history: seq<Message>) | Returned(result: Result) | Thrown(why: Failure)

  ghost predicate Leaves(o: AgentOpts, h: Handler, fid: string, inp: Input, pre: seq<Json>, outs: seq<Json>, e: Exit) {
    match Stands(o, inp, outs)
    case LlmDue(_, g) =>
      h(inp, pre + outs).Call? && e == Interrupted(KeyAt(h, fid, inp, pre + outs), LlmStep(o.name), g.messages)
    case ToolDue(_, calls, g) =>
      && calls != [] && h(inp, pre + outs).Call?
      && e == Interrupted(KeyAt(h, fid, inp, pre + outs), ToolStep(o.name, calls[0].tool), g.messages)
    case Finished(r) => e == Returned(r)
    case Failed(w) => e == Thrown(w)
  }

  /** A callback has left the agent: interrupted at a step without a memo, or through the
      end of the loop, after which the handler can go on. */
  ghost predicate Departed(o: AgentOpts, h: Handler, ctx: ExecCtx, inp: Input, pre: seq<Json>, outs: seq<Json>, e: Exit)
    reads ctx
  {
    && Leaves(o, h, ctx.functionId, inp, pre, outs, e)
    && (if e.Interrupted? then StopsAt(h, ctx.functionId, inp, ctx.steps, pre + outs) else Tracked(h, ctx, inp, pre + outs))
  }

  lemma FeedNext(o: AgentOpts, inp: Input, outs: seq<Json>, out: Json)
    ensures Stands(o, inp, outs + [out]) == Feed(o, Stands(o, inp, outs), out)
  {
    assert (outs + [out])[..|outs|] == outs;
  }

  /** The history for the model call of iteration `i`, or none if the hook broke it. */
  method Prepare(o: AgentOpts, i: nat, g: Gathered) returns (messages: Option<seq<Message>>)
    requires i < o.maxIterations
    ensures Iterate(o, i, g) == if messages.Some? then LlmDue(i, g.(messages := messages.value)) else Failed(BadHistory)
  {
    if o.prepare.None? {
      return Some(g.messages);
    }
    var prepared := o.prepare.value(g.messages, i, g.prevUsage);
    var verdict := CheckShape(prepared);
    ShapeOkIff(prepared);
    messages := if verdict == Fine then Some(prepared) else None;
  }

  lemma Assoc<T>(a: seq<T>, b: seq<T>, c: seq<T>)
    ensures (a + b) + c == a + (b + c)
  {}

  lemma DropOneMore<T>(s: seq<T>, j: nat)
    requires j < |s|
    ensures s[j..] != [] && s[j..][0] == s[j] && s[j..][1..] == s[j + 1..]
  {}

  /** The j-th tool call of a response has got its output. */
  lemma ToolFed(o: AgentOpts, inp: Input, pre: seq<Json>, outs: seq<Json>, out: Json, i: nat, calls: seq<ToolCall>, j: nat, g: Gathered)
    requires j < |calls| && calls[j].tool in o.tools && Stands(o, inp, outs) == NextTool(o, i, calls[j..], g)
    ensures Stands(o, inp, outs + [out]) == NextTool(o, i, calls[j + 1..], WithTool(g, calls[j], out))
    ensures pre + (outs + [out]) == (pre + outs) + [out]
  {
    FeedNext(o, inp, outs, out);
    DropOneMore(calls, j);
    Assoc(pre, outs, [out]);
  }

  /** The tool calls of iteration `i`, in order, one durable step each. */
  method RunTools(o: AgentOpts, ctx: ExecCtx, inp: Input, i: nat, calls: seq<ToolCall>, g: Gathered,
                  ghost h: Handler, ghost pre: seq<Json>, ghost before: seq<Json>)
    returns (e: Option<Exit>, g': Gathered, ghost outs: seq<Json>)
    requires Embeds(o, h, inp, pre) && Tracked(h, ctx, inp, pre + before)
    requires Stands(o, inp, before) == NextTool(o, i, calls, g)
    modifies ctx
    ensures e.Some? ==> Departed(o, h, ctx, inp, pre, outs, e.value)
    ensures e.None? ==> Tracked(h, ctx, inp, pre + outs) && Stands(o, inp, outs) == Iterate(o, i + 1, g')
  {
    e, g', outs := None, g, before;
    var j := 0;
    while j < |calls|
      invariant j <= |calls| && Tracked(h, ctx, inp, pre + outs)
      invariant Stands(o, inp, outs) == NextTool(o, i, calls[j..], g')
    {
      var call := calls[j];
      if call.tool !in o.tools {
        return Some(Thrown(UnknownTool(call.tool))), g', outs;
      }
      var memo, key := StepRun(ctx, ToolStep(o.name, call.tool), h, inp, pre + outs);
      if memo.None? {
        return Some(Interrupted(key, ToolStep(o.name, call.tool), g'.messages)), g', outs;
      }
      ToolFed(o, inp, pre, outs, memo.value, i, calls, j, g');
      outs := outs + [memo.value];
      g' := g'.(messages := g'.messages + [ToolMessage(call, memo.value)], records := g'.records + [ToolRecord(call, memo.value)]);
      j := j + 1;
    }
  }

  /** A model response is taken into the history; without tool calls it ends the run. */
  method Receive(o: AgentOpts, i: nat, g: Gathered, out: Json) returns (e: Option<Exit>, calls: seq<ToolCall>, g': Gathered)
    ensures e.None? ==> Feed(o, LlmDue(i, g), out) == NextTool(o, i, calls, g')
    ensures e.Some? ==> match Feed(o, LlmDue(i, g), out)
                        case Finished(r) => e.value == Returned(r)
                        case Failed(w) => e.value == Thrown(w)
                        case _ => false
  {
    var response := o.decode(out);
    if response.None? {
      return Some(Thrown(DamagedMemo)), [], g;
    }
    var llm := response.value;
    var usage, messages := AddUsage(g.usage, llm.usage), g.messages + llm.responseMessages;
    if llm.toolCalls == [] {
      return Some(Returned(Result(llm.text, i + 1, usage, g.records, messages))), [], g;
    }
    return None, llm.toolCalls, Gathered(messages, Some(llm.usage), usage, g.records);
  }

  /** Iteration `i` up to and including its model call. */
  method RunModel(o: AgentOpts, ctx: ExecCtx, inp: Input, i: nat, g: Gathered,
                  ghost h: Handler, ghost pre: seq<Json>, ghost before: seq<Json>)
    returns (e: Option<Exit>, calls: seq<ToolCall>, g': Gathered, ghost outs: seq<Json>)
    requires Embeds(o, h, inp, pre) && Tracked(h, ctx, inp, pre + before)
    requires i < o.maxIterations && Stands(o, inp, before) == Iterate(o, i, g)
    modifies ctx
    ensures e.Some? ==> Departed(o, h, ctx, inp, pre, outs, e.value)
    ensures e.None? ==> Tracked(h, ctx, inp, pre + outs) && Stands(o, inp, outs) == NextTool(o, i, calls, g')
  {
    e, calls, g', outs := None, [], g, before;
    var messages := Prepare(o, i, g);
    if messages.None? {
      return Some(Thrown(BadHistory)), calls, g', outs;
    }
    var memo, key := StepRun(ctx, LlmStep(o.name), h, inp, pre + outs);
    if memo.None? {
      return Some(Interrupted(key, LlmStep(o.name), messages.value)), calls, g', outs;
    }
    FeedNext(o, inp, outs, memo.value);
    assert pre + (outs + [memo.value]) == (pre + outs) + [memo.value];
    outs := outs + [memo.value];
    e, calls, g' := Receive(o, i, g.(messages := messages.value), memo.value);
  }

  /** `agent.run` in one callback of the handler it is part of: the loop takes memos for as
      long as there are any, and leaves where the run stands after them. */
  method Run(o: AgentOpts, ctx: ExecCtx, inp: Input, ghost h: Handler, ghost pre: seq<Json>)
    returns (e: Exit, ghost outs: seq<Json>)
    requires Embeds(o, h, inp, pre) && Tracked(h, ctx, inp, pre)
    modifies ctx
    ensures Departed(o, h, ctx, inp, pre, outs, e)
  {
    var g := Start(o, inp);
    outs := [];
    assert pre + [] == pre;
    var i := 0;
    while i < o.maxIterations
      invariant i <= o.maxIterations && Tracked(h, ctx, inp, pre + outs)
      invariant Stands(o, inp, outs) == Iterate(o, i, g)
    {
      var left, calls;
      left, calls, g, outs := RunModel(o, ctx, inp, i, g, h, pre, outs);
      if left.Some? {
        return left.value, outs;
      }
      left, g, outs := RunTools(o, ctx, inp, i, calls, g, h, pre, outs);
      if left.Some? {
        return left.value, outs;
      }
      i := i + 1;
    }
    e := Thrown(TooManyIterations);
  }

  /** One step of an uninterrupted run: what it was called with, what came out. */
  datatype StepUse = StepUse(stepId: string, history: seq<Message>, output: Json)

  /** What the k-th step of a run puts out; any model, any tools, any redaction. */
  type World = (nat, string, seq<Message>) -> Json

  /** An uninterrupted run: the steps it takes one after the other, and how it ends. */
  datatype Trace = Took(use: StepUse, rest: Trace) | Ended(end: Stand)

  function Prepared(o: AgentOpts, i: nat, g: Gathered): seq<Message> {
    if o.prepare.Some? then o.prepare.value(g.messages, i, g.prevUsage) else g.messages
  }

  /** An uninterrupted execution from iteration `i` on, each step executed in place. */
  function Direct(o: AgentOpts, world: World, i: nat, g: Gathered, k: nat): Trace
    decreases o.maxIterations - i, 1, 0
  {
    var prepared := Prepared(o, i, g);
    if i >= o.maxIterations then Ended(Failed(TooManyIterations))
    else if o.prepare.Some? && !ShapeOk(prepared) then Ended(Failed(BadHistory))
    else
      var out := world(k, LlmStep(o.name), prepared);
      Took(StepUse(LlmStep(o.name), prepared, out),
           match o.decode(out)
           case None => Ended(Failed(DamagedMemo))
           case Some(m) =>
             var g' := WithResponse(g.(messages := prepared), m);
             if m.toolCalls == [] then Ended(Finished(Result(m.text, i + 1, g'.usage, g'.records, g'.messages)))
             else DirectTools(o, world, i, m.toolCalls, g', k + 1))
  }

  /** ... and from the tool calls that remain in iteration `i`. */
  function DirectTools(o: AgentOpts, world: World, i: nat, calls: seq<ToolCall>, g: Gathered, k: nat): Trace
    requires i < o.maxIterations
    decreases o.maxIterations - i, 0, |calls|
  {
    if calls == [] then Direct(o, world, i + 1, g, k)
    else if calls[0].tool !in o.tools then Ended(Failed(UnknownTool(calls[0].tool)))
    else
      var id := ToolStep(o.name, calls[0].tool);
      var out := world(k, id, g.messages);
      Took(StepUse(id, g.messages, out), DirectTools(o, world, i, calls[1..], WithTool(g, calls[0], out), k + 1))
  }

  function DirectRun(o: AgentOpts, world: World, inp: Input): Trace {
    Direct(o, world, 0, Start(o, inp), 0)
  }

  function Steps(t: Trace): nat {
    if t.Ended? then 0 else 1 + Steps(t.rest)
  }

  /** The outputs of the first `n` steps. */
  function Outputs(t: Trace, n: nat): seq<Json>
    requires n <= Steps(t)
  {
    if n == 0 then [] else [t.use.output] + Outputs(t.rest, n - 1)
  }

  /** What comes after the first `n` steps. */
  function Left(t: Trace, n: nat): Trace
    requires n <= Steps(t)
  {
    if n == 0 then t else Left(t.rest, n - 1)
  }

  /** The run stands before the step `u`, with its history. */
  predicate DueIs(o: AgentOpts, s: Stand, u: StepUse) {
    match s
    case LlmDue(_, g) => u.stepId == LlmStep(o.name) && u.history == g.messages
    case ToolDue(_, calls, g) => calls != [] && u.stepId == ToolStep(o.name, calls[0].tool) && u.history == g.messages
    case Finished(_) => false
    case Failed(_) => false
  }

  /** From `s`, fed with the outputs of the trace one by one, a run comes by each of its
      steps and ends as it does. */
  predicate Retraces(o: AgentOpts, s: Stand, t: Trace)
    decreases t
  {
    match t
    case Ended(e) => s == e && (e.Finished? || e.Failed?)
    case Took(u, rest) => DueIs(o, s, u) && Retraces(o, Feed(o, s, u.output), rest)
  }

  lemma {:induction false} DirectRetraces(o: AgentOpts, world: World, i: nat, g: Gathered, k: nat)
    ensures Retraces(o, Iterate(o, i, g), Direct(o, world, i, g, k))
    decreases o.maxIterations - i, 1, 0
  {
    var s := Iterate(o, i, g);
    if s.LlmDue? {
      var out := world(k, LlmStep(o.name), s.g.messages);
      if o.decode(out).Some? && o.decode(out).value.toolCalls != [] {
        ToolsRetrace(o, world, i, o.decode(out).value.toolCalls, WithResponse(s.g, o.decode(out).value), k + 1);
      }
    }
  }

  lemma {:induction false} ToolsRetrace(o: AgentOpts, world: World, i: nat, calls: seq<ToolCall>, g: Gathered, k: nat)
    requires i < o.maxIterations
    ensures Retraces(o, NextTool(o, i, calls, g), DirectTools(o, world, i, calls, g, k))
    decreases o.maxIterations - i, 0, |calls|
  {
    if calls == [] {
      DirectRetraces(o, world, i + 1, g, k);
    } else if calls[0].tool in o.tools {
      var out := world(k, ToolStep(o.name, calls[0].tool), g.messages);
      ToolsRetrace(o, world, i, calls[1..], WithTool(g, calls[0], out), k + 1);
    }
  }

  lemma FeedAllSnoc(o: AgentOpts, s: Stand, all: seq<Json>, outs: seq<Json>, out: Json)
    requires all == outs + [out]
    ensures FeedAll(o, s, all) == Feed(o, FeedAll(o, s, outs), out)
  {
    assert all[..|all| - 1] == outs && all[|all| - 1] == out;
  }

  lemma ConsSnoc(out: Json, outs: seq<Json>)
    requires outs != []
    ensures [out] + outs == ([out] + outs[..|outs| - 1]) + [outs[|outs| - 1]]
    ensures outs == outs[..|outs| - 1] + [outs[|outs| - 1]]
  {
  }

  lemma {:induction false} FeedAllCons(o: AgentOpts, s: Stand, out: Json, outs: seq<Json>)
    ensures FeedAll(o, s, [out] + outs) == FeedAll(o, Feed(o, s, out), outs)
  {
    if outs == [] {
      FeedAllSnoc(o, s, [out] + outs, [], out);
    } else {
      var before, last := outs[..|outs| - 1], outs[|outs| - 1];
      FeedAllCons(o, s, out, before);
      ConsSnoc(out, outs);
      FeedAllSnoc(o, s, [out] + outs, [out] + before, last);
      FeedAllSnoc(o, Feed(o, s, out), outs, before, last);
    }
  }

  lemma {:induction false} RetracesFurther(o: AgentOpts, s: Stand, t: Trace, n: nat)
    requires Retraces(o, s, t) && n <= Steps(t)
    ensures Retraces(o, FeedAll(o, s, Outputs(t, n)), Left(t, n))
    decreases n
  {
    if n > 0 {
      RetracesFurther(o, Feed(o, s, t.use.output), t.rest, n - 1);
      FeedAllCons(o, s, t.use.output, Outputs(t.rest, n - 1));
    }
  }

  /** Resuming an agent: whatever prefix of an uninterrupted run's outputs it is given, it
      stands before the first missing step, with the history that run had there; and with
      all of them it ends as that run did. */
  lemma AgentResumes(o: AgentOpts, world: World, inp: Input, n: nat)
    requires n <= Steps(DirectRun(o, world, inp))
    ensures var t := DirectRun(o, world, inp);
            var s := Stands(o, inp, Outputs(t, n));
            match Left(t, n)
            case Took(u, _) => DueIs(o, s, u)
            case Ended(e) => s == e && (e.Finished? || e.Failed?)
  {
    DirectRetraces(o, world, 0, Start(o, inp), 0);
    RetracesFurther(o, Iterate(o, 0, Start(o, inp)), DirectRun(o, world, inp), n);
  }

  /** The same from the memo table of a callback: whatever the application answers, it
      is the step the uninterrupted run took next, under the key of that step, or the
      run's own end. */
  lemma AgentAnswers(o: AgentOpts, pack: Result -> Json, msg: Failure -> string, fid: string, world: World, inp: Input,
                     memos: Memos, n: nat, op: Opcode)
    requires n <= Steps(DirectRun(o, world, inp))
    requires StopsAt(AgentHandler(o, pack, msg), fid, inp, memos, Outputs(DirectRun(o, world, inp), n))
    requires Answers(AgentHandler(o, pack, msg), fid, inp, memos, op)
    ensures var h, outs := AgentHandler(o, pack, msg), Outputs(DirectRun(o, world, inp), n);
            match Left(DirectRun(o, world, inp), n)
            case Took(u, _) =>
              && (op.StepComplete? || op.StepError?) && op.stepId == u.stepId
              && h(inp, outs).Call? && op.key == KeyAt(h, fid, inp, outs)
            case Ended(Finished(r)) => op == RunComplete(pack(r))
            case Ended(Failed(w)) => op == RunError(msg(w))
            case Ended(_) => false
  {
    var h := AgentHandler(o, pack, msg);
    AgentResumes(o, world, inp, n);
    var outs :| StopsAt(h, fid, inp, memos, outs) && Reports(h, fid, inp, outs, op);
    StopsUnique(h, fid, inp, memos, outs, Outputs(DirectRun(o, world, inp), n));
  }

  /** The model is called once per iteration, so at most `maxIterations` times. */
  lemma {:induction false} LlmStepsBounded(o: AgentOpts, pack: Result -> Json, msg: Failure -> string, inp: Input, outs: seq<Json>)
    ensures var n := Uses(AgentHandler(o, pack, msg), inp, outs, LlmStep(o.name));
            match Stands(o, inp, outs)
            case LlmDue(i, _) => n == i < o.maxIterations
            case ToolDue(i, calls, _) => n == i + 1 <= o.maxIterations && calls != []
            case Finished(r) => n == r.iterations <= o.maxIterations
            case Failed(_) => n <= o.maxIterations
  {
    if outs != [] {
      var before := outs[..|outs| - 1];
      LlmStepsBounded(o, pack, msg, inp, before);
      var s := Stands(o, inp, before);
      assert s.ToolDue? ==> |ToolStep(o.name, s.calls[0].tool)| > |LlmStep(o.name)|;
    }
  }

  // ---------- what the model is told ----------

  /** One model response and the outputs of its tool calls so far. */
  datatype Round = Round(response: LlmMemo, outputs: seq<Json>)

  /** The rounds of a run, the last one outermost. */
  datatype Rounds = Nothing | Then(before: Rounds, last: Round)

  function Count(rs: Rounds): nat {
    if rs.Nothing? then 0 else Count(rs.before) + 1
  }

  /** The round goes on with a tool call. */
  predicate Unfinished(r: Round) {
    |r.outputs| < |r.response.toolCalls|
  }

  /** One more output: of the tool call that is open, or a model response that opens a round.
      A response without tool calls is the last. */
  function Extend(o: AgentOpts, rs: Rounds, out: Json): Rounds {
    if rs.Then? && Unfinished(rs.last) then Then(rs.before, rs.last.(outputs := rs.last.outputs + [out]))
    else if (rs.Then? && rs.last.response.toolCalls == []) || o.decode(out).None? then rs
    else Then(rs, Round(o.decode(out).value, []))
  }

  /** Outputs read as rounds. */
  function RoundsOf(o: AgentOpts, outs: seq<Json>): Rounds {
    if outs == [] then Nothing else Extend(o, RoundsOf(o, outs[..|outs| - 1]), outs[|outs| - 1])
  }

  /** What the model is told of a round: its own response, and for each tool call in order
      a message with the call's id, the tool's name and what the tool returned, or null. */
  function Told(r: Round): seq<Message> {
    r.response.responseMessages + ResultsTold(r.response.toolCalls, r.outputs)
  }

  function ResultsTold(calls: seq<ToolCall>, outputs: seq<Json>): seq<Message> {
    var n := |outputs| - 1;
    if outputs == [] || n >= |calls| then [] else
      ResultsTold(calls, outputs[..n])
      + [Message(Tool, Parts([ToolResultPart(calls[n].id, calls[n].tool, if outputs[n] == Absent then Null else outputs[n])]))]
  }

  /** The history after some rounds: the prompt, then every round; before each model call
      the hook, if there is one, has replaced what there was. */
  function History(o: AgentOpts, inp: Input, rs: Rounds): seq<Message>
    decreases rs, 0
  {
    match rs
    case Nothing => [Message(User, Text(o.prompt(inp)))]
    case Then(before, r) => Asked(o, inp, before) + Told(r)
  }

  /** The history a model call gets after some rounds. */
  function Asked(o: AgentOpts, inp: Input, rs: Rounds): seq<Message>
    decreases rs, 1
  {
    if o.prepare.None? then History(o, inp, rs) else o.prepare.value(History(o, inp, rs), Count(rs), LastUsage(rs))
  }

  function LastUsage(rs: Rounds): Option<Usage> {
    if rs.Nothing? then None else Some(rs.last.response.usage)
  }

  function InputTokens(rs: Rounds): nat {
    match rs
    case Nothing => 0
    case Then(before, r) =>
      InputTokens(before) + if r.response.usage.inputTokens.Some? then r.response.usage.inputTokens.value else 0
  }

  function OutputTokens(rs: Rounds): nat {
    match rs
    case Nothing => 0
    case Then(before, r) =>
      OutputTokens(before) + if r.response.usage.outputTokens.Some? then r.response.usage.outputTokens.value else 0
  }

  /** The tool executions of some rounds, each with the call it was for. */
  function Executed(rs: Rounds): seq<ToolRecord> {
    match rs
    case Nothing => []
    case Then(before, r) => Executed(before) + Records(r.response.toolCalls, r.outputs)
  }

  function Records(calls: seq<ToolCall>, outputs: seq<Json>): seq<ToolRecord> {
    var n := |outputs| - 1;
    if outputs == [] || n >= |calls| then [] else Records(calls, outputs[..n]) + [ToolRecord(calls[n], outputs[n])]
  }

  /** The usage and the records of a run are those of its rounds. */
  predicate Counted(rs: Rounds, usage: Totals, records: seq<ToolRecord>) {
    usage.inputTokens == InputTokens(rs) && usage.outputTokens == OutputTokens(rs) && records == Executed(rs)
  }

  /** Why a run fails after some rounds: all iterations are used up, the hook has made a
      history that does not pair, or the next call is of a tool there is none of. */
  predicate FailsFor(o: AgentOpts, inp: Input, rs: Rounds, why: Failure) {
    match why
    case TooManyIterations => Count(rs) >= o.maxIterations
    case BadHistory => Count(rs) < o.maxIterations && o.prepare.Some? && !ShapeOk(Asked(o, inp, rs))
    case UnknownTool(tool) =>
      rs.Then? && tool !in o.tools && Unfinished(rs.last) && rs.last.response.toolCalls[|rs.last.outputs|].tool == tool
    case DamagedMemo => true
  }

  /** A run stands where its rounds have led it, with their history. */
  predicate Accounted(o: AgentOpts, inp: Input, rs: Rounds, s: Stand) {
    match s
    case LlmDue(i, g) =>
      && i == Count(rs) < o.maxIterations && (o.prepare.Some? ==> ShapeOk(g.messages)) && g.prevUsage == LastUsage(rs)
      && (rs.Then? ==> !Unfinished(rs.last) && rs.last.response.toolCalls != [])
      && g.messages == Asked(o, inp, rs) && Counted(rs, g.usage, g.records)
    case ToolDue(i, calls, g) =>
      && rs.Then? && i + 1 == Count(rs) && Unfinished(rs.last) && calls == rs.last.response.toolCalls[|rs.last.outputs|..]
      && calls[0].tool in o.tools && g.prevUsage == LastUsage(rs)
      && g.messages == History(o, inp, rs) && Counted(rs, g.usage, g.records)
    case Finished(r) =>
      && rs.Then? && rs.last.response.toolCalls == []
      && r.text == rs.last.response.text && r.iterations == Count(rs) && r.output == History(o, inp, rs)
      && Counted(rs, r.usage, r.toolCalls)
    case Failed(why) => FailsFor(o, inp, rs, why)
  }

  lemma ResultsNext(calls: seq<ToolCall>, outputs: seq<Json>, out: Json)
    requires |outputs| < |calls|
    ensures ResultsTold(calls, outputs + [out]) == ResultsTold(calls, outputs) + [ToolMessage(calls[|outputs|], out)]
    ensures Records(calls, outputs + [out]) == Records(calls, outputs) + [ToolRecord(calls[|outputs|], out)]
  {
    assert (outputs + [out])[..|outputs|] == outputs;
  }

  lemma ToldNext(r: Round, out: Json)
    requires Unfinished(r)
    ensures Told(r.(outputs := r.outputs + [out])) == Told(r) + [ToolMessage(r.response.toolCalls[|r.outputs|], out)]
  {
    ResultsNext(r.response.toolCalls, r.outputs, out);
    Assoc(r.response.responseMessages, ResultsTold(r.response.toolCalls, r.outputs), [ToolMessage(r.response.toolCalls[|r.outputs|], out)]);
  }

  /** Before a model call the hook replaces the history. */
  lemma IterateAccounted(o: AgentOpts, inp: Input, rs: Rounds, g: Gathered)
    requires g.messages == History(o, inp, rs) && Counted(rs, g.usage, g.records) && g.prevUsage == LastUsage(rs)
    requires rs.Then? ==> !Unfinished(rs.last) && rs.last.response.toolCalls != []
    ensures Accounted(o, inp, rs, Iterate(o, Count(rs), g))
  {}

  lemma NextToolAccounted(o: AgentOpts, inp: Input, rs: Rounds, calls: seq<ToolCall>, i: nat, g: Gathered)
    requires g.messages == History(o, inp, rs) && Counted(rs, g.usage, g.records) && g.prevUsage == LastUsage(rs)
    requires rs.Then? && rs.last.response.toolCalls != [] && |rs.last.outputs| <= |rs.last.response.toolCalls|
    requires calls == rs.last.response.toolCalls[|rs.last.outputs|..] && i + 1 == Count(rs)
    ensures Accounted(o, inp, rs, NextTool(o, i, calls, g))
  {
    if calls == [] {
      IterateAccounted(o, inp, rs, g);
    }
  }

  /** `u` is the usage `t` and that of one more response. */
  predicate Adds(t: Totals, m: LlmMemo, u: Totals) {
    u.inputTokens == t.inputTokens + OrZero(m.usage.inputTokens) && u.outputTokens == t.outputTokens + OrZero(m.usage.outputTokens)
  }

  /** A response opens a round. */
  lemma RoundOpened(o: AgentOpts, inp: Input, rs: Rounds, next: Rounds, g: Gathered, m: LlmMemo, u: Totals)
    requires g.messages == Asked(o, inp, rs) && Counted(rs, g.usage, g.records) && next == Then(rs, Round(m, []))
    requires Adds(g.usage, m, u)
    ensures g.messages + m.responseMessages == History(o, inp, next) && Counted(next, u, g.records)
  {
    NothingAdded(m.responseMessages);
    NothingAdded(Executed(rs));
  }

  lemma NothingAdded<T>(s: seq<T>)
    ensures s + [] == s
  {}

  lemma FeedLast(o: AgentOpts, i: nat, g: Gathered, out: Json, m: LlmMemo)
    requires o.decode(out) == Some(m) && m.toolCalls == []
    ensures Feed(o, LlmDue(i, g), out)
            == Finished(Result(m.text, i + 1, AddUsage(g.usage, m.usage), g.records, g.messages + m.responseMessages))
  {}

  lemma EndAccounted(o: AgentOpts, inp: Input, rs: Rounds, r: Result)
    requires rs.Then? && rs.last.response.toolCalls == [] && r.text == rs.last.response.text && r.iterations == Count(rs)
    requires r.output == History(o, inp, rs) && Counted(rs, r.usage, r.toolCalls)
    ensures Accounted(o, inp, rs, Finished(r))
  {}

  lemma LastResponse(o: AgentOpts, inp: Input, rs: Rounds, next: Rounds, i: nat, g: Gathered, m: LlmMemo, r: Result)
    requires g.messages == Asked(o, inp, rs) && Counted(rs, g.usage, g.records) && i == Count(rs) && m.toolCalls == []
    requires next == Then(rs, Round(m, [])) && r.text == m.text && r.iterations == i + 1 && Adds(g.usage, m, r.usage)
    requires r.toolCalls == g.records && r.output == g.messages + m.responseMessages
    ensures Accounted(o, inp, next, Finished(r))
  {
    RoundOpened(o, inp, rs, next, g, m, r.usage);
    EndAccounted(o, inp, next, r);
  }

  lemma NothingDropped<T>(s: seq<T>)
    ensures s == s[0..]
  {}

  lemma MoreToDo(o: AgentOpts, inp: Input, rs: Rounds, i: nat, g: Gathered, out: Json, m: LlmMemo)
    requires Accounted(o, inp, rs, LlmDue(i, g)) && o.decode(out) == Some(m) && m.toolCalls != []
    ensures Accounted(o, inp, Then(rs, Round(m, [])), Feed(o, LlmDue(i, g), out))
  {
    RoundOpened(o, inp, rs, Then(rs, Round(m, [])), g, m, AddUsage(g.usage, m.usage));
    NothingDropped(m.toolCalls);
    NextToolAccounted(o, inp, Then(rs, Round(m, [])), m.toolCalls, i, WithResponse(g, m));
    assert Feed(o, LlmDue(i, g), out) == NextTool(o, i, m.toolCalls, WithResponse(g, m));
  }

  lemma ResponseAccounted(o: AgentOpts, inp: Input, rs: Rounds, i: nat, g: Gathered, out: Json)
    requires Accounted(o, inp, rs, LlmDue(i, g)) && o.decode(out).Some?
    ensures Accounted(o, inp, Then(rs, Round(o.decode(out).value, [])), Feed(o, LlmDue(i, g), out))
  {
    var m := o.decode(out).value;
    if m.toolCalls == [] {
      FeedLast(o, i, g, out, m);
      LastResponse(o, inp, rs, Then(rs, Round(m, [])), i, g, m, Feed(o, LlmDue(i, g), out).result);
    } else {
      MoreToDo(o, inp, rs, i, g, out, m);
    }
  }

  lemma OutputAccounted(o: AgentOpts, inp: Input, rs: Rounds, i: nat, calls: seq<ToolCall>, g: Gathered, out: Json)
    requires Accounted(o, inp, rs, ToolDue(i, calls, g))
    ensures Accounted(o, inp, Extend(o, rs, out), Feed(o, ToolDue(i, calls, g), out))
  {
    var r := rs.last;
    ToldNext(r, out);
    DropOneMore(r.response.toolCalls, |r.outputs|);
    Assoc(Asked(o, inp, rs.before), Told(r), [ToolMessage(calls[0], out)]);
    ResultsNext(r.response.toolCalls, r.outputs, out);
    Assoc(Executed(rs.before), Records(r.response.toolCalls, r.outputs), [ToolRecord(calls[0], out)]);
    NextToolAccounted(o, inp, Extend(o, rs, out), calls[1..], i, WithTool(g, calls[0], out));
  }

  lemma ExtendAccounted(o: AgentOpts, inp: Input, rs: Rounds, s: Stand, out: Json)
    requires Accounted(o, inp, rs, s) && !s.Failed?
    ensures Accounted(o, inp, Extend(o, rs, out), Feed(o, s, out))
    ensures Feed(o, s, out) == Failed(DamagedMemo) ==> o.decode(out).None?
  {
    if s.LlmDue? && o.decode(out).Some? {
      ResponseAccounted(o, inp, rs, s.i, s.g, out);
    } else if s.ToolDue? {
      OutputAccounted(o, inp, rs, s.i, s.calls, s.g, out);
    }
  }

  /** What the model is told, and what a run has counted. After any outputs the history at
      the step that is due is the prompt followed by every round: the model's response and
      what each tool it called returned, in order, or what the hook made of that; the usage
      is the sum over all responses, the records are all tool executions; and a result has
      the text of the last response, which called no tool. Memo hits count like calls just
      made. A run fails when it must, and stays failed. */
  lemma {:induction false} NothingUncounted(o: AgentOpts, inp: Input, outs: seq<Json>)
    ensures outs != [] && Stands(o, inp, outs[..|outs| - 1]).Failed? ==> Stands(o, inp, outs) == Stands(o, inp, outs[..|outs| - 1])
    ensures outs == [] || !Stands(o, inp, outs[..|outs| - 1]).Failed? ==> Accounted(o, inp, RoundsOf(o, outs), Stands(o, inp, outs))
    ensures outs != [] && Stands(o, inp, outs) == Failed(DamagedMemo) && !Stands(o, inp, outs[..|outs| - 1]).Failed? ==>
              o.decode(outs[|outs| - 1]).None?
  {
    if outs == [] {
      IterateAccounted(o, inp, Nothing, Start(o, inp));
    } else {
      var before, out := outs[..|outs| - 1], outs[|outs| - 1];
      NothingUncounted(o, inp, before);
      if !Stands(o, inp, before).Failed? {
        ExtendAccounted(o, inp, RoundsOf(o, before), Stands(o, inp, before), out);
      }
    }
  }

  function AllTold(rs: Rounds): seq<Message> {
    match rs
    case Nothing => []
    case Then(before, r) => AllTold(before) + Told(r)
  }

  lemma {:induction false} PlainHistory(o: AgentOpts, inp: Input, rs: Rounds)
    requires o.prepare.None?
    ensures History(o, inp, rs) == [Message(User, Text(o.prompt(inp)))] + AllTold(rs)
  {
    if rs.Then? {
      PlainHistory(o, inp, rs.before);
      Assoc([Message(User, Text(o.prompt(inp)))], AllTold(rs.before), Told(rs.last));
    }
  }

  /** Without a hook the history at the step that is due is the prompt, and then for each
      model response its messages and what each of its tool calls returned, in order. */
  lemma ModelIsTold(o: AgentOpts, inp: Input, outs: seq<Json>)
    requires o.prepare.None?
    ensures var told := [Message(User, Text(o.prompt(inp)))] + AllTold(RoundsOf(o, outs));
            match Stands(o, inp, outs)
            case LlmDue(_, g) => g.messages == told
            case ToolDue(_, _, g) => g.messages == told
            case Finished(r) => r.output == told
            case Failed(_) => true
  {
    NothingUncounted(o, inp, outs);
    PlainHistory(o, inp, RoundsOf(o, outs));
  }

  function Ids(calls: seq<ToolCall>): set<string> {
    set c | c in calls :: c.id
  }

  predicate DistinctCalls(calls: seq<ToolCall>) {
    forall i, j :: 0 <= i < j < |calls| ==> calls[i].id != calls[j].id
  }

  /** The tool-call parts of a response are those of its `toolCalls`. */
  ghost predicate CallsMatch(m: LlmMemo) {
    var ts := Tokens(m.responseMessages);
    && RolesLegal(m.responseMessages)
    && (forall id :: Results(id) !in ts && (Calls(id) in ts <==> id in Ids(m.toolCalls)))
  }

  function ResultTokens(calls: seq<ToolCall>): (ts: seq<Token>)
    ensures |ts| == |calls|
  {
    seq(|calls|, i requires 0 <= i < |calls| => Results(calls[i].id))
  }

  function ToolMessages(calls: seq<ToolCall>, outs: seq<Json>): (ms: seq<Message>)
    requires |calls| == |outs|
    ensures |ms| == |calls|
  {
    seq(|calls|, i requires 0 <= i < |calls| => ToolMessage(calls[i], outs[i]))
  }

  lemma PendingNext(ts: seq<Token>, t: Token)
    ensures Pending(ts + [t]) == if Pending(ts).None? || (t.Results? && t.id !in Pending(ts).value) then None
                                 else Some(PendingAfter(Pending(ts).value, t))
  {
    assert (ts + [t])[..|ts|] == ts;
  }

  lemma {:induction false} CallsOpen(ts: seq<Token>, more: seq<Token>)
    requires Pending(ts).Some? && forall id :: Results(id) !in more
    ensures Pending(ts + more).Some?
    ensures forall id :: id in Pending(ts + more).value <==> id in Pending(ts).value || Calls(id) in more
  {
    if more == [] {
      assert ts + more == ts;
    } else {
      var before, t := more[..|more| - 1], more[|more| - 1];
      assert more == before + [t] && ts + more == (ts + before) + [t];
      CallsOpen(ts, before);
      PendingNext(ts + before, t);
    }
  }

  lemma DistinctSnoc(calls: seq<ToolCall>, c: ToolCall)
    ensures DistinctCalls(calls + [c]) <==> DistinctCalls(calls) && c.id !in Ids(calls)
  {
    var more := calls + [c];
    assert more[|calls|] == c && forall i :: 0 <= i < |calls| ==> more[i] == calls[i];
    assert c.id in Ids(calls) <==> exists i :: 0 <= i < |calls| && calls[i].id == c.id;
  }

  /** Results for `calls`, one after the other, close exactly those calls, provided they
      are open and no two have the same id. */
  lemma {:induction false} ResultsClose(ts: seq<Token>, calls: seq<ToolCall>)
    requires Pending(ts).Some? && Ids(calls) <= Pending(ts).value
    ensures Pending(ts + ResultTokens(calls)) ==
            if DistinctCalls(calls) then Some(Pending(ts).value - Ids(calls)) else None
  {
    if calls == [] {
      assert ts + ResultTokens(calls) == ts && Pending(ts).value - Ids(calls) == Pending(ts).value;
    } else {
      var before, c := calls[..|calls| - 1], calls[|calls| - 1];
      assert calls == before + [c];
      assert ts + ResultTokens(calls) == (ts + ResultTokens(before)) + [Results(c.id)];
      assert Ids(calls) == Ids(before) + {c.id};
      ResultsClose(ts, before);
      PendingNext(ts + ResultTokens(before), Results(c.id));
      DistinctSnoc(before, c);
      assert Pending(ts).value - Ids(calls) == Pending(ts).value - Ids(before) - {c.id};
    }
  }

  lemma {:induction false} ToolMessageTokens(calls: seq<ToolCall>, outs: seq<Json>)
    requires |calls| == |outs|
    ensures Tokens(ToolMessages(calls, outs)) == ResultTokens(calls)
  {
    if calls != [] {
      var n := |calls| - 1;
      ToolMessageTokens(calls[..n], outs[..n]);
      assert ToolMessages(calls, outs)[..n] == ToolMessages(calls[..n], outs[..n]);
      assert TokensOf(ToolMessage(calls[n], outs[n])) == [Results(calls[n].id)];
      assert ResultTokens(calls) == ResultTokens(calls[..n]) + [Results(calls[n].id)];
    }
  }

  /** After an iteration, a model response followed by the results of its tool calls, a
      well-formed history is well formed again exactly if the ids of the response's
      tool calls are distinct. */
  lemma IterationPairsIff(messages: seq<Message>, m: LlmMemo, outs: seq<Json>)
    requires ShapeOk(messages) && CallsMatch(m) && |outs| == |m.toolCalls|
    ensures ShapeOk(messages + m.responseMessages + ToolMessages(m.toolCalls, outs)) <==> DistinctCalls(m.toolCalls)
  {
    ResponseOpens(messages, m);
    RolesAppend(messages, m.responseMessages);
    ResultsDecide(messages + m.responseMessages, m.toolCalls, outs);
  }

  lemma ResultsDecide(asked: seq<Message>, calls: seq<ToolCall>, outs: seq<Json>)
    requires asked != [] && RolesLegal(asked) && |outs| == |calls| && Pending(Tokens(asked)) == Some(Ids(calls))
    ensures ShapeOk(asked + ToolMessages(calls, outs)) <==> DistinctCalls(calls)
  {
    TokensAppend(asked, ToolMessages(calls, outs));
    ToolMessageTokens(calls, outs);
    ResultsClose(Tokens(asked), calls);
    RolesAppend(asked, ToolMessages(calls, outs));
    assert Ids(calls) - Ids(calls) == {};
  }

  lemma RolesAppend(a: seq<Message>, b: seq<Message>)
    requires RolesLegal(a) && RolesLegal(b)
    ensures RolesLegal(a + b)
  {
  }

  /** A response opens its tool calls. */
  lemma ResponseOpens(messages: seq<Message>, m: LlmMemo)
    requires ShapeOk(messages) && CallsMatch(m)
    ensures Pending(Tokens(messages + m.responseMessages)) == Some(Ids(m.toolCalls))
  {
    TokensAppend(messages, m.responseMessages);
    CallsOpen(Tokens(messages), Tokens(m.responseMessages));
    assert Pending(Tokens(messages) + Tokens(m.responseMessages)).value == Ids(m.toolCalls);
  }

  ghost predicate WellFormed(m: LlmMemo) {
    CallsMatch(m) && DistinctCalls(m.toolCalls)
  }

  /** A history hook that hands back well-formed histories for well-formed ones. */
  ghost predicate KeepsShape(o: AgentOpts) {
    o.prepare.Some? ==> forall ms, i, u :: ShapeOk(ms) ==> ShapeOk(o.prepare.value(ms, i, u))
  }

  ghost predicate HistoryPairs(o: AgentOpts, s: Stand) {
    match s
    case LlmDue(_, g) => ShapeOk(g.messages)
    case ToolDue(_, calls, g) =>
      && g.messages != [] && RolesLegal(g.messages) && DistinctCalls(calls)
      && Pending(Tokens(g.messages)) == Some(Ids(calls))
    case Finished(r) => ShapeOk(r.output)
    case Failed(w) => w != BadHistory
  }

  /** If responses are well formed, so is every history a model call gets and the one a
      run returns, and only the hook can make the check fail. */
  lemma {:induction false} HistoriesPair(o: AgentOpts, inp: Input, outs: seq<Json>)
    requires KeepsShape(o) && forall out :: out in outs && o.decode(out).Some? ==> WellFormed(o.decode(out).value)
    ensures HistoryPairs(o, Stands(o, inp, outs))
  {
    if outs == [] {
      FirstHistory(o, inp);
    } else {
      var before := outs[..|outs| - 1];
      HistoriesPair(o, inp, before);
      FeedPairs(o, Stands(o, inp, before), outs[|outs| - 1]);
    }
  }

  lemma IteratePairs(o: AgentOpts, i: nat, g: Gathered)
    requires KeepsShape(o) && ShapeOk(g.messages)
    ensures HistoryPairs(o, Iterate(o, i, g))
  {
  }

  lemma FirstHistory(o: AgentOpts, inp: Input)
    requires KeepsShape(o)
    ensures HistoryPairs(o, Iterate(o, 0, Start(o, inp)))
  {
    var ms := Start(o, inp).messages;
    assert ms[..0] == [] && TokensOf(ms[0]) == [];
    assert Tokens(ms) == [];
    IteratePairs(o, 0, Start(o, inp));
  }

  lemma NextToolPairs(o: AgentOpts, i: nat, calls: seq<ToolCall>, g: Gathered)
    requires KeepsShape(o) && g.messages != [] && RolesLegal(g.messages) && DistinctCalls(calls)
    requires Pending(Tokens(g.messages)) == Some(Ids(calls))
    ensures HistoryPairs(o, NextTool(o, i, calls, g))
  {
    if calls == [] {
      assert Ids(calls) == {};
      IteratePairs(o, i + 1, g);
    }
  }

  lemma FeedPairs(o: AgentOpts, s: Stand, out: Json)
    requires KeepsShape(o) && HistoryPairs(o, s)
    requires o.decode(out).Some? ==> WellFormed(o.decode(out).value)
    ensures HistoryPairs(o, Feed(o, s, out))
  {
    if s.LlmDue? && o.decode(out).Some? {
      ResponsePairs(o, s.i, s.g, out);
    } else if s.ToolDue? && s.calls != [] {
      ResultPairs(o, s.i, s.calls, s.g, out);
    }
  }

  lemma ResponsePairs(o: AgentOpts, i: nat, g: Gathered, out: Json)
    requires KeepsShape(o) && ShapeOk(g.messages) && o.decode(out).Some? && WellFormed(o.decode(out).value)
    ensures HistoryPairs(o, Feed(o, LlmDue(i, g), out))
  {
    var m := o.decode(out).value;
    ResponseOpens(g.messages, m);
    RolesAppend(g.messages, m.responseMessages);
    if m.toolCalls == [] {
      assert Ids(m.toolCalls) == {};
    } else {
      NextToolPairs(o, i, m.toolCalls, WithResponse(g, m));
    }
  }

  lemma ResultPairs(o: AgentOpts, i: nat, calls: seq<ToolCall>, g: Gathered, out: Json)
    requires KeepsShape(o) && calls != [] && HistoryPairs(o, ToolDue(i, calls, g))
    ensures HistoryPairs(o, Feed(o, ToolDue(i, calls, g), out))
  {
    var c, rest := calls[0], calls[1..];
    TokensSnoc(g.messages, ToolMessage(c, out));
    assert TokensOf(ToolMessage(c, out)) == [Results(c.id)];
    PendingNext(Tokens(g.messages), Results(c.id));
    assert c.id in Ids(calls);
    assert Ids(calls) - {c.id} == Ids(rest) by {
      assert forall x :: x in calls <==> x == c || x in rest;
      forall x | x in rest ensures x.id != c.id {
        var j :| 0 <= j < |rest| && rest[j] == x;
        assert calls[j + 1] == x;
      }
    }
    NextToolPairs(o, i, rest, WithTool(g, c, out));
  }

  function UpToSlash(s: string): string {
    if s == [] || s[0] == '/' then [] else [s[0]] + UpToSlash(s[1..])
  }

  lemma {:induction false} UpToSlashIs(a: string, rest: string)
    requires '/' !in a && (rest == [] || rest[0] == '/')
    ensures UpToSlash(a + rest) == a
  {
    if a == [] {
      assert a + rest == rest;
    } else {
      UpToSlashIs(a[1..], rest);
      assert (a + rest)[1..] == a[1..] + rest;
    }
  }

  /** The step ids of an agent tell its name, if that contains no slash; so agents of
      different names share none. */
  lemma StepIdsTellAgent(name: string, tool: string)
    requires '/' !in name
    ensures UpToSlash(LlmStep(name)[6..]) == name && UpToSlash(ToolStep(name, tool)[6..]) == name
  {
    assert LlmStep(name)[6..] == name + [];
    assert ToolStep(name, tool)[6..] == name + ("/" + tool);
    UpToSlashIs(name, []);
    UpToSlashIs(name, "/" + tool);
  }
}
