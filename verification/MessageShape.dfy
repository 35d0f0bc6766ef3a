/** Conversation histories and the check a prepared history has to pass: roles are legal,
    and assistant tool-calls and tool-results come in pairs. */
module MessageShape {
  import opened Sdk
  import opened Wrappers

  datatype Role = User | Assistant | Tool | OtherRole

  datatype Part = PlainPart(text: string) | ToolCallPart(id: string) | ToolResultPart(id: string, tool: string, value: Json)

  /** A text content has no parts. */
  datatype Content = Text(text: string) | Parts(parts: seq<Part>)

  datatype Message = Message(role: Role, content: Content)

  datatype Verdict = Fine | Empty | BadRole | NoCall(id: string) | NoResult

  /** What the check sees of a part: a tool-call in an assistant message, a tool-result in
      a tool message, or nothing of interest. */
  datatype Token = Calls(id: string) | Results(id: string) | Neither

  function TokenOf(role: Role, p: Part): Token {
    if role.Assistant? && p.ToolCallPart? then Calls(p.id)
    else if role.Tool? && p.ToolResultPart? then Results(p.id)
    else Neither
  }

  function PartsOf(m: Message): seq<Part> {
    if m.content.Text? then [] else m.content.parts
  }

  function TokensOf(m: Message): (ts: seq<Token>)
    ensures |ts| == |PartsOf(m)|
  {
    seq(|PartsOf(m)|, i requires 0 <= i < |PartsOf(m)| => TokenOf(m.role, PartsOf(m)[i]))
  }

  function Tokens(msgs: seq<Message>): seq<Token> {
    if msgs == [] then [] else Tokens(msgs[..|msgs| - 1]) + TokensOf(msgs[|msgs| - 1])
  }

  predicate RolesLegal(msgs: seq<Message>) {
    forall i :: 0 <= i < |msgs| ==> !msgs[i].role.OtherRole?
  }

  /** The tool-call at `c` has no result among the tokens after it up to `r`. */
  predicate OpenCall(ts: seq<Token>, c: int, r: int, id: string) {
    0 <= c < r <= |ts| && ts[c] == Calls(id) && Results(id) !in ts[c + 1..r]
  }

  /** Each tool-result answers a call that is still open. */
  ghost predicate ResultsAnswer(ts: seq<Token>) {
    forall r :: 0 <= r < |ts| && ts[r].Results? ==> exists c :: OpenCall(ts, c, r, ts[r].id)
  }

  /** No call is left open. */
  ghost predicate CallsAnswered(ts: seq<Token>) {
    forall c, id :: !OpenCall(ts, c, |ts|, id)
  }

  ghost predicate Paired(ts: seq<Token>) {
    ResultsAnswer(ts) && CallsAnswered(ts)
  }

  /** `pending` holds the ids of the open calls. */
  ghost predicate PendingIs(ts: seq<Token>, pending: set<string>) {
    forall id :: id in pending <==> exists c :: OpenCall(ts, c, |ts|, id)
  }

  function PendingAfter(pending: set<string>, t: Token): set<string> {
    match t
    case Calls(id) => pending + {id}
    case Results(id) => pending - {id}
    case Neither => pending
  }

  lemma OpenSnoc(ts: seq<Token>, t: Token, c: int, r: int, id: string)
    ensures r <= |ts| ==> (OpenCall(ts + [t], c, r, id) <==> OpenCall(ts, c, r, id))
    ensures c < |ts| ==> (OpenCall(ts + [t], c, |ts| + 1, id) <==> OpenCall(ts, c, |ts|, id) && t != Results(id))
    ensures OpenCall(ts + [t], |ts|, |ts| + 1, id) <==> t == Calls(id)
  {
    if 0 <= c < r <= |ts| {
      assert (ts + [t])[c + 1..r] == ts[c + 1..r];
    }
    if 0 <= c < |ts| {
      assert (ts + [t])[c + 1..|ts| + 1] == ts[c + 1..] + [t];
    }
    assert (ts + [t])[|ts| + 1..|ts| + 1] == [];
  }

  /** One token further: the pending set follows, and the results so far still answer if
      this one finds its call. */
  lemma PendingSnoc(ts: seq<Token>, pending: set<string>, t: Token)
    requires PendingIs(ts, pending)
    ensures PendingIs(ts + [t], PendingAfter(pending, t))
    ensures ResultsAnswer(ts + [t]) <==> ResultsAnswer(ts) && (t.Results? ==> t.id in pending)
  {
    var ts' := ts + [t];
    forall id ensures id in PendingAfter(pending, t) <==> exists c :: OpenCall(ts', c, |ts'|, id) {
      OpenSnoc(ts, t, |ts|, |ts'|, id);
      if id in pending {
        var c :| OpenCall(ts, c, |ts|, id);
        OpenSnoc(ts, t, c, |ts|, id);
      }
      if c :| OpenCall(ts', c, |ts'|, id) {
        OpenSnoc(ts, t, c, |ts|, id);
      }
    }
    forall r | 0 <= r < |ts| && ts[r].Results?
      ensures (exists c :: OpenCall(ts', c, r, ts'[r].id)) <==> (exists c :: OpenCall(ts, c, r, ts[r].id))
    {
      if c :| OpenCall(ts', c, r, ts[r].id) { OpenSnoc(ts, t, c, r, ts[r].id); }
      if c :| OpenCall(ts, c, r, ts[r].id) { OpenSnoc(ts, t, c, r, ts[r].id); }
    }
    if t.Results? {
      if c :| OpenCall(ts', c, |ts|, t.id) { OpenSnoc(ts, t, c, |ts|, t.id); }
      if c :| OpenCall(ts, c, |ts|, t.id) { OpenSnoc(ts, t, c, |ts|, t.id); }
    }
    assert forall r :: 0 <= r < |ts| ==> ts'[r] == ts[r];
    if ResultsAnswer(ts') {
      assert t.Results? ==> exists c :: OpenCall(ts', c, |ts|, ts'[|ts|].id);
    }
  }

  /** A list that goes wrong stays wrong. */
  lemma {:induction false} WrongStaysWrong(ts: seq<Token>, more: seq<Token>)
    requires !ResultsAnswer(ts)
    ensures !ResultsAnswer(ts + more)
  {
    var r :| 0 <= r < |ts| && ts[r].Results? && !exists c :: OpenCall(ts, c, r, ts[r].id);
    assert (ts + more)[r] == ts[r];
    forall c ensures !OpenCall(ts + more, c, r, ts[r].id) {
      assert !OpenCall(ts, c, r, ts[r].id);
      assert 0 <= c < r ==> (ts + more)[c + 1..r] == ts[c + 1..r];
    }
  }

  /** The ids of the open calls after `ts`; none if a tool-result had no call. */
  function Pending(ts: seq<Token>): Option<set<string>> {
    if ts == [] then Some({}) else
      var last, before := ts[|ts| - 1], Pending(ts[..|ts| - 1]);
      if before.None? || (last.Results? && last.id !in before.value) then None else Some(PendingAfter(before.value, last))
  }

  lemma {:induction false} PendingExact(ts: seq<Token>)
    ensures Pending(ts).Some? <==> ResultsAnswer(ts)
    ensures Pending(ts).Some? ==> PendingIs(ts, Pending(ts).value)
  {
    if ts != [] {
      var before, last := ts[..|ts| - 1], ts[|ts| - 1];
      assert ts == before + [last];
      PendingExact(before);
      if Pending(before).Some? {
        PendingSnoc(before, Pending(before).value, last);
      } else {
        WrongStaysWrong(before, [last]);
      }
    }
  }

  lemma NoneLeft(ts: seq<Token>, pending: set<string>)
    requires PendingIs(ts, pending)
    ensures CallsAnswered(ts) <==> pending == {}
  {
    if pending != {} {
      var id :| id in pending;
      var c :| OpenCall(ts, c, |ts|, id);
    } else {
      forall c, id ensures !OpenCall(ts, c, |ts|, id) {
        assert id !in pending;
      }
    }
  }

  /** A history the check lets through, computed token by token. */
  predicate ShapeOk(msgs: seq<Message>) {
    msgs != [] && RolesLegal(msgs) && Pending(Tokens(msgs)) == Some({})
  }

  /** ... and what that means: every tool-result answers a call that is still open, and no
      call is left open. */
  lemma ShapeOkIff(msgs: seq<Message>)
    ensures ShapeOk(msgs) <==> msgs != [] && RolesLegal(msgs) && Paired(Tokens(msgs))
  {
    PendingExact(Tokens(msgs));
    if Pending(Tokens(msgs)).Some? {
      NoneLeft(Tokens(msgs), Pending(Tokens(msgs)).value);
    }
  }

  lemma TokensSnoc(a: seq<Message>, m: Message)
    ensures Tokens(a + [m]) == Tokens(a) + TokensOf(m)
  {
    assert (a + [m])[..|a|] == a;
  }

  lemma {:induction false} TokensAppend(a: seq<Message>, b: seq<Message>)
    ensures Tokens(a + b) == Tokens(a) + Tokens(b)
  {
    if b == [] {
      assert a + b == a;
    } else {
      var before, m := b[..|b| - 1], b[|b| - 1];
      assert a + b == (a + before) + [m] && b == before + [m];
      TokensSnoc(a + before, m);
      TokensSnoc(before, m);
      TokensAppend(a, before);
    }
  }

  /** The parts of one message, `before` being the tokens of the messages ahead of it. */
  method CheckParts(m: Message, open: set<string>, ghost before: seq<Token>) returns (pending: set<string>, bad: Option<string>)
    requires PendingIs(before, open) && ResultsAnswer(before)
    ensures ResultsAnswer(before + TokensOf(m)) <==> bad == None
    ensures bad == None ==> PendingIs(before + TokensOf(m), pending)
  {
    pending, bad := open, None;
    ghost var ts := TokensOf(m);
    var parts := PartsOf(m);
    assert before + ts[..0] == before;
    for j := 0 to |parts|
      invariant bad == None && PendingIs(before + ts[..j], pending) && ResultsAnswer(before + ts[..j])
    {
      PendingSnoc(before + ts[..j], pending, ts[j]);
      assert before + ts[..j + 1] == before + ts[..j] + [ts[j]];
      assert before + ts == (before + ts[..j + 1]) + ts[j + 1..];
      if m.role.Assistant? && parts[j].ToolCallPart? {
        pending := pending + {parts[j].id};
      }
      if m.role.Tool? && parts[j].ToolResultPart? {
        if parts[j].id !in pending {
          WrongStaysWrong(before + ts[..j + 1], ts[j + 1..]);
          return pending, Some(parts[j].id);
        }
        pending := pending - {parts[j].id};
      }
    }
    assert ts[..|parts|] == ts;
  }

  /** `assertPreparedMessagesShape`. It accepts exactly the non-empty lists with legal
      roles whose tool-calls and tool-results pair up. */
  method CheckShape(msgs: seq<Message>) returns (v: Verdict)
    ensures v == Fine <==> msgs != [] && RolesLegal(msgs) && Paired(Tokens(msgs))
    ensures v == Empty <==> msgs == []
    ensures v == BadRole ==> !RolesLegal(msgs)
    ensures v.NoCall? ==> !ResultsAnswer(Tokens(msgs))
    ensures v == NoResult ==> RolesLegal(msgs) && ResultsAnswer(Tokens(msgs)) && !CallsAnswered(Tokens(msgs))
  {
    if msgs == [] {
      return Empty;
    }
    var pending: set<string> := {};
    var i := 0;
    while i < |msgs|
      invariant i <= |msgs| && RolesLegal(msgs[..i])
      invariant PendingIs(Tokens(msgs[..i]), pending) && ResultsAnswer(Tokens(msgs[..i]))
    {
      if msgs[i].role.OtherRole? {
        return BadRole;
      }
      assert msgs[..i + 1] == msgs[..i] + [msgs[i]];
      TokensSnoc(msgs[..i], msgs[i]);
      var bad;
      pending, bad := CheckParts(msgs[i], pending, Tokens(msgs[..i]));
      if bad.Some? {
        assert msgs == msgs[..i + 1] + msgs[i + 1..];
        TokensAppend(msgs[..i + 1], msgs[i + 1..]);
        WrongStaysWrong(Tokens(msgs[..i + 1]), Tokens(msgs[i + 1..]));
        return NoCall(bad.value);
      }
      i := i + 1;
    }
    assert msgs[..i] == msgs;
    NoneLeft(Tokens(msgs), pending);
    v := if pending == {} then Fine else NoResult;
  }
}
