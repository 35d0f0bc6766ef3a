/** Memo keys, derived run ids and derived event ids: the strings the platform and
    both SDKs feed to SHA-256, and why different inputs give different strings. */
module StepKeys {

  /** SHA-256 as an injective function: a digest remembers its preimage. */
  datatype Hash = Sha256(preimage: string)

  const DIGITS := "0123456789"

  /** Decimal text of a counter (Go's `strconv.Itoa`, JavaScript's template literal). */
  function Itoa(n: nat): (s: string)
    ensures s != [] && ':' !in s
  {
    if n < 10 then [DIGITS[n]] else Itoa(n / 10) + [DIGITS[n % 10]]
  }

  lemma {:induction false} ItoaInjective(m: nat, n: nat)
    requires Itoa(m) == Itoa(n)
    ensures m == n
  {
    var s, t := Itoa(m), Itoa(n);
    assert DIGITS[m % 10] == s[|s| - 1] == t[|t| - 1] == DIGITS[n % 10];
    assert m % 10 == n % 10;
    if m < 10 || n < 10 {
      assert |s| == 1 <==> m < 10;
      assert |t| == 1 <==> n < 10;
    } else {
      assert s[..|s| - 1] == Itoa(m / 10);
      assert t[..|t| - 1] == Itoa(n / 10);
      ItoaInjective(m / 10, n / 10);
    }
  }

  /** Text that ends in a colon-free part is split in one way at its last colon. */
  lemma {:induction false} LastColonSplits(a: string, b: string, c: string, d: string)
    requires ':' !in b && ':' !in d
    requires a + ":" + b == c + ":" + d
    ensures a == c && b == d
  {
    var s, t := a + ":" + b, c + ":" + d;
    assert forall i :: |a| < i < |s| ==> s[i] == b[i - |a| - 1];
    assert forall i :: |c| < i < |t| ==> t[i] == d[i - |c| - 1];
    assert s[|a|] == ':' && t[|c|] == ':';
    assert |a| == |c|;
    assert a == s[..|a|] == t[..|c|] == c;
    assert b == s[|a| + 1..] == t[|c| + 1..] == d;
  }

  /** The memo key of the n-th occurrence (from 0) of a step id in one invocation. */
  function Key(functionId: string, stepId: string, n: nat): Hash {
    Sha256(functionId + ":" + stepId + ":" + Itoa(n))
  }

  /** Within a function a key determines the step id and its occurrence number,
      whatever characters the step id has. */
  lemma KeyInjective(functionId: string, s1: string, n1: nat, s2: string, n2: nat)
    requires Key(functionId, s1, n1) == Key(functionId, s2, n2)
    ensures s1 == s2 && n1 == n2
  {
    var a1, a2 := functionId + ":" + s1, functionId + ":" + s2;
    LastColonSplits(a1, Itoa(n1), a2, Itoa(n2));
    ItoaInjective(n1, n2);
    assert s1 == a1[|functionId| + 1..] == a2[|functionId| + 1..] == s2;
  }

  /** The run id of an event routed to a function. */
  function DerivedRunId(eventId: string, functionId: string): Hash {
    Sha256(eventId + ":" + functionId)
  }

  /** `f` ends in a colon followed by `g`. */
  predicate EndsIn(f: string, g: string) {
    |f| > |g| && f[|f| - |g|..] == g && f[|f| - |g| - 1] == ':'
  }

  predicate Apart(functionIds: set<string>) {
    forall f, g :: f in functionIds && g in functionIds ==> !EndsIn(f, g)
  }

  lemma LongerEndsIn(e1: string, f1: string, e2: string, f2: string)
    requires DerivedRunId(e1, f1) == DerivedRunId(e2, f2) && |f1| > |f2|
    ensures EndsIn(f1, f2)
  {
    var s, t := e1 + ":" + f1, e2 + ":" + f2;
    assert forall i :: 0 <= i < |f1| ==> f1[i] == s[|s| - |f1| + i];
    assert forall i :: 0 <= i < |f2| ==> f2[i] == t[|t| - |f2| + i];
    assert t[|t| - |f2| - 1] == ':';
  }

  lemma DerivedRunIdInjective(functionIds: set<string>, e1: string, f1: string, e2: string, f2: string)
    requires Apart(functionIds) && f1 in functionIds && f2 in functionIds
    requires DerivedRunId(e1, f1) == DerivedRunId(e2, f2)
    ensures e1 == e2 && f1 == f2
  {
    var s, t := e1 + ":" + f1, e2 + ":" + f2;
    if |f1| > |f2| {
      LongerEndsIn(e1, f1, e2, f2);
    } else if |f2| > |f1| {
      LongerEndsIn(e2, f2, e1, f1);
    }
    assert e1 == s[..|e1|] == t[..|e2|] == e2;
    assert f1 == s[|e1| + 1..] == t[|e2| + 1..] == f2;
  }

  /** Run ids tell the (event, function) pairs of a set of functions apart exactly if no
      function id ends in a colon and another of them. */
  lemma RunIdsApartIff(functionIds: set<string>)
    ensures Apart(functionIds) <==>
              forall e1, f1, e2, f2 :: f1 in functionIds && f2 in functionIds && DerivedRunId(e1, f1) == DerivedRunId(e2, f2)
                                       ==> e1 == e2 && f1 == f2
  {
    if Apart(functionIds) {
      forall e1, f1, e2, f2 | f1 in functionIds && f2 in functionIds && DerivedRunId(e1, f1) == DerivedRunId(e2, f2)
        ensures e1 == e2 && f1 == f2
      {
        DerivedRunIdInjective(functionIds, e1, f1, e2, f2);
      }
    } else {
      var f, g :| f in functionIds && g in functionIds && EndsIn(f, g);
      var x := f[..|f| - |g| - 1];
      assert f == x + ":" + g;
      assert "" + ":" + f == (":" + x) + ":" + g;
      assert DerivedRunId("", f) == DerivedRunId(":" + x, g);
    }
  }

  /** Function ids without colons are apart. */
  lemma ColonFreeApart(functionIds: set<string>)
    requires forall f :: f in functionIds ==> ':' !in f
    ensures Apart(functionIds)
  {
    forall f, g | f in functionIds && g in functionIds ensures !EndsIn(f, g) {
      assert |f| > |g| ==> f[|f| - |g| - 1] in f;
    }
  }

  // ---------- ids of events sent by a step ----------

  /** One character of a digest's text. */
  function Spelled(c: char): string {
    if c == ':' then "%c" else if c == '%' then "%%" else [c]
  }

  function Spell(s: string): (t: string)
    ensures ':' !in t
  {
    if s == [] then [] else Spelled(s[0]) + Spell(s[1..])
  }

  lemma {:induction false} SpellInjective(a: string, b: string)
    requires Spell(a) == Spell(b)
    ensures a == b
  {
    if a != [] && b != [] {
      var s := Spell(a);
      assert s[0] == Spelled(a[0])[0] == Spelled(b[0])[0];
      if s[0] == '%' {
        assert s[1] == Spelled(a[0])[1] == Spelled(b[0])[1];
      }
      assert a[0] == b[0];
      assert Spell(a[1..]) == s[|Spelled(a[0])|..] == Spell(b[1..]);
      SpellInjective(a[1..], b[1..]);
      assert a == [a[0]] + a[1..] && b == [b[0]] + b[1..];
    }
  }

  /** The text of a digest, in place of its hexadecimal digits: without a colon, and
      different for different digests. */
  function TextOf(h: Hash): (t: string)
    ensures ':' !in t
  {
    Spell(h.preimage)
  }

  /** The id of the i-th event a SendEvent step sends, if the event has none. */
  function DerivedEventId(runId: string, key: Hash, i: nat): string {
    "evt_" + TextOf(Sha256(runId + ":" + TextOf(key) + ":" + Itoa(i)))
  }

  /** Derived event ids tell runs, steps and positions apart. */
  lemma DerivedEventIdInjective(r1: string, k1: Hash, i1: nat, r2: string, k2: Hash, i2: nat)
    requires DerivedEventId(r1, k1, i1) == DerivedEventId(r2, k2, i2)
    ensures r1 == r2 && k1 == k2 && i1 == i2
  {
    var a1, a2 := r1 + ":" + TextOf(k1), r2 + ":" + TextOf(k2);
    var s1, s2 := DerivedEventId(r1, k1, i1), DerivedEventId(r2, k2, i2);
    assert Spell(a1 + ":" + Itoa(i1)) == s1[4..] == s2[4..] == Spell(a2 + ":" + Itoa(i2));
    SpellInjective(a1 + ":" + Itoa(i1), a2 + ":" + Itoa(i2));
    LastColonSplits(a1, Itoa(i1), a2, Itoa(i2));
    ItoaInjective(i1, i2);
    LastColonSplits(r1, TextOf(k1), r2, TextOf(k2));
    SpellInjective(k1.preimage, k2.preimage);
  }
}
