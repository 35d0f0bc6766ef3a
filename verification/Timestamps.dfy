/** Timestamps as text: the fixed-width form the tables keep, the variable-width form of
    JSON, and the run cursor made of one. */
module Timestamps {
  import opened StepKeys
  import opened Wrappers

  /** An instant in UTC. */
  datatype Civil = Civil(year: nat, month: nat, day: nat, hour: nat, minute: nat, second: nat, nano: nat)

  predicate Leap(y: nat) {
    y % 4 == 0 && (y % 100 != 0 || y % 400 == 0)
  }

  function DaysIn(y: nat, m: nat): nat {
    if m == 2 then (if Leap(y) then 29 else 28) else if m in {4, 6, 9, 11} then 30 else 31
  }

  predicate Real(c: Civil) {
    && c.year <= 9999 && 1 <= c.month <= 12 && 1 <= c.day <= DaysIn(c.year, c.month)
    && c.hour < 24 && c.minute < 60 && c.second < 60 && c.nano < 1_000_000_000
  }

  predicate TimeLess(a: Civil, b: Civil) {
    if a.year != b.year then a.year < b.year
    else if a.month != b.month then a.month < b.month
    else if a.day != b.day then a.day < b.day
    else if a.hour != b.hour then a.hour < b.hour
    else if a.minute != b.minute then a.minute < b.minute
    else if a.second != b.second then a.second < b.second
    else a.nano < b.nano
  }

  /** Text order, byte by byte. */
  predicate TextLess(a: string, b: string)
    decreases |a|
  {
    b != [] && (a == [] || a[0] < b[0] || (a[0] == b[0] && TextLess(a[1..], b[1..])))
  }

  function Pow10(n: nat): (p: nat)
    ensures p > 0
  {
    if n == 0 then 1 else 10 * Pow10(n - 1)
  }

  /** `n` in exactly `w` digits. */
  function Pad(n: nat, w: nat): (s: string)
    ensures |s| == w
  {
    if w == 0 then "" else Pad(n / 10, w - 1) + [DIGITS[n % 10]]
  }

  function IsDigit(c: char): bool {
    '0' <= c <= '9'
  }

  predicate Digits(s: string) {
    forall i :: 0 <= i < |s| ==> IsDigit(s[i])
  }

  function Number(s: string): nat
    requires Digits(s)
  {
    if s == [] then 0 else 10 * Number(s[..|s| - 1]) + (s[|s| - 1] as int - '0' as int)
  }

  lemma DigitIs(d: nat)
    requires d < 10
    ensures DIGITS[d] as int == '0' as int + d
  {
    assert DIGITS == ['0', '1', '2', '3', '4', '5', '6', '7', '8', '9'];
  }

  lemma {:induction false} PadReads(n: nat, w: nat)
    requires n < Pow10(w)
    ensures Digits(Pad(n, w)) && Number(Pad(n, w)) == n
  {
    if w > 0 {
      PadReads(n / 10, w - 1);
      DigitIs(n % 10);
      var s := Pad(n, w);
      assert s[..w - 1] == Pad(n / 10, w - 1);
    }
  }

  lemma {:induction false} TextLessIrreflexive(a: string)
    ensures !TextLess(a, a)
    decreases |a|
  {
    if a != [] { TextLessIrreflexive(a[1..]); }
  }

  lemma {:induction false} TextLessTransitive(a: string, b: string, c: string)
    requires TextLess(a, b) && TextLess(b, c)
    ensures TextLess(a, c)
    decreases |a|
  {
    if a != [] && a[0] == b[0] && b[0] == c[0] { TextLessTransitive(a[1..], b[1..], c[1..]); }
  }

  lemma {:induction false} TextLessTotal(a: string, b: string)
    ensures TextLess(a, b) || TextLess(b, a) || a == b
    decreases |a|
  {
    if a != [] && b != [] && a[0] == b[0] {
      TextLessTotal(a[1..], b[1..]);
      assert a == [a[0]] + a[1..] && b == [b[0]] + b[1..];
    }
  }

  /** Pieces of equal length are compared piece by piece. */
  lemma {:induction false} TextLessPieces(a: string, x: string, b: string, y: string)
    requires |a| == |b|
    ensures TextLess(a + x, b + y) <==> TextLess(a, b) || (a == b && TextLess(x, y))
    decreases |a|
  {
    if a == [] {
      assert a + x == x && b + y == y;
    } else {
      TextLessPieces(a[1..], x, b[1..], y);
      assert (a + x)[1..] == a[1..] + x && (b + y)[1..] == b[1..] + y;
      assert a == [a[0]] + a[1..] && b == [b[0]] + b[1..];
    }
  }

  lemma {:induction false} PadOrder(m: nat, n: nat, w: nat)
    requires m < Pow10(w) && n < Pow10(w)
    ensures TextLess(Pad(m, w), Pad(n, w)) <==> m < n
    ensures Pad(m, w) == Pad(n, w) <==> m == n
  {
    PadReads(m, w);
    PadReads(n, w);
    if w > 0 {
      PadOrder(m / 10, n / 10, w - 1);
      DigitIs(m % 10);
      DigitIs(n % 10);
      TextLessPieces(Pad(m / 10, w - 1), [DIGITS[m % 10]], Pad(n / 10, w - 1), [DIGITS[n % 10]]);
    }
  }

  /** A field of a timestamp: its value, its width, and the character after it. */
  datatype Field = Field(value: nat, width: nat, sep: char)

  function Render(fs: seq<Field>): string {
    if fs == [] then "" else Pad(fs[0].value, fs[0].width) + ([fs[0].sep] + Render(fs[1..]))
  }

  function Fields(c: Civil): seq<Field> {
    [Field(c.year, 4, '-'), Field(c.month, 2, '-'), Field(c.day, 2, 'T'), Field(c.hour, 2, ':'),
     Field(c.minute, 2, ':'), Field(c.second, 2, '.'), Field(c.nano, 9, 'Z')]
  }

  /** `fmtTime`: fixed width, nine digits of nanoseconds. */
  function FmtTime(c: Civil): string {
    Render(Fields(c))
  }

  predicate Fits(fs: seq<Field>) {
    forall i :: 0 <= i < |fs| ==> fs[i].value < Pow10(fs[i].width)
  }

  predicate SameShape(fs: seq<Field>, gs: seq<Field>) {
    |fs| == |gs| && forall i :: 0 <= i < |fs| ==> fs[i].width == gs[i].width && fs[i].sep == gs[i].sep
  }

  predicate ValuesLess(fs: seq<Field>, gs: seq<Field>)
    requires |fs| == |gs|
  {
    fs != [] && (fs[0].value < gs[0].value || (fs[0].value == gs[0].value && ValuesLess(fs[1..], gs[1..])))
  }

  lemma {:induction false} RenderOrder(fs: seq<Field>, gs: seq<Field>)
    requires SameShape(fs, gs) && Fits(fs) && Fits(gs)
    ensures TextLess(Render(fs), Render(gs)) <==> ValuesLess(fs, gs)
  {
    if fs != [] {
      RenderOrder(fs[1..], gs[1..]);
      PadOrder(fs[0].value, gs[0].value, fs[0].width);
      TextLessPieces(Pad(fs[0].value, fs[0].width), [fs[0].sep] + Render(fs[1..]),
                     Pad(gs[0].value, gs[0].width), [gs[0].sep] + Render(gs[1..]));
      TextLessPieces([fs[0].sep], Render(fs[1..]), [gs[0].sep], Render(gs[1..]));
    }
  }

  lemma Powers()
    ensures Pow10(2) == 100 && Pow10(4) == 10_000 && Pow10(9) == 1_000_000_000
  {
    assert Pow10(5) == 100_000;
    assert Pow10(7) == 10_000_000;
  }

  lemma FieldsFit(c: Civil)
    requires Real(c)
    ensures Fits(Fields(c))
  {
    Powers();
  }

  /** The text order of stored timestamps is their time order. */
  lemma TextOrderIsTimeOrder(a: Civil, b: Civil)
    requires Real(a) && Real(b)
    ensures TextLess(FmtTime(a), FmtTime(b)) <==> TimeLess(a, b)
  {
    FieldsFit(a);
    FieldsFit(b);
    RenderOrder(Fields(a), Fields(b));
    ValuesLessIs(a, b);
  }

  lemma ValuesLessIs(a: Civil, b: Civil)
    ensures ValuesLess(Fields(a), Fields(b)) <==> TimeLess(a, b)
  {
    var f, g := Fields(a), Fields(b);
    Peel(f, g, 6);
    Peel(f, g, 5);
    Peel(f, g, 4);
    Peel(f, g, 3);
    Peel(f, g, 2);
    Peel(f, g, 1);
    Peel(f, g, 0);
    assert f[0..] == f && g[0..] == g;
  }

  lemma Peel(f: seq<Field>, g: seq<Field>, i: nat)
    requires |f| == |g| && i < |f|
    ensures ValuesLess(f[i..], g[i..]) <==> f[i].value < g[i].value || (f[i].value == g[i].value && ValuesLess(f[i + 1..], g[i + 1..]))
  {
    assert f[i..][1..] == f[i + 1..] && g[i..][1..] == g[i + 1..];
  }

  /** A timestamp up to its seconds, 19 characters, with `tail` after it. */
  function Stamp(c: Civil, tail: string): (s: string)
    ensures |s| == 19 + |tail|
  {
    Pad(c.year, 4) + ("-" + (Pad(c.month, 2) + ("-" + (Pad(c.day, 2) + ("T" +
      (Pad(c.hour, 2) + (":" + (Pad(c.minute, 2) + (":" + (Pad(c.second, 2) + tail))))))))))
  }

  function Trim(s: string): string {
    if s != [] && s[|s| - 1] == '0' then Trim(s[..|s| - 1]) else s
  }

  /** The text of a time in JSON: trailing zeros of the fraction are left out, and the dot
      with them if there is none left. */
  function NanoText(c: Civil): string {
    Stamp(c, if c.nano == 0 then "Z" else "." + (Trim(Pad(c.nano, 9)) + "Z"))
  }

  /** The digits `s` as the leading ones of `w`. */
  function Scaled(s: string, w: nat): nat
    requires Digits(s) && |s| <= w
  {
    Number(s) * Pow10(w - |s|)
  }

  /** What follows the seconds: a fraction of any length, cut at nine digits, or none. */
  function Fraction(s: string): Option<nat> {
    if s == "Z" then Some(0)
    else if |s| < 3 || s[0] != '.' || s[|s| - 1] != 'Z' || !Digits(s[1..|s| - 1]) then None
    else
      var all := s[1..|s| - 1];
      var d := if |all| > 9 then all[..9] else all;
      Some(Scaled(d, 9))
  }

  /** `parseTime`, for times in UTC. */
  function ParseTime(s: string): (r: Option<Civil>)
    ensures r.Some? ==> Real(r.value)
  {
    if |s| < 20 || s[4] != '-' || s[7] != '-' || s[10] != 'T' || s[13] != ':' || s[16] != ':' then None
    else if !Digits(s[..4]) || !Digits(s[5..7]) || !Digits(s[8..10]) then None
    else if !Digits(s[11..13]) || !Digits(s[14..16]) || !Digits(s[17..19]) then None
    else
      match Fraction(s[19..])
      case None => None
      case Some(nano) =>
        var c := Civil(Number(s[..4]), Number(s[5..7]), Number(s[8..10]), Number(s[11..13]), Number(s[14..16]), Number(s[17..19]), nano);
        if Real(c) then Some(c) else None
  }

  lemma StampSeparators(c: Civil, tail: string)
    ensures var s := Stamp(c, tail);
            s[4] == '-' && s[7] == '-' && s[10] == 'T' && s[13] == ':' && s[16] == ':' && s[19..] == tail
  {
  }

  lemma StampDate(c: Civil, tail: string)
    requires Real(c)
    ensures var s := Stamp(c, tail);
            && Digits(s[..4]) && Number(s[..4]) == c.year && Digits(s[5..7]) && Number(s[5..7]) == c.month
            && Digits(s[8..10]) && Number(s[8..10]) == c.day
  {
    var s := Stamp(c, tail);
    assert s[..4] == Pad(c.year, 4) && s[5..7] == Pad(c.month, 2) && s[8..10] == Pad(c.day, 2);
    Powers();
    PadReads(c.year, 4);
    PadReads(c.month, 2);
    PadReads(c.day, 2);
  }

  lemma StampClock(c: Civil, tail: string)
    requires Real(c)
    ensures var s := Stamp(c, tail);
            && Digits(s[11..13]) && Number(s[11..13]) == c.hour && Digits(s[14..16]) && Number(s[14..16]) == c.minute
            && Digits(s[17..19]) && Number(s[17..19]) == c.second
  {
    var s := Stamp(c, tail);
    assert s[11..13] == Pad(c.hour, 2) && s[14..16] == Pad(c.minute, 2) && s[17..19] == Pad(c.second, 2);
    Powers();
    PadReads(c.hour, 2);
    PadReads(c.minute, 2);
    PadReads(c.second, 2);
  }

  lemma ParseStamp(c: Civil, tail: string)
    requires Real(c) && tail != [] && Fraction(tail) == Some(c.nano)
    ensures ParseTime(Stamp(c, tail)) == Some(c)
  {
    StampSeparators(c, tail);
    StampDate(c, tail);
    StampClock(c, tail);
  }

  lemma ScaledNext(t: string, w: nat)
    requires Digits(t) && |t| < w
    ensures Scaled(t, w) == 10 * Scaled(t, w - 1)
  {
    var n, p := Number(t), Pow10(w - 1 - |t|);
    assert Pow10(w - |t|) == 10 * p;
    assert n * (10 * p) == 10 * (n * p);
  }

  lemma TrimPad(n: nat, w: nat)
    requires w > 0
    ensures Trim(Pad(n, w)) == if n % 10 == 0 then Trim(Pad(n / 10, w - 1)) else Pad(n, w)
  {
    var s := Pad(n, w);
    DigitIs(n % 10);
    assert s[|s| - 1] == DIGITS[n % 10] && s[..|s| - 1] == Pad(n / 10, w - 1);
  }

  lemma ScaledWhole(s: string)
    requires Digits(s)
    ensures Scaled(s, |s|) == Number(s)
  {
    assert Pow10(0) == 1;
  }

  lemma {:induction false} TrimReads(n: nat, w: nat)
    requires 0 < n < Pow10(w)
    ensures var t := Trim(Pad(n, w)); 0 < |t| <= w && Digits(t) && Scaled(t, w) == n
  {
    TrimPad(n, w);
    if n % 10 == 0 {
      TrimReads(n / 10, w - 1);
      ScaledNext(Trim(Pad(n / 10, w - 1)), w);
    } else {
      PadReads(n, w);
      ScaledWhole(Pad(n, w));
    }
  }

  lemma RenderNext(fs: seq<Field>, i: nat)
    requires i < |fs|
    ensures Render(fs[i..]) == Pad(fs[i].value, fs[i].width) + ([fs[i].sep] + Render(fs[i + 1..]))
  {
    assert fs[i..][1..] == fs[i + 1..];
  }

  lemma FmtTimeIs(c: Civil)
    ensures FmtTime(c) == Stamp(c, "." + (Pad(c.nano, 9) + "Z"))
  {
    var f := Fields(c);
    RenderNext(f, 6);
    assert Render(f[6..]) == Pad(c.nano, 9) + "Z";
    RenderNext(f, 5);
    RenderNext(f, 4);
    RenderNext(f, 3);
    RenderNext(f, 2);
    RenderNext(f, 1);
    RenderNext(f, 0);
    assert f[0..] == f;
  }

  /** A time survives storing it. */
  lemma StoredTimeReads(c: Civil)
    requires Real(c)
    ensures ParseTime(FmtTime(c)) == Some(c)
  {
    var p, tail := Pad(c.nano, 9), "." + (Pad(c.nano, 9) + "Z");
    FmtTimeIs(c);
    Powers();
    PadReads(c.nano, 9);
    assert tail[1..|tail| - 1] == p;
    ParseStamp(c, tail);
  }

  /** The variable-width text of a time normalises back. */
  lemma NanoTextReads(c: Civil)
    requires Real(c)
    ensures ParseTime(NanoText(c)) == Some(c)
  {
    if c.nano == 0 {
      ParseStamp(c, "Z");
    } else {
      Powers();
      TrimReads(c.nano, 9);
      var t := Trim(Pad(c.nano, 9));
      var tail := "." + (t + "Z");
      assert tail[1..|tail| - 1] == t;
      ParseStamp(c, tail);
    }
  }

  lemma SamePrefix(a: string, x: string, y: string)
    ensures TextLess(a + x, a + y) <==> TextLess(x, y)
  {
    TextLessPieces(a, x, a, y);
    TextLessIrreflexive(a);
  }

  lemma SameStamp(c: Civil, x: string, y: string)
    ensures TextLess(Stamp(c, x), Stamp(c, y)) <==> TextLess(x, y)
  {
    var e := Stamp(c, "");
    assert Stamp(c, x) == e + x && Stamp(c, y) == e + y;
    SamePrefix(e, x, y);
  }

  /** Variable-width texts are not in time order: a whole second sorts after its fractions. */
  lemma VariableWidthMisorders(c: Civil, nano: nat)
    requires Real(c) && c.nano == 0 && 0 < nano < 1_000_000_000
    ensures var later := c.(nano := nano);
            TimeLess(c, later) && TextLess(NanoText(later), NanoText(c))
  {
    var tail := "." + (Trim(Pad(nano, 9)) + "Z");
    assert Stamp(c.(nano := nano), tail) == Stamp(c, tail);
    SameStamp(c, tail, "Z");
  }

  /** The index of the last bar, or -1. */
  function LastBar(s: string): (i: int)
    ensures -1 <= i < |s| && (i >= 0 ==> s[i] == '|')
    ensures forall j :: 0 <= j < |s| && j > i ==> s[j] != '|'
  {
    if s == [] then -1 else if s[|s| - 1] == '|' then |s| - 1 else LastBar(s[..|s| - 1])
  }

  type Key = (Civil, string)

  function SplitRunCursor(before: string): (k: Option<Key>)
    ensures k.Some? ==> Real(k.value.0)
  {
    var i := LastBar(before);
    if i <= 0 || i == |before| - 1 then None
    else match ParseTime(before[..i])
      case None => None
      case Some(t) => Some((t, before[i + 1..]))
  }

  /** The cursor a client makes of the last run it got. */
  function Cursor(k: Key): string {
    NanoText(k.0) + "|" + k.1
  }

  lemma {:induction false} LastBarIs(a: string, b: string)
    requires '|' !in b
    ensures LastBar(a + "|" + b) == |a|
  {
    var s := a + "|" + b;
    if b == [] {
      assert s[|s| - 1] == '|';
    } else {
      var before := b[..|b| - 1];
      LastBarIs(a, before);
      assert s[..|s| - 1] == a + "|" + before;
      assert s[|s| - 1] == b[|b| - 1];
    }
  }

  lemma CursorReads(k: Key)
    requires Real(k.0) && k.1 != [] && '|' !in k.1
    ensures SplitRunCursor(Cursor(k)) == Some(k)
  {
    var s, t := Cursor(k), NanoText(k.0);
    LastBarIs(t, k.1);
    assert s[..|t|] == t && s[|t| + 1..] == k.1;
    NanoTextReads(k.0);
  }
}
