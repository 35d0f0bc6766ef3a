/** The retry delay: the base doubled per attempt, capped, in 64-bit arithmetic. */
module Backoff {

  const CAP := 30_000_000_000

  const TWO_TO_63 := 0x8000_0000_0000_0000

  function Pow2(n: nat): (p: nat)
    ensures p > 0
  {
    if n == 0 then 1 else 2 * Pow2(n - 1)
  }

  /** A product as a signed 64-bit integer. */
  function Wrap(x: int): (r: int)
    ensures -TWO_TO_63 <= r < TWO_TO_63
    ensures -TWO_TO_63 <= x < TWO_TO_63 ==> r == x
  {
    (x + TWO_TO_63) % (2 * TWO_TO_63) - TWO_TO_63
  }

  function Delay(base: int, attempt: nat): int {
    var d := Wrap(base * Pow2(attempt));
    if d > CAP then CAP else d
  }

  /** The delay as documented. */
  function Documented(base: int, attempt: nat): int {
    if base * Pow2(attempt) > CAP then CAP else base * Pow2(attempt)
  }

  /** The delay is the documented one exactly if the product does not overflow, or its low
      64 bits are those of a positive number that is not below the cap. */
  lemma DelayDocumentedIff(base: int, attempt: nat)
    requires base > 0
    ensures Delay(base, attempt) == Documented(base, attempt) <==>
              base * Pow2(attempt) < TWO_TO_63 || CAP <= (base * Pow2(attempt)) % (2 * TWO_TO_63) < TWO_TO_63
  {
    var x := base * Pow2(attempt);
    assert x > 0;
    WrapLow(x);
  }

  lemma WrapLow(x: int)
    ensures var low := x % (2 * TWO_TO_63); Wrap(x) == if low < TWO_TO_63 then low else low - 2 * TWO_TO_63
  {
  }

  lemma {:induction false} Pow2Monotone(m: nat, n: nat)
    requires m <= n
    ensures Pow2(m) <= Pow2(n)
  {
    if m < n {
      Pow2Monotone(m, n - 1);
    }
  }

  lemma PowersOfTwo()
    ensures Pow2(33) == 0x2_0000_0000 && Pow2(34) == 0x4_0000_0000
  {
    assert Pow2(8) == 0x100;
    assert Pow2(16) == 0x1_0000;
    assert Pow2(24) == 0x100_0000;
  }

  const DEFAULT_BASE := 1_000_000_000

  /** The attempts from 34 on whose delay is the cap all the same. */
  const STRAYS: set<nat> := {37, 41, 42, 45, 47, 50, 51, 53}

  /** The low 64 bits of the default base shifted by 34 to 54. */
  const LOWS: seq<nat> := [
    0xEE6B_2800_0000_0000, 0xDCD6_5000_0000_0000, 0xB9AC_A000_0000_0000, 0x7359_4000_0000_0000,
    0xE6B2_8000_0000_0000, 0xCD65_0000_0000_0000, 0x9ACA_0000_0000_0000, 0x3594_0000_0000_0000,
    0x6B28_0000_0000_0000, 0xD650_0000_0000_0000, 0xACA0_0000_0000_0000, 0x5940_0000_0000_0000,
    0xB280_0000_0000_0000, 0x6500_0000_0000_0000, 0xCA00_0000_0000_0000, 0x9400_0000_0000_0000,
    0x2800_0000_0000_0000, 0x5000_0000_0000_0000, 0xA000_0000_0000_0000, 0x4000_0000_0000_0000,
    0x8000_0000_0000_0000]

  lemma LowIs(x: int, q: int, low: int)
    requires x == 2 * TWO_TO_63 * q + low && 0 <= low < 2 * TWO_TO_63
    ensures x % (2 * TWO_TO_63) == low
  {
  }

  lemma DoubleLow(x: int, y: int)
    requires y == 2 * x
    ensures y % (2 * TWO_TO_63) == (2 * (x % (2 * TWO_TO_63))) % (2 * TWO_TO_63)
  {
    var q, low := x / (2 * TWO_TO_63), x % (2 * TWO_TO_63);
    if low < TWO_TO_63 {
      LowIs(y, 2 * q, 2 * low);
      LowIs(2 * low, 0, 2 * low);
    } else {
      LowIs(y, 2 * q + 1, 2 * low - 2 * TWO_TO_63);
      LowIs(2 * low, 1, 2 * low - 2 * TWO_TO_63);
    }
  }

  lemma LowsDouble(k: nat)
    requires k < 20
    ensures LOWS[k + 1] == (2 * LOWS[k]) % (2 * TWO_TO_63)
  {
    assert k in {0, 1, 2, 3, 4, 5, 6, 7, 8, 9, 10, 11, 12, 13, 14, 15, 16, 17, 18, 19};
  }

  lemma {:induction false} LowOf(attempt: nat)
    requires 34 <= attempt <= 54
    ensures (DEFAULT_BASE * Pow2(attempt)) % (2 * TWO_TO_63) == LOWS[attempt - 34]
  {
    if attempt == 34 {
      PowersOfTwo();
    } else {
      LowOf(attempt - 1);
      DoubleLow(DEFAULT_BASE * Pow2(attempt - 1), DEFAULT_BASE * Pow2(attempt));
      LowsDouble(attempt - 35);
    }
  }

  lemma LowsAbove(k: nat)
    requires k <= 20
    ensures CAP <= LOWS[k] < TWO_TO_63 <==> k + 34 in STRAYS
  {
    assert k in {0, 1, 2, 3, 4, 5, 6, 7, 8, 9, 10, 11, 12, 13, 14, 15, 16, 17, 18, 19, 20};
  }

  /** From 55 on all the low bits are shifted out. */
  lemma {:induction false} LargeShifts(attempt: nat)
    requires attempt >= 55
    ensures (DEFAULT_BASE * Pow2(attempt)) % (2 * TWO_TO_63) == 0
  {
    if attempt == 55 {
      LowOf(54);
    } else {
      LargeShifts(attempt - 1);
    }
    DoubleLow(DEFAULT_BASE * Pow2(attempt - 1), DEFAULT_BASE * Pow2(attempt));
  }

  /** From 34 on the product overflows. */
  lemma Overflows(attempt: nat)
    requires attempt >= 34
    ensures DEFAULT_BASE * Pow2(attempt) >= TWO_TO_63
  {
    PowersOfTwo();
    Pow2Monotone(34, attempt);
  }

  /** With the default base of a second the delay is the documented one for the first 33
      attempts and for eight later ones, and for no other. */
  lemma DefaultDelays(attempt: nat)
    ensures Delay(DEFAULT_BASE, attempt) == Documented(DEFAULT_BASE, attempt) <==> attempt <= 33 || attempt in STRAYS
  {
    DelayDocumentedIff(DEFAULT_BASE, attempt);
    if attempt <= 33 {
      PowersOfTwo();
      Pow2Monotone(attempt, 33);
    } else {
      Overflows(attempt);
      if attempt <= 54 {
        LowOf(attempt);
        LowsAbove(attempt - 34);
      } else {
        LargeShifts(attempt);
      }
    }
  }

  /** The 34th retry is not delayed at all, its delay being negative; from the 55th on the
      delay is zero. */
  lemma UndelayedRetries(attempt: nat)
    requires attempt == 34 || attempt >= 55
    ensures if attempt == 34 then Delay(DEFAULT_BASE, attempt) < 0 else Delay(DEFAULT_BASE, attempt) == 0
  {
    WrapLow(DEFAULT_BASE * Pow2(attempt));
    if attempt == 34 {
      LowOf(34);
    } else {
      LargeShifts(attempt);
    }
  }
}
