/** The CPU simulator's double-word multiplication by shift and add (machine/mipssim.cc, Mult). */
module Multiplier {
  import opened Bytes

  /** 2^32, the number of values of a machine word. */
  const W := 0x1_0000_0000

  function Pow2(n: nat): (p: nat)
    ensures p >= 1
  {
    if n == 0 then 1 else 2 * Pow2(n - 1)
  }

  lemma Pow2Word()
    ensures Pow2(32) == W && Pow2(0) == 1
  {
    assert Pow2(4) == 0x10 && Pow2(8) == 0x100 && Pow2(12) == 0x1000 && Pow2(16) == 0x1_0000;
    assert Pow2(20) == 0x10_0000 && Pow2(24) == 0x100_0000 && Pow2(28) == 0x1000_0000;
  }

  lemma {:induction false} Pow2Small(n: nat)
    requires n < 32
    ensures Pow2(n) <= 0x8000_0000
    decreases 32 - n
  {
    if n < 31 {
      Pow2Small(n + 1);
    } else {
      Pow2Word();
    }
  }

  lemma Pow2Next(n: nat)
    ensures Pow2(n + 1) == 2 * Pow2(n) && Pow2(n) > 0
  {}

  /** `-n` in two's complement: the most negative value is its own negation. */
  function Negate(n: int32): int32 {
    if n == -0x8000_0000 then n else -n
  }

  /** `~w` */
  function Complement(w: nat): nat
    requires w < W
  {
    W - 1 - w
  }

  function Magnitude(n: int): nat {
    if n < 0 then -n else n
  }

  lemma NegateMagnitude(n: int32)
    requires n < 0
    ensures Unsigned(Negate(n)) == Magnitude(n)
  {}

  function Times(a: nat, b: nat): nat {
    a * b
  }

  lemma TimesBound(a: nat, b: nat, m: nat)
    requires a <= m && b <= m
    ensures Times(a, b) <= m * m
  {
    assert a * b <= m * b <= m * m;
  }

  /** The lowest remaining bit moves into the sum, and the shifted multiplicand doubles. */
  lemma ShiftStep(r: nat, s: nat)
    ensures Times(r, s) == Times(r / 2, 2 * s) + if r % 2 == 1 then s else 0
  {
    var h, bit := r / 2, r % 2;
    assert r * s == (2 * h + bit) * s == h * (2 * s) + bit * s;
  }

  lemma TimesZero(r: nat, s: nat)
    requires r == 0
    ensures Times(r, s) == 0
  {}

  lemma TimesPositive(a: nat, b: nat)
    requires a > 0 && b > 0
    ensures Times(a, b) > 0
  {}

  lemma SignedTimes(a: int, b: int)
    ensures var m := Times(Magnitude(a), Magnitude(b));
      a * b == if (a < 0) != (b < 0) then 0 - m else m
  {}

  /** `(lo, hi) += (bLo, bHi)`, with the carry found by comparing: exact unless the sum needs a 65th bit. */
  method AddDouble(lo: nat, hi: nat, bLo: nat, bHi: nat) returns (l: nat, h: nat)
    requires lo < W && hi < W && bLo < W && bHi < W
    requires hi * W + lo + (bHi * W + bLo) < W * W
    ensures l < W && h < W && h * W + l == hi * W + lo + (bHi * W + bLo)
  {
    l := (lo + bLo) % W;
    h := hi;
    if l < bLo {
      h := (h + 1) % W;
    }
    h := (h + bHi) % W;
  }

  /** `(bHi, bLo) <<= 1`, the top bit of the low word moving into the high one. */
  method ShiftDouble(bLo: nat, bHi: nat) returns (l: nat, h: nat)
    requires bLo < W && bHi < W
    requires 2 * (bHi * W + bLo) < W * W
    ensures l < W && h < W && h * W + l == 2 * (bHi * W + bLo)
  {
    h := bHi * 2 % W;
    if bLo >= 0x8000_0000 {
      h := h + 1;
    }
    l := bLo * 2 % W;
  }

  /** The main loop, on the bits of `x` (an `int`, shifted arithmetically) and the unsigned `b`. */
  method Accumulate(x0: int32, b: nat) returns (lo: nat, hi: nat)
    requires b < W
    ensures lo < W && hi < W && hi * W + lo == Times(Unsigned(x0), b)
  {
    hide Times;
    Pow2Word();
    hide Pow2;
    var x := x0;
    var bLo: nat, bHi: nat := b, 0;
    lo, hi := 0, 0;
    ghost var product := Times(Unsigned(x0), b);
    ghost var r: nat, s: nat, q: nat := Unsigned(x0), b, W;
    TimesBound(Unsigned(x0), b, W - 1);
    var i := 0;
    while i < 32
      invariant 0 <= i <= 32 && q == Pow2(32 - i)
      invariant lo < W && hi < W && bLo < W && bHi < W
      invariant hi * W + lo + Times(r, s) == product < W * W
      invariant bHi * W + bLo == s && s < W * Pow2(i)
      invariant 0 <= r < q && x == if x0 < 0 then r - q else r
    {
      Pow2Small(i);
      Pow2Next(i);
      Pow2Next(31 - i);
      ShiftStep(r, s);
      if x % 2 == 1 {
        lo, hi := AddDouble(lo, hi, bLo, bHi);
        if Unsigned(x) / 2 == 0 {
          TimesZero(r / 2, 2 * s);
          return;
        }
      }
      bLo, bHi := ShiftDouble(bLo, bHi);
      x := x / 2;
      r, s, q := r / 2, 2 * s, q / 2;
      i := i + 1;
    }
    TimesZero(r, s);
  }

  /** Two's complement of the double word. */
  method NegateDouble(lo: nat, hi: nat) returns (l: nat, h: nat)
    requires lo < W && hi < W && (lo > 0 || hi > 0)
    ensures l < W && h < W && h * W + l == W * W - (hi * W + lo)
  {
    h := Complement(hi);
    l := (Complement(lo) + 1) % W;
    if l == 0 {
      h := (h + 1) % W;
    }
  }

  /** hi:lo is the exact 64-bit product, for every pair of words, signed or unsigned. */
  method Mult(a: int32, b: int32, signedArith: bool) returns (hi: int32, lo: int32)
    ensures signedArith ==> hi * W + Unsigned(lo) == a * b
    ensures !signedArith ==> Unsigned(hi) * W + Unsigned(lo) == Unsigned(a) * Unsigned(b)
  {
    if a == 0 || b == 0 {
      return 0, 0;
    }
    assert Times(Unsigned(a), Unsigned(b)) == Unsigned(a) * Unsigned(b);
    hide Times;
    var negative := false;
    var x, y := a, b;
    if signedArith {
      if x < 0 {
        negative := !negative;
        NegateMagnitude(x);
        x := Negate(x);
      }
      if y < 0 {
        negative := !negative;
        NegateMagnitude(y);
        y := Negate(y);
      }
      TimesBound(Magnitude(a), Magnitude(b), 0x8000_0000);
      SignedTimes(a, b);
    }
    var l, h := Accumulate(x, Unsigned(y));
    TimesPositive(Unsigned(x), Unsigned(y));
    if negative {
      l, h := NegateDouble(l, h);
    }
    return Signed(h), Signed(l);
  }
}
