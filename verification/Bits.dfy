/** Unsigned machine words as naturals, with the bitwise operators the C++ code applies to them. */
module Bits {

  const WORD := 0x1_0000_0000_0000_0000

  function Pow2(n: nat): (r: nat)
    ensures r >= 1
  {
    if n == 0 then 1 else 2 * Pow2(n - 1)
  }

  function BitAnd(a: nat, b: nat): nat {
    if a == 0 || b == 0 then 0 else (if a % 2 + b % 2 == 2 then 1 else 0) + 2 * BitAnd(a / 2, b / 2)
  }

  function BitOr(a: nat, b: nat): nat {
    if a == 0 then b
    else if b == 0 then a
    else (if a % 2 + b % 2 == 0 then 0 else 1) + 2 * BitOr(a / 2, b / 2)
  }

  /** `x << n` on 64-bit words, and `x >> n`. */
  function Shl(x: nat, n: nat): nat {
    if n == 0 then x % WORD else 2 * Shl(x, n - 1) % WORD
  }

  function Shr(x: nat, n: nat): nat {
    if n == 0 then x else Shr(x / 2, n - 1)
  }

  /** The low n bits of x. */
  function Low(x: nat, n: nat): nat {
    if n == 0 then 0 else x % 2 + 2 * Low(x / 2, n - 1)
  }

  lemma {:induction false} ShrShr(x: nat, m: nat, n: nat)
    ensures Shr(Shr(x, m), n) == Shr(x, m + n)
  {
    if m == 0 {
    } else {
      ShrShr(x / 2, m - 1, n);
    }
  }

  lemma AndOddMask(a: nat, m: nat)
    ensures BitAnd(a, 2 * m + 1) == a % 2 + 2 * BitAnd(a / 2, m)
  {
    Halves(m);
  }

  lemma AndEvenMask(a: nat, m: nat)
    ensures BitAnd(a, 2 * m) == 2 * BitAnd(a / 2, m)
  {
    Halves(m);
  }

  lemma OrOddMask(a: nat, m: nat)
    ensures BitOr(a, 2 * m + 1) == 1 + 2 * BitOr(a / 2, m)
  {
    Halves(m);
  }

  lemma OrNone(a: nat)
    ensures BitOr(a, 0) == a
  {
  }

  lemma Halves(m: nat)
    ensures (2 * m + 1) % 2 == 1 && (2 * m + 1) / 2 == m && 2 * m % 2 == 0 && 2 * m / 2 == m
  {
  }

  /** Masking with 2^k - 1 keeps the low k bits. */
  lemma {:induction false} AndLowMask(a: nat, k: nat)
    ensures BitAnd(a, Pow2(k) - 1) == Low(a, k)
  {
    if k == 0 {
    } else {
      AndLowMask(a / 2, k - 1);
      AndOddMask(a, Pow2(k - 1) - 1);
    }
  }

  /** Setting the low k bits of two words makes them equal exactly when they agree above those bits. */
  lemma {:induction false} OrMaskAgrees(a: nat, b: nat, k: nat)
    ensures BitOr(a, Pow2(k) - 1) == BitOr(b, Pow2(k) - 1) <==> Shr(a, k) == Shr(b, k)
  {
    if k == 0 {
      OrNone(a);
      OrNone(b);
    } else {
      hide BitOr;
      OrMaskAgrees(a / 2, b / 2, k - 1);
      OrOddMask(a, Pow2(k - 1) - 1);
      OrOddMask(b, Pow2(k - 1) - 1);
    }
  }

  lemma {:induction false} Pow2Monotone(k: nat, w: nat)
    requires k <= w
    ensures Pow2(k) <= Pow2(w)
  {
    if k == w {
    } else {
      Pow2Monotone(k, w - 1);
    }
  }

  lemma {:induction false} LowOfSmall(a: nat, w: nat)
    requires a < Pow2(w)
    ensures Low(a, w) == a
  {
    if w == 0 {
    } else {
      LowOfSmall(a / 2, w - 1);
    }
  }

  /** Clearing the low k bits of a w-bit word. */
  lemma {:induction false} AndHighMask(a: nat, k: nat, w: nat)
    requires k <= w && a < Pow2(w)
    ensures Pow2(k) <= Pow2(w)
    ensures BitAnd(a, Pow2(w) - Pow2(k)) == a - Low(a, k)
  {
    hide BitAnd;
    Pow2Monotone(k, w);
    if k == 0 {
      AndLowMask(a, w);
      LowOfSmall(a, w);
    } else {
      Pow2Monotone(k - 1, w - 1);
      var m := Pow2(w - 1) - Pow2(k - 1);
      AndHighMask(a / 2, k - 1, w - 1);
      AndEvenMask(a, m);
      assert Pow2(w) - Pow2(k) == 2 * m;
      assert a == a % 2 + 2 * (a / 2);
    }
  }

  lemma {:induction false} LowBound(a: nat, k: nat)
    ensures Low(a, k) < Pow2(k) && Low(a, k) <= a
  {
    if k == 0 {
    } else {
      LowBound(a / 2, k - 1);
    }
  }

  lemma MulDouble(q: nat, p: nat, d: nat)
    requires d == 2 * p
    ensures q * d == 2 * (q * p)
  {
  }

  /** The bits above the low k count multiples of 2^k. */
  lemma {:induction false} ShrLow(a: nat, k: nat, p: nat)
    requires p == Pow2(k)
    ensures a == Shr(a, k) * p + Low(a, k)
  {
    if k == 0 {
    } else {
      var h: nat := Pow2(k - 1);
      ShrLow(a / 2, k - 1, h);
      MulDouble(Shr(a / 2, k - 1), h, p);
    }
  }

  lemma ShlStep(x: nat, n: nat, y: nat)
    requires n > 0 && Shl(x, n - 1) == y
    ensures Shl(x, n) == (2 * y) % WORD
    ensures 2 * y < WORD ==> Shl(x, n) == 2 * y
  {
  }

  /** A shift that loses no bits multiplies. */
  lemma {:induction false} ShlSmall(x: nat, n: nat, p: nat)
    requires p == Pow2(n) && x * p < WORD
    ensures Shl(x, n) == x * p
  {
    if n == 0 {
    } else {
      hide Shl;
      var h: nat := Pow2(n - 1);
      MulDouble(x, h, p);
      ShlSmall(x, n - 1, h);
      ShlStep(x, n, x * h);
    }
  }
}
