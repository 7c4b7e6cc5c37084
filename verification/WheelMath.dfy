/**
 Where the timing wheel keeps a timer, and why that stays right when the clock moves.

 The 64-bit clock is split into one 14-bit digit and five 10-bit digits above it.
 */
module WheelMath {
  import Bits

  const LEAST_VALUE := 0x4000
  const LEVEL_VALUE := 0x400
  const LEVEL_COUNT := 5

  /** A list of the wheel: a cell of `least`, or the list for digit value `v` of one level. */
  datatype Slot = Least(i: nat) | Level(k: nat, v: nat)

  predicate IsSlot(s: Slot) {
    match s
    case Least(i) => i < LEAST_VALUE
    case Level(k, v) => k < LEVEL_COUNT && 1 <= v < LEVEL_VALUE
  }

  /** How many cascades a timer in this slot may still go through. */
  function Rank(s: Slot): nat {
    match s
    case Least(_) => 0
    case Level(k, _) => k + 1
  }

  /** Weight of digit k; Base(5) is one past the largest 64-bit number. */
  function Base(k: nat): (b: nat)
    requires k <= LEVEL_COUNT
    ensures b > 0
  {
    match k
    case 0 => 0x4000
    case 1 => 0x100_0000
    case 2 => 0x4_0000_0000
    case 3 => 0x1000_0000_0000
    case 4 => 0x40_0000_0000_0000
    case _ => 0x1_0000_0000_0000_0000
  }

  function Quot(x: nat, k: nat): nat
    requires k <= LEVEL_COUNT
  {
    x / Base(k)
  }

  /** Digit k of x, counting the 10-bit digits from 0. */
  function Digit(x: nat, k: nat): nat
    requires k <= LEVEL_COUNT
  {
    Quot(x, k) % LEVEL_VALUE
  }

  /** The slot invariant: slot `s` may hold a timer that expires at `e` while the clock shows `t`. */
  predicate SlotOk(t: nat, e: nat, s: Slot) {
    match s
    case Least(i) => t <= e < t + LEAST_VALUE && i == e % LEAST_VALUE
    case Level(k, v) => k < LEVEL_COUNT && Quot(e, k + 1) == Quot(t, k + 1) && v == Digit(e, k) && Digit(t, k) < v
  }

  lemma QuotStep(x: nat, k: nat)
    requires k < LEVEL_COUNT
    ensures Quot(x, k + 1) == Quot(x, k) / LEVEL_VALUE
  {
    match k
    case 0 => case 1 => case 2 => case 3 => case 4 =>
  }

  lemma QuotMonotone(x: nat, y: nat, k: nat)
    requires k <= LEVEL_COUNT && x <= y
    ensures Quot(x, k) <= Quot(y, k)
  {
    match k
    case 0 => case 1 => case 2 => case 3 => case 4 => case _ =>
  }

  lemma {:induction false} QuotAgreesAbove(x: nat, y: nat, k: nat, m: nat)
    requires k <= m <= LEVEL_COUNT && Quot(x, k) == Quot(y, k)
    ensures Quot(x, m) == Quot(y, m)
  {
    if k == m {
    } else {
      QuotAgreesAbove(x, y, k, m - 1);
      QuotStep(x, m - 1);
      QuotStep(y, m - 1);
    }
  }

  lemma QuotSucc(t: nat, k: nat)
    requires k <= LEVEL_COUNT
    ensures Quot(t + 1, k) == Quot(t, k) + if (t + 1) % Base(k) == 0 then 1 else 0
  {
    match k
    case 0 => case 1 => case 2 => case 3 => case 4 => case _ =>
  }

  lemma RolloverStep(t: nat, k: nat)
    requires k < LEVEL_COUNT
    ensures t % Base(k + 1) == 0 <==> t % Base(k) == 0 && Digit(t, k) == 0
  {
    QuotStep(t, k);
    var q, r := Quot(t, k), t % Base(k);
    var q', d := q / LEVEL_VALUE, q % LEVEL_VALUE;
    assert q == q' * LEVEL_VALUE + d;
    match k
    case 0 => assert t == q * Base(0) + r;
    case 1 => assert t == q * Base(1) + r;
    case 2 => assert t == q * Base(2) + r;
    case 3 => assert t == q * Base(3) + r;
    case 4 => assert t == q * Base(4) + r;
  }

  lemma {:induction false} RolloverBelow(t: nat, k: nat, m: nat)
    requires k <= m <= LEVEL_COUNT && t % Base(m) == 0
    ensures t % Base(k) == 0
  {
    if k == m {
    } else {
      RolloverStep(t, m - 1);
      RolloverBelow(t, k, m - 1);
    }
  }

  // ----- the clock advances by one -----

  /** An expiry equal to the clock can only be in the cell of `least` that the tick drains. */
  lemma DueIsLeast(t: nat, s: Slot)
    requires IsSlot(s) && SlotOk(t, t, s)
    ensures s == Least(t % LEAST_VALUE)
  {
  }

  /** The cell of `least` that the tick drains holds nothing but due timers. */
  lemma LeastIsDue(t: nat, e: nat)
    requires SlotOk(t, e, Least(t % LEAST_VALUE))
    ensures e == t
  {
  }

  /** No rollover: every other timer stays where it is. */
  lemma TickInsideBlock(t: nat, e: nat, s: Slot)
    requires IsSlot(s) && SlotOk(t, e, s) && e != t && (t + 1) % LEAST_VALUE != 0
    ensures SlotOk(t + 1, e, s)
  {
    if s.Level? {
      NoRollover(t, s.k, 0);
      NoRollover(t, s.k + 1, 0);
    }
  }

  lemma NoRollover(t: nat, k: nat, m: nat)
    requires m <= k <= LEVEL_COUNT && (t + 1) % Base(m) != 0
    ensures Quot(t + 1, k) == Quot(t, k)
  {
    QuotSucc(t, k);
    if (t + 1) % Base(k) == 0 {
      RolloverBelow(t + 1, m, k);
    }
  }

  /** Rollover: the levels whose digit wrapped to 0 were already empty. */
  lemma WrappedLevelEmpty(t: nat, e: nat, k: nat, v: nat)
    requires k < LEVEL_COUNT && (t + 1) % Base(k + 1) == 0
    ensures !SlotOk(t, e, Level(k, v))
  {
    hide Base, Quot;
    RolloverStep(t + 1, k);
    RolloverBelow(t + 1, k, k + 1);
    QuotSucc(t, k);
    DigitBefore(Quot(t, k));
    assert Digit(t, k) == LEVEL_VALUE - 1;
  }

  lemma DigitBefore(q: nat)
    requires (q + 1) % LEVEL_VALUE == 0
    ensures q % LEVEL_VALUE == LEVEL_VALUE - 1
  {
  }

  /**
   Rollover at level m, the first whose new digit is not 0: every timer that is not due stays where it
   is, except those in the one slot that is cascaded.
   */
  lemma TickRollover(t: nat, e: nat, s: Slot, m: nat)
    requires IsSlot(s) && SlotOk(t, e, s) && e != t
    requires m < LEVEL_COUNT && (t + 1) % Base(m) == 0 && Digit(t + 1, m) != 0
    ensures s != Level(m, Digit(t + 1, m)) ==> SlotOk(t + 1, e, s)
    ensures s == Level(m, Digit(t + 1, m)) ==> Quot(e, m) == Quot(t + 1, m)
  {
    RolloverStep(t + 1, m);
    if s.Level? {
      if s.k < m {
        RolloverBelow(t + 1, s.k + 1, m);
        WrappedLevelEmpty(t, e, s.k, s.v);
      } else if s.k > m {
        NoRollover(t, s.k, m + 1);
        NoRollover(t, s.k + 1, m + 1);
      } else {
        TickAtLevel(t, e, m);
      }
    }
  }

  /** At the level that rolls over, the digit of the clock moves up by one, at most to that of the timer. */
  lemma TickAtLevel(t: nat, e: nat, m: nat)
    requires m < LEVEL_COUNT && SlotOk(t, e, Level(m, Digit(e, m)))
    requires (t + 1) % Base(m) == 0 && (t + 1) % Base(m + 1) != 0
    ensures Digit(e, m) != Digit(t + 1, m) ==> SlotOk(t + 1, e, Level(m, Digit(e, m)))
    ensures Digit(e, m) == Digit(t + 1, m) ==> Quot(e, m) == Quot(t + 1, m)
  {
    NoRollover(t, m + 1, m + 1);
    QuotSucc(t, m);
    QuotStep(e, m);
    QuotStep(t, m);
    QuotStep(t + 1, m);
  }

  /** A timer in the cascaded slot is not overdue: the new clock is the first time of that slot. */
  lemma CascadeNotOverdue(t: nat, e: nat, m: nat)
    requires m <= LEVEL_COUNT && t % Base(m) == 0 && Quot(e, m) == Quot(t, m)
    ensures t <= e
  {
    match m
    case 0 => case 1 => case 2 => case 3 => case 4 => case _ =>
  }

  // ----- placing a timer -----

  /**
   The search that places a timer: the first level at which `e` and `t` agree above the digit is a valid
   slot, with a digit value that is never 0.
   */
  lemma PlaceAtLevel(t: nat, e: nat, k: nat)
    requires t + LEAST_VALUE <= e && k < LEVEL_COUNT
    requires Quot(e, k + 1) == Quot(t, k + 1)
    requires k == 0 || Quot(e, k) != Quot(t, k)
    ensures 1 <= Digit(e, k) < LEVEL_VALUE
    ensures SlotOk(t, e, Level(k, Digit(e, k)))
  {
    QuotMonotone(t, e, k);
    QuotStep(t, k);
    QuotStep(e, k);
  }

  /** The last level always matches, because both words have 64 bits. */
  lemma LastLevelMatches(t: nat, e: nat)
    requires t < Bits.WORD && e < Bits.WORD
    ensures Quot(e, LEVEL_COUNT) == Quot(t, LEVEL_COUNT)
  {
  }

  /** A clock that has not wrapped has a nonzero digit at every rollover. */
  lemma {:induction false} RolloverHasDigit(t: nat, k: nat)
    requires 0 < t < Bits.WORD && k <= LEVEL_COUNT && t % Base(k) == 0
    ensures k < LEVEL_COUNT
    ensures exists m :: k <= m < LEVEL_COUNT && t % Base(m) == 0 && Digit(t, m) != 0
    decreases LEVEL_COUNT - k
  {
    if k < LEVEL_COUNT && Digit(t, k) == 0 {
      RolloverStep(t, k);
      RolloverHasDigit(t, k + 1);
    }
  }

  // ----- the shifts and masks of the code -----

  const LEAST_SHIFT := 14
  const LEVEL_SHIFT := 10

  lemma LeastBits(x: nat)
    ensures Bits.Shr(x, LEAST_SHIFT) == x / LEAST_VALUE && Bits.Low(x, LEAST_SHIFT) == x % LEAST_VALUE
  {
    SmallPowers();
    Bits.ShrLow(x, LEAST_SHIFT, LEAST_VALUE);
    Bits.LowBound(x, LEAST_SHIFT);
  }

  lemma LevelBits(x: nat)
    ensures Bits.Shr(x, LEVEL_SHIFT) == x / LEVEL_VALUE && Bits.Low(x, LEVEL_SHIFT) == x % LEVEL_VALUE
  {
    SmallPowers();
    Bits.ShrLow(x, LEVEL_SHIFT, LEVEL_VALUE);
    Bits.LowBound(x, LEVEL_SHIFT);
  }

  lemma SmallPowers()
    ensures Bits.Pow2(LEVEL_SHIFT) == LEVEL_VALUE && Bits.Pow2(9) == 0x200 && Bits.Pow2(LEAST_SHIFT) == LEAST_VALUE
  {
    assert Bits.Pow2(9) == 0x200;
    assert Bits.Pow2(10) == 0x400;
    assert Bits.Pow2(14) == 0x4000;
  }

  /** Shifting out the bits below digit k. */
  lemma {:induction false} ShrQuot(x: nat, k: nat)
    requires k <= LEVEL_COUNT
    ensures Bits.Shr(x, LEAST_SHIFT + k * LEVEL_SHIFT) == Quot(x, k)
  {
    if k == 0 {
      LeastBits(x);
    } else {
      ShrQuot(x, k - 1);
      QuotStep(x, k - 1);
      Bits.ShrShr(x, LEAST_SHIFT + (k - 1) * LEVEL_SHIFT, LEVEL_SHIFT);
      LevelBits(Quot(x, k - 1));
    }
  }

  lemma MaskLeast(x: nat)
    ensures Bits.BitAnd(x, LEAST_VALUE - 1) == x % LEAST_VALUE
  {
    SmallPowers();
    Bits.AndLowMask(x, LEAST_SHIFT);
    LeastBits(x);
  }

  lemma MaskLevel(x: nat)
    ensures Bits.BitAnd(x, LEVEL_VALUE - 1) == x % LEVEL_VALUE
  {
    SmallPowers();
    Bits.AndLowMask(x, LEVEL_SHIFT);
    LevelBits(x);
  }

  lemma Pow2Base(k: nat)
    requires k <= LEVEL_COUNT
    ensures Bits.Pow2(LEAST_SHIFT + k * LEVEL_SHIFT) == Base(k)
  {
    assert Bits.Pow2(14) == 0x4000;
    assert Bits.Pow2(24) == 0x400 * Bits.Pow2(14);
    assert Bits.Pow2(34) == 0x400 * Bits.Pow2(24);
    assert Bits.Pow2(44) == 0x400 * Bits.Pow2(34);
    assert Bits.Pow2(54) == 0x400 * Bits.Pow2(44);
    assert Bits.Pow2(64) == 0x400 * Bits.Pow2(54);
  }

  /** `exp2 <<= 10` moves to the weight of the next digit; past the last digit it wraps to 0. */
  lemma ShlBase(k: nat)
    requires k < LEVEL_COUNT
    ensures Bits.Shl(Base(k), LEVEL_SHIFT) == if k == LEVEL_COUNT - 1 then 0 else Base(k + 1)
  {
    hide Bits.Shl, Bits.Pow2;
    SmallPowers();
    if k < LEVEL_COUNT - 1 {
      Bits.ShlSmall(Base(k), LEVEL_SHIFT, LEVEL_VALUE);
    } else {
      Bits.ShlSmall(Base(4), LEVEL_SHIFT - 1, 0x200);
      Bits.ShlStep(Base(4), LEVEL_SHIFT, Base(4) * 0x200);
    }
  }
}
