/** Rounding to binary16 and back, on the values of the numbers. */
module HalfPrecision {
  import opened QuantError

  datatype Float = Finite(value: real) | Infinite(negative: bool) | NotANumber

  /** The smallest positive half and the smallest normal one. */
  const UNIT := 1.0 / 16777216.0
  const MIN_NORMAL := 1.0 / 16384.0

  /** Magnitudes from here on are infinite, and those that round to here. */
  const HUGE := 65536.0
  const LIMIT := 65520.0

  /** The distance between neighbouring halves in each of the thirty binades;
      the subnormals share that of the first. */
  function Ulp(k: nat): (u: real)
    ensures u >= UNIT
  {
    if k == 0 then UNIT else 2.0 * Ulp(k - 1)
  }

  lemma {:induction false} UlpGrows(j: nat, k: nat)
    requires j <= k
    ensures Ulp(j) <= Ulp(k) && (j < k ==> 2.0 * Ulp(j) <= Ulp(k))
  {
    if j == k {
    } else {
      UlpGrows(j, k - 1);
    }
  }

  lemma {:induction false} UlpTop()
    ensures Ulp(29) == 32.0 && 1024.0 * Ulp(0) == MIN_NORMAL
  {
    assert Ulp(8) == 1.0 / 65536.0;
    assert Ulp(16) == 1.0 / 256.0;
    assert Ulp(24) == 1.0;
  }

  /** The binade of a magnitude, or the first for everything below it. */
  function Binade(m: real, k: nat): (b: nat)
    requires k <= 29
    ensures k <= b <= 29
    ensures b < 29 ==> m < 2048.0 * Ulp(b)
    ensures b > k ==> 1024.0 * Ulp(b) <= m
    decreases 29 - k
  {
    if k == 29 || m < 2048.0 * Ulp(k) then k else Binade(m, k + 1)
  }

  function Spacing(m: real): (s: real)
    ensures s >= UNIT
  {
    Ulp(Binade(m, 0))
  }

  /** Nearest integer, halves to even. */
  function RoundEven(t: real): (n: int)
    ensures -0.5 <= n as real - t <= 0.5
    ensures n as real - t == 0.5 || n as real - t == -0.5 ==> n % 2 == 0
  {
    var kept := t.Floor;
    var dropped := t - kept as real;
    if dropped > 0.5 || (dropped == 0.5 && kept % 2 == 1) then kept + 1 else kept
  }

  /** Multiplication and division under names, for proofs that need only a
      few facts of them. */
  function Times(a: real, s: real): real {
    a * s
  }

  function Over(a: real, s: real): real
    requires s > 0.0
  {
    a / s
  }

  /** The multiple of a spacing nearest to a magnitude. */
  function Snap(m: real, s: real): real
    requires s > 0.0
  {
    Times(RoundEven(Over(m, s)) as real, s)
  }

  function Rounded(m: real): real {
    Snap(m, Spacing(m))
  }

  function Signed(negative: bool, m: real): real {
    if negative then -m else m
  }

  /** To binary16 and back. Magnitudes below the smallest half go to zero
      without rounding. */
  function HalfOf(t: real): Float {
    var m := Abs(t);
    if m >= HUGE then Infinite(t < 0.0)
    else if m < UNIT then Finite(0.0)
    else if Rounded(m) >= HUGE then Infinite(t < 0.0)
    else Finite(Signed(t < 0.0, Rounded(m)))
  }

  lemma {:induction false} SpacingBounds(m: real)
    ensures UNIT <= Spacing(m) <= 32.0
    ensures HUGE / 2.0 <= m ==> Spacing(m) == 32.0
    ensures m < HUGE ==> m < 2048.0 * Spacing(m)
    ensures MIN_NORMAL <= m ==> 1024.0 * Spacing(m) <= m
  {
    var b := Binade(m, 0);
    UlpTop();
    UlpGrows(b, 29);
  }

  lemma {:induction false} RoundedIsClose(m: real)
    ensures -0.5 * Spacing(m) <= Rounded(m) - m <= 0.5 * Spacing(m)
  {
    hide Spacing;
    SpacingBounds(m);
    NearestError(m, 0.0, Spacing(m), RoundEven(Over(m, Spacing(m))) as real);
  }

  /** At the top of the range the last half below infinity is 65504, and what
      is halfway past it rounds to infinity. */
  lemma {:induction false} TopRounds(m: real)
    requires HUGE / 2.0 <= m < HUGE
    ensures Rounded(m) >= HUGE <==> m >= LIMIT
  {
    hide Spacing;
    SpacingBounds(m);
    var n := RoundEven(m / 32.0);
    if m >= LIMIT {
      assert m / 32.0 >= 2047.5;
      assert n >= 2048;
    } else {
      assert m / 32.0 < 2047.5;
      assert n <= 2047;
    }
  }

  /** A number stays finite exactly below the point that rounds past 65504. */
  lemma {:induction false} HalfIsFinite(t: real)
    ensures HalfOf(t).Finite? <==> Abs(t) < LIMIT
  {
    hide Rounded, Spacing;
    var m := Abs(t);
    SpacingBounds(m);
    RoundedIsClose(m);
    if HUGE / 2.0 <= m < HUGE {
      TopRounds(m);
    }
  }

  lemma {:induction false} HalfIsPositive(t: real)
    requires t >= 0.0
    ensures HalfOf(t).Finite? ==> HalfOf(t).value >= 0.0
  {
    hide Rounded, Spacing;
    SpacingBounds(t);
    RoundedIsClose(t);
    if UNIT <= t < MIN_NORMAL {
      SubnormalSpacing(t);
    }
  }

  lemma {:induction false} SubnormalSpacing(m: real)
    requires m < 2048.0 * UNIT
    ensures Spacing(m) == UNIT
  {
  }

  lemma {:induction false} ZeroIsAccurate()
    ensures HalfOf(0.0) == Finite(0.0) && Accurate(0.0, 0.0)
  {
  }

  /** Below twice the smallest normal half, counted in the smallest half. */
  lemma {:induction false} SubnormalRounds(units: real)
    requires 1.0 <= units < 2047.0
    ensures HalfOf(units * UNIT) == Finite(RoundEven(units) as real * UNIT)
  {
    hide Spacing, RoundEven;
    SubnormalSpacing(units * UNIT);
    TimesDiv(units, UNIT);
  }

  /** In the normal range the rounding is off by at most a relative 2^-11. */
  lemma {:induction false} NormalIsAccurate(t: real)
    requires MIN_NORMAL <= t < LIMIT
    ensures HalfOf(t).Finite? && Accurate(HalfOf(t).value, t)
  {
    hide Rounded, Spacing;
    HalfIsFinite(t);
    SpacingBounds(t);
    RoundedIsClose(t);
  }

  // ---------------------------------------------------------------------
  // Nearest
  // ---------------------------------------------------------------------

  function Grid(n: nat, k: nat): real {
    Times(n as real, Ulp(k))
  }

  /** The finite values of binary16. */
  ghost predicate IsHalf(h: real) {
    exists n: nat, k: nat :: n < 2048 && k <= 29 && Abs(h) == Grid(n, k)
  }

  lemma {:induction false} RoundEvenNearest(t: real, n: int)
    ensures Abs(RoundEven(t) as real - t) <= Abs(n as real - t)
  {
    hide RoundEven;
    var r := RoundEven(t);
    assert n == r || n >= r + 1 || n <= r - 1;
    OneApart(t, 1.0, r as real, n as real);
  }

  lemma {:induction false} ScaledDistance(a: real, q: real, s: real)
    requires s > 0.0
    ensures Abs(Times(a, s) - Times(q, s)) == Times(Abs(a - q), s)
  {
    Spread(a, q, s);
    Spread(q, a, s);
    if a < q {
      Scaled(a, q, s);
    } else {
      Scaled(q, a, s);
    }
  }

  lemma {:induction false} TimesGrows(a: real, b: real, s: real)
    requires a <= b && s >= 0.0
    ensures Times(a, s) <= Times(b, s)
  {
    Scaled(a, b, s);
  }

  lemma {:induction false} OverTimes(m: real, s: real)
    requires s > 0.0
    ensures Times(Over(m, s), s) == m
  {
    DivTimes(m, s);
  }

  /** No multiple of the spacing is closer. */
  lemma {:induction false} MultipleIsFarther(m: real, n: int, s: real)
    requires s > 0.0
    ensures Abs(Snap(m, s) - m) <= Abs(Times(n as real, s) - m)
  {
    hide RoundEven, Times, Over;
    var q := Over(m, s);
    OverTimes(m, s);
    RoundEvenNearest(q, n);
    ScaledDistance(RoundEven(q) as real, q, s);
    ScaledDistance(n as real, q, s);
    TimesGrows(Abs(RoundEven(q) as real - q), Abs(n as real - q), s);
  }

  /** Spacings are whole multiples of the smaller ones. */
  lemma {:induction false} UlpMultiple(b: nat, k: nat) returns (w: nat)
    requires b <= k
    ensures Ulp(k) == w as real * Ulp(b)
    decreases k
  {
    if b == k {
      w := 1;
    } else {
      var v := UlpMultiple(b, k - 1);
      w := 2 * v;
      Regroup(2.0, v as real, Ulp(b));
    }
  }

  lemma {:induction false} Regroup(a: real, b: real, c: real)
    ensures a * (b * c) == a * b * c
  {
  }

  lemma {:induction false} WholeProduct(a: int, b: int)
    ensures (a * b) as real == a as real * b as real
  {
  }

  /** A half with a coarser grid is a multiple of the spacing. */
  lemma {:induction false} CoarserGrid(m: real, n: nat, k: nat) returns (i: int)
    requires Binade(m, 0) <= k
    ensures Grid(n, k) == Times(i as real, Spacing(m))
  {
    hide Ulp, Binade;
    var w := UlpMultiple(Binade(m, 0), k);
    i := n * w;
    WholeProduct(n, w);
    Regroup(n as real, w as real, Spacing(m));
  }

  /** A half with a finer grid lies below the whole binade. */
  lemma {:induction false} FinerGrid(m: real, n: nat, k: nat)
    requires k < Binade(m, 0) && n < 2048
    ensures Grid(n, k) <= Times(1024 as real, Spacing(m)) <= m
  {
    hide Ulp, Binade;
    UlpGrows(k, Binade(m, 0));
    Rectangle(n as real, 2048.0, Ulp(k), Ulp(k));
  }

  lemma {:induction false} Rectangle(a: real, width: real, b: real, height: real)
    requires 0.0 <= a <= width && 0.0 <= b <= height
    ensures a * b <= width * height
  {
    Scaled(a, width, b);
    Scaled(b, height, width);
  }

  lemma {:induction false} NoHalfIsCloser(m: real, n: nat, k: nat)
    requires n < 2048
    ensures Abs(Rounded(m) - m) <= Abs(Grid(n, k) - m)
  {
    hide Spacing, Snap, Grid, Binade, Times;
    SpacingBounds(m);
    if Binade(m, 0) <= k {
      var i := CoarserGrid(m, n, k);
      MultipleIsFarther(m, i, Spacing(m));
    } else {
      FinerGrid(m, n, k);
      MultipleIsFarther(m, 1024, Spacing(m));
      Farther(m, Times(1024 as real, Spacing(m)), Grid(n, k));
    }
  }

  lemma {:induction false} GridStarts(n: nat, k: nat)
    ensures n == 0 ==> Grid(n, k) == 0.0
    ensures n > 0 ==> Grid(n, k) >= UNIT
  {
    hide Ulp;
    if n == 0 {
      ProductZero(Ulp(k));
    } else {
      Scaled(1.0, n as real, Ulp(k));
    }
  }

  /** Rounding to binary16 finds the nearest half exactly outside the gap
      between half of the smallest half and the smallest half. */
  lemma {:induction false} NearestHalf(t: real)
    requires Abs(t) < LIMIT
    ensures HalfOf(t).Finite?
    ensures (forall h: real | IsHalf(h) :: Abs(HalfOf(t).value - t) <= Abs(h - t))
            <==> !(UNIT / 2.0 < Abs(t) < UNIT)
  {
    hide Rounded, Grid;
    HalfIsFinite(t);
    if UNIT / 2.0 < Abs(t) < UNIT {
      var h := Signed(t < 0.0, UNIT);
      UnitIsHalf(h);
      assert Abs(h - t) < Abs(HalfOf(t).value - t);
    } else {
      forall h: real | IsHalf(h) ensures Abs(HalfOf(t).value - t) <= Abs(h - t) {
        var n: nat, k: nat :| n < 2048 && k <= 29 && Abs(h) == Grid(n, k);
        GridStarts(n, k);
        NoHalfIsCloser(Abs(t), n, k);
        NoHalfIsCloser(Abs(t), 0, 0);
        GridStarts(0, 0);
      }
    }
  }

  lemma {:induction false} UnitIsHalf(h: real)
    requires Abs(h) == UNIT
    ensures IsHalf(h)
  {
    assert Abs(h) == Grid(1, 0);
  }

  /** What comes out is a half. */
  lemma {:induction false} HalfOfIsHalf(t: real)
    requires Abs(t) < LIMIT
    ensures HalfOf(t).Finite? && IsHalf(HalfOf(t).value)
  {
    hide Rounded, Spacing, Grid;
    HalfIsFinite(t);
    var m := Abs(t);
    if m < UNIT {
      GridStarts(0, 0);
      assert Abs(HalfOf(t).value) == Grid(0, 0);
    } else {
      var n, k := RoundedIsGrid(m);
      GridStarts(n, k);
      assert Abs(HalfOf(t).value) == Grid(n, k);
    }
  }

  lemma {:induction false} RoundedIsGrid(m: real) returns (n: nat, k: nat)
    requires UNIT <= m < HUGE && Rounded(m) < HUGE
    ensures n < 2048 && k <= 29 && Rounded(m) == Grid(n, k)
  {
    hide Ulp, RoundEven, Binade;
    QuotientBelow(m);
    k := Binade(m, 0);
    n := RoundEven(Over(m, Spacing(m)));
    if n == 2048 {
      Carry(k);
      n, k := 1024, k + 1;
    }
  }

  /** Rounding up to the end of a binade gives the start of the next. */
  lemma {:induction false} Carry(k: nat)
    ensures Times(2048 as real, Ulp(k)) == Grid(1024, k + 1) && (k == 29 ==> Times(2048 as real, Ulp(k)) == HUGE)
  {
    hide Ulp;
    UlpTop();
    NextUlp(k);
  }

  lemma {:induction false} NextUlp(k: nat)
    ensures Ulp(k + 1) == 2.0 * Ulp(k)
  {
  }

  lemma {:induction false} QuotientBelow(m: real)
    requires 0.0 <= m < HUGE
    ensures 0 <= RoundEven(Over(m, Spacing(m))) <= 2048
  {
    hide Spacing;
    SpacingBounds(m);
    QuotientBounds(m, Spacing(m), 2048.0);
  }

  lemma {:induction false} QuotientBounds(a: real, s: real, top: real)
    requires s > 0.0 && 0.0 <= a < top * s
    ensures 0.0 <= a / s < top
  {
    DivTimes(a, s);
    if a / s >= top {
      Scaled(top, a / s, s);
    }
  }

  /** Every half survives the trip. */
  lemma {:induction false} HalfIsExact(t: real)
    requires IsHalf(t)
    ensures HalfOf(t) == Finite(t)
  {
    hide HalfOf, Grid;
    var n: nat, k: nat :| n < 2048 && k <= 29 && Abs(t) == Grid(n, k);
    GridStarts(n, k);
    GridEnds(n, k);
    NearestHalf(t);
    assert Abs(HalfOf(t).value - t) <= Abs(t - t);
  }

  lemma {:induction false} GridEnds(n: nat, k: nat)
    requires n < 2048 && k <= 29
    ensures Grid(n, k) < LIMIT
  {
    hide Ulp;
    UlpGrows(k, 29);
    UlpTop();
    Rectangle(n as real, 2047.0, Ulp(k), 32.0);
  }
}
