/** The numeric core of the quantizer, over the reals. */
module QuantError {

  function Abs(x: real): real {
    if x < 0.0 then -x else x
  }

  /** Nearest integer, halves away from zero. */
  function Round(t: real): (n: int)
    ensures -0.5 <= n as real - t <= 0.5
  {
    if t >= 0.0 then (t + 0.5).Floor else -((-t + 0.5).Floor)
  }

  function Clamp(n: int, most: nat): (c: nat)
    ensures c <= most
  {
    if n < 0 then 0 else if n > most then most else n
  }

  function Levels(bits: nat): nat {
    if bits == 2 then 4 else 16
  }

  function Code(x: real, scale: real, zero: real, bits: nat): (c: nat)
    ensures c < Levels(bits)
  {
    if scale == 0.0 then 0 else Clamp(Round((x - zero) / scale), Levels(bits) - 1)
  }

  function Value(code: nat, scale: real, zero: real): real {
    zero + code as real * scale
  }

  function Step(range: real, bits: nat): real {
    range / (Levels(bits) - 1) as real
  }

  function Slack(step: real, zeroRounding: real): real {
    step * (0.5 + 1.0 / 2048.0) + zeroRounding
  }

  /** The documented bound for one group. */
  function ErrorBound(range: real, zeroRounding: real, bits: nat): real {
    Slack(Step(range, bits), zeroRounding)
  }

  /** The half-precision scale is within a relative 2^-11 of the step. */
  predicate Accurate(scale: real, step: real) {
    Abs(scale - step) <= step / 2048.0
  }

  lemma {:induction false} Scaled(a: real, b: real, s: real)
    requires a <= b && s >= 0.0
    ensures a * s <= b * s
  {
    assert (b - a) * s >= 0.0;
  }

  lemma {:induction false} DivTimes(a: real, s: real)
    requires s != 0.0
    ensures a / s * s == a
  {
    var q := a / s;
    assert s * q == a;
  }

  lemma {:induction false} TimesDiv(a: real, s: real)
    requires s != 0.0
    ensures a * s / s == a
  {
    assert a * s / s == a * (s / s);
  }

  lemma {:induction false} Spread(a: real, b: real, s: real)
    ensures (a - b) * s == a * s - b * s
  {
  }

  lemma {:induction false} ProductZero(m: real)
    ensures 0.0 * m == 0.0
  {
  }

  lemma {:induction false} LevelBounds(bits: nat)
    ensures 3 <= Levels(bits) - 1 <= 15
  {
  }

  /** A code that was not clamped is off by at most half a step. */
  lemma {:induction false} NearestError(x: real, zero: real, s: real, n: real)
    requires s > 0.0 && -0.5 <= n - (x - zero) / s <= 0.5
    ensures -0.5 * s <= zero + n * s - x <= 0.5 * s
  {
    var t := (x - zero) / s;
    DivTimes(x - zero, s);
    Scaled(n - t, 0.5, s);
    Scaled(-0.5, n - t, s);
    Spread(n, t, s);
  }

  /** Below the lowest code only the zero point can be to blame. */
  lemma {:induction false} ClampedLow(x: real, zero: real, s: real)
    requires s > 0.0 && (x - zero) / s <= 0.0
    ensures x <= zero
  {
    DivTimes(x - zero, s);
    Scaled((x - zero) / s, 0.0, s);
  }

  lemma {:induction false} ClampedHigh(x: real, zero: real, s: real, most: real)
    requires s > 0.0 && (x - zero) / s >= most
    ensures zero + most * s <= x
  {
    DivTimes(x - zero, s);
    Scaled(most, (x - zero) / s, s);
  }

  lemma {:induction false} StepTimes(range: real, bits: nat)
    ensures Step(range, bits) * (Levels(bits) - 1) as real == range
    ensures range >= 0.0 ==> Step(range, bits) >= 0.0
  {
    DivTimes(range, (Levels(bits) - 1) as real);
    if range >= 0.0 {
      var d := (Levels(bits) - 1) as real;
      assert d == 3.0 || d == 15.0;
    }
  }

  /** Losing a relative 2^-11 per step adds up to less than half a step. */
  lemma {:induction false} ScaleLoss(scale: real, step: real, most: real)
    requires Accurate(scale, step) && step >= 0.0 && 3.0 <= most <= 15.0
    ensures step * most - most * scale <= step * 0.5
  {
    var loss := step / 2048.0;
    assert loss >= 0.0 && 15.0 * loss <= step * 0.5 && step - scale <= loss;
    Scaled(step - scale, loss, most);
    Scaled(most, 15.0, loss);
    Spread(step, scale, most);
  }

  // ---------------------------------------------------------------------
  // The nearest level
  // ---------------------------------------------------------------------

  lemma {:induction false} Farther(x: real, p: real, q: real)
    requires x <= p <= q || q <= p <= x
    ensures Abs(p - x) <= Abs(q - x)
  {
  }

  /** Levels a whole scale away are no closer. */
  lemma {:induction false} OneApart(x: real, s: real, p: real, q: real)
    requires -0.5 * s <= p - x <= 0.5 * s && (p == q || q >= p + s || q <= p - s)
    ensures Abs(p - x) <= Abs(q - x)
  {
  }

  lemma {:induction false} LevelsApart(a: nat, b: nat, scale: real, zero: real)
    requires scale >= 0.0 && a <= b
    ensures Value(a, scale, zero) <= Value(b, scale, zero)
    ensures a < b ==> Value(a, scale, zero) + scale <= Value(b, scale, zero)
  {
    Scaled(a as real, b as real, scale);
    if a < b {
      Scaled(a as real + 1.0, b as real, scale);
      assert (a as real + 1.0) * scale == a as real * scale + scale;
    }
  }

  /** The code of an element is the lowest, the highest, or half a scale off. */
  lemma {:induction false} CodeIsHalfOff(x: real, scale: real, zero: real, bits: nat)
    requires scale > 0.0
    ensures var code, most := Code(x, scale, zero, bits), Levels(bits) - 1;
            || (code == 0 && x <= Value(0, scale, zero))
            || (code == most && Value(most, scale, zero) <= x)
            || -0.5 * scale <= Value(code, scale, zero) - x <= 0.5 * scale
  {
    hide Levels, Round;
    var n := Round((x - zero) / scale);
    if n < 0 {
      ClampedLow(x, zero, scale);
      ProductZero(scale);
    } else if n > Levels(bits) - 1 {
      ClampedHigh(x, zero, scale, (Levels(bits) - 1) as real);
    } else {
      NearestError(x, zero, scale, n as real);
    }
  }

  /** No level is closer to an element than the one its code names. */
  lemma {:induction false} CodeIsNearest(x: real, scale: real, zero: real, bits: nat, c: nat)
    requires scale >= 0.0 && c < Levels(bits)
    ensures Abs(Value(Code(x, scale, zero, bits), scale, zero) - x) <= Abs(Value(c, scale, zero) - x)
  {
    hide Code, Levels, Abs, Value;
    var code := Code(x, scale, zero, bits);
    if scale == 0.0 {
      SameLevel(c, zero);
      SameLevel(code, zero);
    } else {
      CodeIsHalfOff(x, scale, zero, bits);
      LevelsApart(if code < c then code else c, if code < c then c else code, scale, zero);
      if -0.5 * scale <= Value(code, scale, zero) - x <= 0.5 * scale {
        OneApart(x, scale, Value(code, scale, zero), Value(c, scale, zero));
      } else {
        Farther(x, Value(code, scale, zero), Value(c, scale, zero));
      }
    }
  }

  lemma {:induction false} SameLevel(c: nat, zero: real)
    ensures Value(c, 0.0, zero) == zero
  {
    ProductZero(c as real);
  }

  // ---------------------------------------------------------------------
  // When the documented bound holds
  // ---------------------------------------------------------------------

  /** An element decodes to within the documented bound. */
  predicate Close(x: real, low: real, high: real, scale: real, zero: real, bits: nat) {
    Abs(Value(Code(x, scale, zero, bits), scale, zero) - x) <= ErrorBound(high - low, Abs(zero - low), bits)
  }

  /** Some level lies within the documented bound. */
  ghost predicate NearLevel(x: real, low: real, high: real, scale: real, zero: real, bits: nat) {
    exists c: nat ::
      c < Levels(bits) && Abs(Value(c, scale, zero) - x) <= ErrorBound(high - low, Abs(zero - low), bits)
  }

  /** One element is close exactly if any level would be. */
  lemma {:induction false} CloseIsNearLevel(x: real, low: real, high: real, scale: real, zero: real, bits: nat)
    requires scale >= 0.0
    ensures Close(x, low, high, scale, zero, bits) <==> NearLevel(x, low, high, scale, zero, bits)
  {
    hide Code, Levels, Value, ErrorBound, Abs;
    if NearLevel(x, low, high, scale, zero, bits) {
      var c: nat :|
        c < Levels(bits) && Abs(Value(c, scale, zero) - x) <= ErrorBound(high - low, Abs(zero - low), bits);
      CodeIsNearest(x, scale, zero, bits, c);
    }
  }

  /** How far the group's top may lie above what its codes reach. Where half a
      scale is within the bound only the top code matters; where it is not,
      nothing but the zero point is close to anything. */
  predicate Meets(low: real, high: real, scale: real, zero: real, bits: nat) {
    var bound := ErrorBound(high - low, Abs(zero - low), bits);
    if 0.5 * scale <= bound then high - zero - (Levels(bits) - 1) as real * scale <= bound else high - zero <= bound
  }

  lemma {:induction false} BoundCovers(low: real, high: real, zero: real, bits: nat)
    requires low <= high
    ensures Abs(zero - low) <= ErrorBound(high - low, Abs(zero - low), bits)
  {
    hide Step;
    StepTimes(high - low, bits);
  }

  /** Less than half a scale from the zero point the code is zero. */
  lemma {:induction false} NearZero(x: real, scale: real, zero: real, bits: nat)
    requires scale > 0.0 && -0.5 * scale < x - zero < 0.5 * scale
    ensures Value(Code(x, scale, zero, bits), scale, zero) == zero
  {
    hide Levels;
    var t := (x - zero) / scale;
    assert -0.5 < t < 0.5 by {
      DivTimes(x - zero, scale);
      if t >= 0.5 {
        Scaled(0.5, t, scale);
      } else if t <= -0.5 {
        Scaled(t, -0.5, scale);
      }
    }
    assert Round(t) == 0;
    ProductZero(scale);
  }

  /** Halfway between the two lowest codes an element is off by half a scale. */
  lemma {:induction false} Halfway(scale: real, zero: real, bits: nat)
    requires scale > 0.0
    ensures Abs(Value(Code(zero + 0.5 * scale, scale, zero, bits), scale, zero) - (zero + 0.5 * scale)) == 0.5 * scale
  {
    hide Levels;
    LevelBounds(bits);
    var t := 0.5 * scale / scale;
    TimesDiv(0.5, scale);
    assert Round(t) == 1;
  }

  /** From half a scale above the top code on, an element has the top code. */
  lemma {:induction false} TopCode(x: real, scale: real, zero: real, bits: nat)
    requires scale > 0.0 && x - zero - (Levels(bits) - 1) as real * scale >= 0.5 * scale
    ensures Value(Code(x, scale, zero, bits), scale, zero) == zero + (Levels(bits) - 1) as real * scale
  {
    hide Levels;
    var most := Levels(bits) - 1;
    var t := (x - zero) / scale;
    LevelBounds(bits);
    assert t >= most as real by {
      DivTimes(x - zero, scale);
      if t < most as real {
        Scaled(t, most as real, scale);
      }
    }
    assert Round(t) >= most;
  }

  lemma {:induction false} ScaleZero(x: real, low: real, high: real, zero: real, bits: nat)
    requires low <= x <= high
    ensures Close(high, low, high, 0.0, zero, bits) <==> Meets(low, high, 0.0, zero, bits)
    ensures Meets(low, high, 0.0, zero, bits) ==> Close(x, low, high, 0.0, zero, bits)
  {
    hide Levels, ErrorBound;
    BoundCovers(low, high, zero, bits);
    ProductZero(0.0);
    ProductZero((Levels(bits) - 1) as real);
  }

  /** Whatever the scale, the condition is enough for every element. */
  lemma {:induction false} MeetsIsEnough(x: real, low: real, high: real, scale: real, zero: real, bits: nat)
    requires low <= x <= high && scale >= 0.0 && Meets(low, high, scale, zero, bits)
    ensures Close(x, low, high, scale, zero, bits)
  {
    hide Code, Levels, ErrorBound;
    BoundCovers(low, high, zero, bits);
    if scale == 0.0 {
      ScaleZero(x, low, high, zero, bits);
    } else if 0.5 * scale <= ErrorBound(high - low, Abs(zero - low), bits) {
      CodeIsHalfOff(x, scale, zero, bits);
      ProductZero(scale);
    } else {
      NearZero(x, scale, zero, bits);
    }
  }

  /** Where half a scale is within the bound, the greatest element decides. */
  lemma {:induction false} TopDecides(low: real, high: real, scale: real, zero: real, bits: nat)
    requires low <= high && scale >= 0.0 && 0.5 * scale <= ErrorBound(high - low, Abs(zero - low), bits)
    ensures Close(high, low, high, scale, zero, bits) <==> Meets(low, high, scale, zero, bits)
  {
    hide Code, Levels, Value, ErrorBound;
    if Meets(low, high, scale, zero, bits) {
      MeetsIsEnough(high, low, high, scale, zero, bits);
    } else if scale == 0.0 {
      ScaleZero(high, low, high, zero, bits);
    } else {
      TopCode(high, scale, zero, bits);
    }
  }

  /** An element of the range that is too far from every code. */
  function Astray(high: real, scale: real, zero: real): real {
    if high - zero < 0.5 * scale then high else zero + 0.5 * scale
  }

  lemma {:induction false} GapFails(low: real, high: real, scale: real, zero: real, bits: nat)
    requires low <= high && 0.5 * scale > ErrorBound(high - low, Abs(zero - low), bits)
    requires !Meets(low, high, scale, zero, bits)
    ensures low <= Astray(high, scale, zero) <= high && !Close(Astray(high, scale, zero), low, high, scale, zero, bits)
  {
    hide Code, Levels, Value, ErrorBound;
    BoundCovers(low, high, zero, bits);
    if high - zero < 0.5 * scale {
      NearZero(high, scale, zero, bits);
    } else {
      Halfway(scale, zero, bits);
    }
  }

  /** Every value of a range decodes to within the documented bound exactly if
      the rounded scale and zero point meet the condition. */
  lemma {:induction false} BoundDecides(low: real, high: real, scale: real, zero: real, bits: nat)
    requires low <= high && scale >= 0.0
    ensures (forall x: real | low <= x <= high :: Close(x, low, high, scale, zero, bits))
            <==> Meets(low, high, scale, zero, bits)
  {
    hide Meets, Close, ErrorBound;
    if Meets(low, high, scale, zero, bits) {
      forall x: real | low <= x <= high ensures Close(x, low, high, scale, zero, bits) {
        MeetsIsEnough(x, low, high, scale, zero, bits);
      }
    } else if 0.5 * scale <= ErrorBound(high - low, Abs(zero - low), bits) {
      TopDecides(low, high, scale, zero, bits);
    } else {
      GapFails(low, high, scale, zero, bits);
    }
  }

  /** An accurate scale meets it. */
  lemma {:induction false} AccurateMeets(low: real, high: real, scale: real, zero: real, bits: nat)
    requires low <= high && Accurate(scale, Step(high - low, bits))
    ensures scale >= 0.0 && Meets(low, high, scale, zero, bits)
  {
    hide Step, Levels;
    StepTimes(high - low, bits);
    LevelBounds(bits);
    ScaleLoss(scale, Step(high - low, bits), (Levels(bits) - 1) as real);
  }

  /** So every element of a group decodes to within the documented bound, also
      when its code was clamped at either end. */
  lemma {:induction false} DecodedIsClose(x: real, low: real, high: real, scale: real, zero: real, bits: nat)
    requires low <= x <= high && Accurate(scale, Step(high - low, bits))
    ensures Close(x, low, high, scale, zero, bits)
  {
    hide Step, Accurate, Meets, Close;
    AccurateMeets(low, high, scale, zero, bits);
    MeetsIsEnough(x, low, high, scale, zero, bits);
  }
}
