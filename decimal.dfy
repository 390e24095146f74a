/**
 * The numeric kernel of the sizing code: powers of ten, truncation toward zero,
 * decimal truncation (`truncate`) and the rule that turns a market's amount
 * precision into a digit count.
 *
 * Numbers are exact reals; the IEEE rounding of `10.0 ** d` and of
 * `number * factor` is not modelled.
 */
module Decimal {
  import opened Wrappers

  /** 10 raised to a natural exponent. */
  function Pow10(n: nat): (r: real)
    ensures r >= 1.0
  {
    if n == 0 then 1.0 else 10.0 * Pow10(n - 1)
  }

  lemma {:induction false} Pow10Grows(m: nat, n: nat)
    requires m < n
    ensures 10.0 * Pow10(m) <= Pow10(n)
  {
    if m + 1 < n {
      Pow10Grows(m, n - 1);
    }
  }

  /** Python's `math.trunc` / `int()` on a number: its integer part, rounding toward zero. */
  function TruncToZero(x: real): (n: int)
    ensures 0.0 <= x ==> 0 <= n && n as real <= x < n as real + 1.0
    ensures x < 0.0 ==> n <= 0 && n as real - 1.0 < x <= n as real
  {
    if x >= 0.0 then x.Floor else -((-x).Floor)
  }

  /** An integer is its own integer part. */
  lemma TruncToZeroOfInteger(k: int)
    ensures TruncToZero(k as real) == k
  {
  }

  /** `x * 10^d`, written as `d` multiplications by ten. */
  function Scaled(x: real, d: nat): real {
    if d == 0 then x else 10.0 * Scaled(x, d - 1)
  }

  /** `y / 10^d`, written as `d` divisions by ten. */
  function Unscaled(y: real, d: nat): real
    decreases d
  {
    if d == 0 then y else Unscaled(y / 10.0, d - 1)
  }

  lemma {:induction false} ScaledIsProduct(x: real, d: nat)
    ensures Scaled(x, d) == x * Pow10(d)
  {
    if d > 0 {
      ScaledIsProduct(x, d - 1);
      assert 10.0 * (x * Pow10(d - 1)) == x * (10.0 * Pow10(d - 1));
    }
  }

  lemma {:induction false} UnscaledIsQuotient(y: real, d: nat)
    ensures Unscaled(y, d) == y / Pow10(d)
    decreases d
  {
    if d > 0 {
      UnscaledIsQuotient(y / 10.0, d - 1);
      assert (y / 10.0) / Pow10(d - 1) == y / (10.0 * Pow10(d - 1));
    }
  }

  lemma {:induction false} ScaledMonotone(a: real, b: real, d: nat)
    ensures a <= b ==> Scaled(a, d) <= Scaled(b, d)
    ensures a < b ==> Scaled(a, d) < Scaled(b, d)
  {
    if d > 0 { ScaledMonotone(a, b, d - 1); }
  }

  lemma {:induction false} UnscaledMonotone(a: real, b: real, d: nat)
    ensures a <= b ==> Unscaled(a, d) <= Unscaled(b, d)
    ensures a < b ==> Unscaled(a, d) < Unscaled(b, d)
    decreases d
  {
    if d > 0 { UnscaledMonotone(a / 10.0, b / 10.0, d - 1); }
  }

  lemma {:induction false} UnscaledAdditive(a: real, b: real, d: nat)
    ensures Unscaled(a + b, d) == Unscaled(a, d) + Unscaled(b, d)
    decreases d
  {
    if d > 0 {
      assert (a + b) / 10.0 == a / 10.0 + b / 10.0;
      UnscaledAdditive(a / 10.0, b / 10.0, d - 1);
    }
  }

  lemma {:induction false} UnscaleScaled(x: real, d: nat)
    ensures Unscaled(Scaled(x, d), d) == x
  {
    if d > 0 {
      assert Scaled(x, d) / 10.0 == Scaled(x, d - 1);
      UnscaleScaled(x, d - 1);
    }
  }

  lemma {:induction false} ScaleUnscaled(y: real, d: nat)
    ensures Scaled(Unscaled(y, d), d) == y
    decreases d
  {
    if d > 0 {
      ScaleUnscaled(y / 10.0, d - 1);
      ScaledOfUnscaledStep(y, d);
    }
  }

  lemma {:induction false} ScaledOfUnscaledStep(y: real, d: nat)
    requires d > 0
    requires Scaled(Unscaled(y / 10.0, d - 1), d - 1) == y / 10.0
    ensures Scaled(Unscaled(y, d), d) == y
  {
    assert Unscaled(y, d) == Unscaled(y / 10.0, d - 1);
    assert Scaled(Unscaled(y, d), d) == 10.0 * Scaled(Unscaled(y, d), d - 1);
  }

  lemma {:induction false} ScaledZero(d: nat)
    ensures Scaled(0.0, d) == 0.0 && Unscaled(0.0, d) == 0.0
  {
    if d > 0 { ScaledZero(d - 1); }
  }

  /** `v` has at most `d` fractional digits: `v * 10^d` is an integer. */
  predicate OnGrid(v: real, d: nat) {
    Scaled(v, d).Floor as real == Scaled(v, d)
  }

  /**
   * The arithmetic of `truncate(number, decimals)` for `decimals >= 0`:
   * `math.trunc(number * 10^d) / 10^d`.  The result lies between 0 and `x`,
   * has at most `d` fractional digits and is less than `10^-d` away from `x`.
   */
  function TruncateTo(x: real, d: nat): (r: real)
    ensures OnGrid(r, d)
    ensures 0.0 <= x ==> 0.0 <= r <= x && x - r < Unscaled(1.0, d)
    ensures x < 0.0 ==> x <= r <= 0.0 && r - x < Unscaled(1.0, d)
  {
    var n := TruncToZero(Scaled(x, d));
    TruncateFacts(x, d, n);
    Unscaled(n as real, d)
  }

  /** `TruncateTo` is the literal `math.trunc(number * factor) / factor` with `factor = 10.0 ** d`. */
  lemma TruncateToIsFormula(x: real, d: nat)
    ensures TruncateTo(x, d) == TruncToZero(x * Pow10(d)) as real / Pow10(d)
  {
    ScaledIsProduct(x, d);
    UnscaledIsQuotient(TruncToZero(Scaled(x, d)) as real, d);
  }

  lemma TruncateFacts(x: real, d: nat, n: int)
    requires n == TruncToZero(Scaled(x, d))
    ensures OnGrid(Unscaled(n as real, d), d)
    ensures 0.0 <= x ==> 0.0 <= Unscaled(n as real, d) <= x && x - Unscaled(n as real, d) < Unscaled(1.0, d)
    ensures x < 0.0 ==> x <= Unscaled(n as real, d) <= 0.0 && Unscaled(n as real, d) - x < Unscaled(1.0, d)
  {
    var r := Unscaled(n as real, d);
    ScaleUnscaled(n as real, d);
    assert Scaled(r, d).Floor == n;
    UnscaleScaled(x, d);
    UnscaledAdditive(n as real, 1.0, d);
    UnscaledAdditive(n as real, -1.0, d);
    assert Unscaled(n as real - 1.0, d) == r + Unscaled(-1.0, d);
    UnscaledAdditive(1.0, -1.0, d);
    ScaledZero(d);
    if 0.0 <= x {
      ScaledMonotone(0.0, x, d);
      UnscaledMonotone(0.0, n as real, d);
      UnscaledMonotone(n as real, Scaled(x, d), d);
      UnscaledMonotone(Scaled(x, d), n as real + 1.0, d);
    } else {
      ScaledMonotone(x, 0.0, d);
      UnscaledMonotone(n as real, 0.0, d);
      UnscaledMonotone(Scaled(x, d), n as real, d);
      UnscaledMonotone(n as real - 1.0, Scaled(x, d), d);
    }
  }

  /** Truncating twice to the same digit count changes nothing. */
  lemma TruncateToIdempotent(x: real, d: nat)
    ensures TruncateTo(TruncateTo(x, d), d) == TruncateTo(x, d)
  {
    var r := TruncateTo(x, d);
    var k := Scaled(r, d).Floor;
    assert k as real == Scaled(r, d);
    TruncToZeroOfInteger(k);
    UnscaleScaled(r, d);
  }

  /**
   * Truncation toward zero keeps the grid value of largest magnitude that does
   * not overshoot: every `d`-digit value `g` between 0 and `x` is no farther
   * from 0 than the result.
   */
  lemma TruncateToIsTightest(x: real, d: nat, g: real)
    requires OnGrid(g, d)
    requires 0.0 <= g <= x || x <= g <= 0.0
    ensures 0.0 <= x ==> g <= TruncateTo(x, d)
    ensures x <= 0.0 ==> TruncateTo(x, d) <= g
  {
    var m := Scaled(g, d).Floor;
    var n := TruncToZero(Scaled(x, d));
    assert m as real == Scaled(g, d);
    UnscaleScaled(g, d);
    if 0.0 <= g && g <= x {
      ScaledMonotone(g, x, d);
      assert m <= n;
      UnscaledMonotone(m as real, n as real, d);
    }
    if x <= g && g <= 0.0 {
      ScaledMonotone(x, g, d);
      assert n <= m;
      UnscaledMonotone(n as real, m as real, d);
    }
  }

  /**
   * The `decimals` argument of `truncate`: a Python int, or any other Python
   * value (a float such as `2.0`, a string, `None`, ...).
   */
  datatype Places = IntPlaces(n: int) | NonIntPlaces

  /** `TypeError` for a non-int digit count, `ValueError` for a negative one. */
  datatype TruncError = TypeError | ValueError

  /**
   * `truncate(number, decimals)`: the argument checks come first and reject
   * bad digit counts whatever the number; with 0 decimals the result is the
   * integer part of the number, otherwise its truncation to `decimals` digits.
   */
  function Truncate(x: real, places: Places): (r: Result<real, TruncError>)
    ensures r == Failure(TypeError) <==> places.NonIntPlaces?
    ensures r == Failure(ValueError) <==> places.IntPlaces? && places.n < 0
    ensures r.Success? ==> places.IntPlaces? && places.n >= 0 && r.value == TruncateTo(x, places.n)
    ensures places == IntPlaces(0) ==> r == Success(TruncToZero(x) as real)
  {
    match places
    case NonIntPlaces => Failure(TypeError)
    case IntPlaces(n) =>
      if n < 0 then Failure(ValueError)
      else if n == 0 then Success(TruncToZero(x) as real)
      else Success(TruncateTo(x, n))
  }

  /** Truncation is toward zero, not toward minus infinity. */
  lemma TruncateExamples()
    ensures Truncate(1.2345, IntPlaces(2)) == Success(1.23)
    ensures Truncate(-1.2345, IntPlaces(2)) == Success(-1.23)
    ensures Truncate(-1.5, IntPlaces(0)) == Success(-1.0)
  {
    assert Pow10(2) == 100.0;
    assert TruncToZero(1.2345 * 100.0) == 123;
    assert TruncToZero(-1.2345 * 100.0) == -123;
  }

  /**
   * `t` is `int(math.log10(p))`, the base-10 logarithm of `p > 0` rounded
   * toward zero: for t > 0, 10^t <= p < 10^(t+1); for t == 0, 10^-1 < p < 10;
   * for t < 0, 10^(t-1) < p <= 10^t.
   */
  predicate IsTruncLog10(p: real, t: int) {
    p > 0.0 &&
    if t > 0 then Pow10(t) <= p < Pow10(t + 1)
    else if t == 0 then 1.0 / 10.0 < p < 10.0
    else 1.0 / Pow10(1 - t) < p <= 1.0 / Pow10(-t)
  }

  lemma ReciprocalShrinks(a: real, b: real)
    requires 0.0 < a <= b
    ensures 1.0 / b <= 1.0 / a
  {
  }

  /** The rounded exponent is a function of the precision value. */
  lemma {:induction false} TruncLog10Unique(p: real, t1: int, t2: int)
    requires IsTruncLog10(p, t1) && IsTruncLog10(p, t2)
    ensures t1 == t2
  {
    if t1 < t2 {
      TruncLog10Excludes(p, t1, t2);
    } else if t2 < t1 {
      TruncLog10Excludes(p, t2, t1);
    }
  }

  /** The ranges of precision values for two different exponents do not overlap. */
  lemma {:induction false} TruncLog10Excludes(p: real, t1: int, t2: int)
    requires t1 < t2 && IsTruncLog10(p, t1)
    ensures !IsTruncLog10(p, t2)
  {
    if 0 < t1 {
      Pow10Grows(t1, t2);
    } else if t1 == 0 {
      Pow10Grows(0, t2);
    } else if 0 <= t2 {
      Pow10Grows(0, -t1);
      ReciprocalShrinks(10.0, Pow10(-t1));
      if 0 < t2 { Pow10Grows(0, t2); }
    } else {
      // t1 < t2 < 0, so 10^(t2 - 1) >= 10^t1
      if 1 - t2 < -t1 { Pow10Grows(1 - t2, -t1); }
      ReciprocalShrinks(Pow10(1 - t2), Pow10(-t1));
    }
  }

  /**
   * The sizing code's digit count `int(math.sqrt((t + 1) ** 2)) + 1` for the
   * rounded exponent `t` of the market's amount precision: one more than the
   * non-negative square root of `(t + 1)^2`, hence at least 1.
   */
  function PrecisionDigits(t: int): (d: nat)
    ensures d >= 1
    ensures (d - 1) * (d - 1) == (t + 1) * (t + 1)
  {
    if t + 1 >= 0 then t + 2 else -t
  }

  /** A step size of 10^-k (k >= 1), such as 0.0001, yields exactly k digits. */
  lemma {:induction false} DecimalStepDigits(k: nat, t: int)
    requires k >= 1
    requires IsTruncLog10(1.0 / Pow10(k), t)
    ensures PrecisionDigits(t) == k
  {
    assert Pow10(k + 1) == 10.0 * Pow10(k);
    ReciprocalShrinks(Pow10(k), Pow10(k + 1));
    assert 1.0 / Pow10(k + 1) < 1.0 / Pow10(k);
    assert IsTruncLog10(1.0 / Pow10(k), -(k as int));
    TruncLog10Unique(1.0 / Pow10(k), t, -(k as int));
  }

  /** The digit count depends on the precision value alone. */
  lemma DigitsDeterminedByPrecision(p: real, t1: int, t2: int)
    requires IsTruncLog10(p, t1) && IsTruncLog10(p, t2)
    ensures PrecisionDigits(t1) == PrecisionDigits(t2)
  {
    TruncLog10Unique(p, t1, t2);
  }
}
