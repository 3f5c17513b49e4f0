/**
 * Scalar helpers: clamping, affine remapping between ranges, truncation to a
 * number of decimals, and closeness within a tolerance.
 */
module Misc {
  import opened Results

  datatype ArithmeticError = ZeroDivision | ShapeMismatch

  function Abs(a: real): real { if a < 0.0 then -a else a }

  /**
   * `clamp(value, min_value, max_value)`: the value brought into
   * `[minValue, maxValue]`. When the range is empty (`minValue > maxValue`)
   * the outer `max` wins and the result is `minValue`.
   */
  function Clamp(value: real, minValue: real, maxValue: real): (r: real)
    ensures minValue <= maxValue ==> minValue <= r <= maxValue
    ensures minValue <= value <= maxValue ==> r == value
    ensures minValue <= maxValue && value < minValue ==> r == minValue
    ensures minValue <= maxValue && maxValue < value ==> r == maxValue
    ensures maxValue < minValue ==> r == minValue
  {
    var lower := if value <= maxValue then value else maxValue;
    if lower >= minValue then lower else minValue
  }

  /** Clamping a clamped value changes nothing. */
  lemma ClampIdempotent(value: real, minValue: real, maxValue: real)
    ensures Clamp(Clamp(value, minValue, maxValue), minValue, maxValue) == Clamp(value, minValue, maxValue)
  {
  }

  /** Clamping preserves order. */
  lemma ClampMonotone(u: real, v: real, minValue: real, maxValue: real)
    requires u <= v
    ensures Clamp(u, minValue, maxValue) <= Clamp(v, minValue, maxValue)
  {
  }

  /**
   * `map_range(old_min, old_max, new_min, new_max, value)`. Float division by
   * zero raises `ZeroDivisionError` when the old range is degenerate.
   */
  function MapRange(oldMin: real, oldMax: real, newMin: real, newMax: real, value: real): (r: Result<real, ArithmeticError>)
    ensures r.Err? <==> oldMin == oldMax
    ensures r.Err? ==> r.error == ZeroDivision
    ensures r.Ok? && value == oldMin ==> r.value == newMin
    ensures r.Ok? && value == oldMax ==> r.value == newMax
  {
    if oldMax - oldMin == 0.0 then Err(ZeroDivision)
    else Ok(newMin + ((value - oldMin) * (newMax - newMin) / (oldMax - oldMin)))
  }

  /** The map is affine: differences scale by the ratio of the range widths. */
  lemma MapRangeAffine(oldMin: real, oldMax: real, newMin: real, newMax: real, u: real, v: real)
    requires oldMin != oldMax
    ensures MapRange(oldMin, oldMax, newMin, newMax, v).value - MapRange(oldMin, oldMax, newMin, newMax, u).value
         == (v - u) * ((newMax - newMin) / (oldMax - oldMin))
  {
    ScaledQuotient(v - oldMin, newMax - newMin, oldMax - oldMin);
    ScaledQuotient(u - oldMin, newMax - newMin, oldMax - oldMin);
  }

  lemma ScaledQuotient(a: real, w: real, d: real)
    requires d != 0.0
    ensures a * w / d == a * (w / d)
  {
  }

  /** Mapping into a non-degenerate range and back returns the original value. */
  lemma MapRangeRoundTrip(oldMin: real, oldMax: real, newMin: real, newMax: real, value: real)
    requires oldMin != oldMax && newMin != newMax
    ensures MapRange(newMin, newMax, oldMin, oldMax, MapRange(oldMin, oldMax, newMin, newMax, value).value).value == value
  {
    var d := oldMax - oldMin;
    var w := newMax - newMin;
    var mapped := MapRange(oldMin, oldMax, newMin, newMax, value).value;
    assert mapped - newMin == (value - oldMin) * w / d;
    calc {
      MapRange(newMin, newMax, oldMin, oldMax, mapped).value;
      oldMin + (mapped - newMin) * d / w;
      oldMin + ((value - oldMin) * w / d) * d / w;
      { assert ((value - oldMin) * w / d) * d == (value - oldMin) * w; }
      oldMin + (value - oldMin) * w / w;
      value;
    }
  }

  /** `10 ** decimals` as a float: ten multiplied in for each positive step, divided out for each negative one. */
  function Pow10(decimals: int): (r: real)
    ensures r > 0.0
    decreases if decimals >= 0 then decimals else -decimals
  {
    if decimals == 0 then 1.0
    else if decimals > 0 then Pow10(decimals - 1) * 10.0
    else Pow10(decimals + 1) / 10.0
  }

  /** `x * 10 ** e`, one decimal shift at a time (multiply by ten up, divide by ten down). */
  function Shift(x: real, e: int): real
    decreases if e >= 0 then e else -e
  {
    if e == 0 then x else if e > 0 then Shift(x, e - 1) * 10.0 else Shift(x, e + 1) / 10.0
  }

  /** A decimal shift is multiplication by `10 ** e`. */
  lemma ShiftIsScaling(x: real, e: int)
    ensures Shift(x, e) == x * Pow10(e)
  {
    if e >= 0 {
      ShiftUpIsScaling(x, e);
    } else {
      ShiftDownIsScaling(x, -e);
    }
  }

  lemma {:induction false} ShiftUpIsScaling(x: real, n: nat)
    ensures Shift(x, n) == x * Pow10(n)
  {
    if n > 0 {
      ShiftUpIsScaling(x, n - 1);
      assert Shift(x, n) == Shift(x, n - 1) * 10.0;
      assert Pow10(n) == Pow10(n - 1) * 10.0;
      TenfoldStep(Shift(x, n), Shift(x, n - 1), x, Pow10(n), Pow10(n - 1));
    }
  }

  lemma {:induction false} ShiftDownIsScaling(x: real, n: nat)
    ensures Shift(x, -(n as int)) == x * Pow10(-(n as int))
  {
    if n > 0 {
      ShiftDownIsScaling(x, n - 1);
      assert Shift(x, -(n as int)) == Shift(x, -((n - 1) as int)) / 10.0;
      assert Pow10(-(n as int)) == Pow10(-((n - 1) as int)) / 10.0;
      TenthStep(Shift(x, -(n as int)), Shift(x, -((n - 1) as int)), x, Pow10(-(n as int)), Pow10(-((n - 1) as int)));
    }
  }

  /** One more decimal shift up: `s1 = x p1` gives `10 s1 = x (10 p1)`. */
  lemma TenfoldStep(s: real, s1: real, x: real, p: real, p1: real)
    requires s == s1 * 10.0 && s1 == x * p1 && p == p1 * 10.0
    ensures s == x * p
  {
  }

  /** One more decimal shift down: `s1 = x p1` gives `s1 / 10 = x (p1 / 10)`. */
  lemma TenthStep(s: real, s1: real, x: real, p: real, p1: real)
    requires s == s1 / 10.0 && s1 == x * p1 && p == p1 / 10.0
    ensures s == x * p
  {
  }

  /** Shifting is additive and shifting back undoes it. */
  lemma {:induction false} ShiftLinear(x: real, y: real, e: int)
    ensures Shift(x + y, e) == Shift(x, e) + Shift(y, e)
    ensures Shift(x - y, e) == Shift(x, e) - Shift(y, e)
    ensures x <= y ==> Shift(x, e) <= Shift(y, e)
    ensures x < y ==> Shift(x, e) < Shift(y, e)
    ensures Shift(Shift(x, e), -e) == x
    decreases if e >= 0 then e else -e
  {
    if e > 0 {
      ShiftLinear(x, y, e - 1);
      ShiftBack(x, e);
    } else if e < 0 {
      ShiftLinear(x, y, e + 1);
      ShiftBack(x, e);
    }
  }

  lemma {:induction false} ShiftBack(x: real, e: int)
    ensures Shift(Shift(x, e), -e) == x
    decreases if e >= 0 then e else -e
  {
    if e != 0 {
      ShiftIsScaling(x, e);
      ShiftIsScaling(Shift(x, e), -e);
      PowReciprocal(e);
      assert (x * Pow10(e)) * Pow10(-e) == x * (Pow10(e) * Pow10(-e));
    }
  }

  /** `10 ** e * 10 ** -e = 1`. */
  lemma PowReciprocal(e: int)
    ensures Pow10(e) * Pow10(-e) == 1.0
  {
    if e >= 0 {
      PowReciprocalNat(e);
    } else {
      PowReciprocalNat(-e);
      ProductCommutes(Pow10(-e), Pow10(e));
    }
  }

  lemma {:induction false} PowReciprocalNat(n: nat)
    ensures Pow10(n) * Pow10(-(n as int)) == 1.0
  {
    if n > 0 {
      PowReciprocalNat(n - 1);
      assert Pow10(n) == Pow10(n - 1) * 10.0;
      assert Pow10(-(n as int)) == Pow10(-((n - 1) as int)) / 10.0;
      ReciprocalStep(Pow10(n), Pow10(-(n as int)), Pow10(n - 1), Pow10(-((n - 1) as int)));
    }
  }

  lemma ProductCommutes(a: real, b: real)
    ensures a * b == b * a
  {
  }

  /** Multiplying one factor of a unit product by ten and dividing the other by ten keeps it one. */
  lemma ReciprocalStep(u: real, v: real, u1: real, v1: real)
    requires u == u1 * 10.0 && v == v1 / 10.0 && u1 * v1 == 1.0
    ensures u * v == 1.0
  {
  }

  /** `math.trunc`: the integer part, rounding toward zero. */
  function TruncateToInt(x: real): int
  {
    if x >= 0.0 then x.Floor else -((-x).Floor)
  }

  /** `math.trunc` lies between zero and its argument, less than one away from it. */
  lemma TruncateToIntBounds(x: real)
    ensures 0.0 <= x ==> 0.0 <= TruncateToInt(x) as real <= x < TruncateToInt(x) as real + 1.0
    ensures x < 0.0 ==> x <= TruncateToInt(x) as real <= 0.0 && TruncateToInt(x) as real - 1.0 < x
  {
  }

  /** `math.trunc` leaves a whole number unchanged. */
  lemma WholeTruncates(n: int)
    ensures TruncateToInt(n as real) == n
  {
    if n < 0 {
      assert -(n as real) == (-n) as real;
    }
  }

  predicate IsInteger(x: real) { x.Floor as real == x }

  /**
   * `trunc(value, decimals)`: `math.trunc(value * 10 ** decimals) / 10 ** decimals`,
   * that is, value with the digits after `decimals` decimal places dropped, toward zero.
   */
  function Trunc(value: real, decimals: int): real
  {
    Shift(TruncateToInt(Shift(value, decimals)) as real, -decimals)
  }

  /** The shifts in `Trunc` are the multiplication and division by `10 ** decimals`. */
  lemma TruncIsScaledTruncation(value: real, decimals: int)
    ensures Trunc(value, decimals) == (TruncateToInt(value * Pow10(decimals)) as real) / Pow10(decimals)
  {
    hide TruncateToInt;
    ShiftIsScaling(value, decimals);
    TruncOfScaled(value, decimals, value * Pow10(decimals));
  }

  /** `Trunc` is the truncation of the scaled value `s`, scaled back. */
  lemma TruncOfScaled(value: real, decimals: int, s: real)
    requires Shift(value, decimals) == s
    ensures Trunc(value, decimals) == (TruncateToInt(s) as real) / Pow10(decimals)
  {
    hide TruncateToInt;
    ShiftIsScaling(TruncateToInt(s) as real, -decimals);
    ShiftDownIsDivision(TruncateToInt(s) as real, decimals);
  }

  lemma ShiftDownIsDivision(k: real, decimals: int)
    ensures k * Pow10(-decimals) == k / Pow10(decimals)
  {
    PowReciprocal(decimals);
    hide Pow10;
    DivisionByReciprocal(k, Pow10(decimals), Pow10(-decimals));
  }

  /** Multiplying by the reciprocal of `p` is dividing by `p`. */
  lemma DivisionByReciprocal(k: real, p: real, r: real)
    requires p != 0.0 && p * r == 1.0
    ensures k * r == k / p
  {
    assert r == 1.0 / p;
  }

  /** The truncated value lies between zero and the value. */
  lemma TruncTowardZero(value: real, decimals: int)
    ensures 0.0 <= value ==> 0.0 <= Trunc(value, decimals) <= value
    ensures value <= 0.0 ==> value <= Trunc(value, decimals) <= 0.0
  {
    var scaled := Shift(value, decimals);
    var k := TruncateToInt(scaled) as real;
    assert Trunc(value, decimals) == Shift(k, -decimals);
    hide Trunc, Shift, Pow10, TruncateToInt;
    TruncateToIntBounds(scaled);
    ShiftBack(value, decimals);
    ShiftLinear(0.0, 0.0, decimals);
    ShiftLinear(0.0, 0.0, -decimals);
    ShiftLinear(value, 0.0, decimals);
    ShiftLinear(0.0, value, decimals);
    if 0.0 <= value {
      ShiftLinear(0.0, k, -decimals);
      ShiftLinear(k, scaled, -decimals);
    } else {
      ShiftLinear(k, 0.0, -decimals);
      ShiftLinear(scaled, k, -decimals);
    }
  }

  /** The truncated value is less than one step `10 ** -decimals` away from the value. */
  lemma TruncWithinOneStep(value: real, decimals: int)
    ensures Abs(value - Trunc(value, decimals)) < Shift(1.0, -decimals)
  {
    var scaled := Shift(value, decimals);
    var k := TruncateToInt(scaled) as real;
    assert Trunc(value, decimals) == Shift(k, -decimals);
    hide Trunc, Shift, Pow10, TruncateToInt;
    TruncateToIntBounds(scaled);
    ShiftBack(value, decimals);
    if 0.0 <= scaled {
      ShiftLinear(scaled, k, -decimals);
      ShiftLinear(scaled - k, 1.0, -decimals);
      ShiftLinear(k, scaled, -decimals);
    } else {
      ShiftLinear(k, scaled, -decimals);
      ShiftLinear(k - scaled, 1.0, -decimals);
      ShiftLinear(scaled, k, -decimals);
    }
  }

  /** The truncated value is a whole number of steps `10 ** -decimals`. */
  lemma TruncWhole(value: real, decimals: int)
    ensures Shift(Trunc(value, decimals), decimals) == TruncateToInt(Shift(value, decimals)) as real
    ensures IsInteger(Shift(Trunc(value, decimals), decimals))
  {
    ShiftBack(TruncateToInt(Shift(value, decimals)) as real, -decimals);
  }

  /** Truncating twice to the same number of decimals is truncating once. */
  lemma TruncIdempotent(value: real, decimals: int)
    ensures Trunc(Trunc(value, decimals), decimals) == Trunc(value, decimals)
  {
    var k := TruncateToInt(Shift(value, decimals));
    ShiftBack(k as real, -decimals);
    WholeTruncates(k);
  }

  /**
   * NumPy broadcasting of two one-dimensional operands: equal lengths pair up
   * element-wise, a single element is repeated, anything else is an error.
   */
  function Broadcast(a: seq<real>, b: seq<real>): (r: Option<(seq<real>, seq<real>)>)
    ensures r.Some? ==> |r.value.0| == |r.value.1|
    ensures r.None? <==> |a| != |b| && |a| != 1 && |b| != 1
  {
    if |a| == |b| then Some((a, b))
    else if |a| == 1 then Some((seq(|b|, _ => a[0]), b))
    else if |b| == 1 then Some((a, seq(|a|, _ => b[0])))
    else None
  }

  /**
   * `is_close(a, b, tol)`: every broadcast pair differs by less than `tol`.
   * A scalar is a one-element sequence. Incompatible shapes make NumPy raise.
   */
  function IsClose(a: seq<real>, b: seq<real>, tol: real): (r: Result<bool, ArithmeticError>)
    ensures r.Err? <==> Broadcast(a, b).None?
    ensures |a| == |b| ==> r == Ok(forall i :: 0 <= i < |a| ==> Abs(a[i] - b[i]) < tol)
    ensures |a| == 1 ==> r == Ok(forall i :: 0 <= i < |b| ==> Abs(a[0] - b[i]) < tol)
  {
    match Broadcast(a, b)
    case None => Err(ShapeMismatch)
    case Some((x, y)) => Ok(forall i :: 0 <= i < |x| ==> Abs(x[i] - y[i]) < tol)
  }

  /** Closeness does not depend on the order of the operands. */
  lemma IsCloseSymmetric(a: seq<real>, b: seq<real>, tol: real)
    ensures IsClose(a, b, tol) == IsClose(b, a, tol)
  {
    if |a| != |b| && |a| == 1 && |b| == 1 {
    } else if |a| != |b| && |b| == 1 {
      assert IsClose(a, b, tol) == Ok(forall i :: 0 <= i < |a| ==> Abs(a[i] - b[0]) < tol);
    }
  }

  /** With a positive tolerance every value is close to itself. */
  lemma IsCloseReflexive(a: seq<real>, tol: real)
    requires tol > 0.0
    ensures IsClose(a, a, tol) == Ok(true)
  {
  }
}
