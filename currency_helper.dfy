/** Conversion between an amount in a currency's main unit and an integer count of its
    smallest sub-unit, and the PHP-style decimal rounding used on the way back.
    Amounts are exact rationals; JavaScript's binary floating point is not modelled. */
module CurrencyHelper {
  import opened Wrappers

  function Pow10(n: nat): (r: nat)
    ensures r >= 1
  {
    if n == 0 then 1 else 10 * Pow10(n - 1)
  }

  /** Number of decimals of a currency's sub-unit: 8 for exactly 'BTC', 2 for anything
      else (including 'XBT', 'BSV' and an undefined currency). */
  function GetDecimalsForCurrency(currency: Option<string>): (d: nat)
    ensures d == 8 <==> currency == Some("BTC")
    ensures d != 8 ==> d == 2
  {
    if currency == Some("BTC") then 8 else 2
  }

  /** 10^p as a real scale factor (`Math.pow(10, p)`). */
  function TenTo(p: nat): (m: real)
    ensures m >= 1.0
  {
    Pow10(p) as real
  }

  /** The number of sub-units in one main unit. */
  function Scale(currency: Option<string>): (m: real)
    ensures m == 100000000.0 <==> currency == Some("BTC")
    ensures m != 100000000.0 ==> m == 100.0
  {
    TenTo(GetDecimalsForCurrency(currency))
  }

  /** JavaScript `Math.round`: the nearest integer, halves going toward +infinity. */
  function JsMathRound(x: real): (r: int)
    ensures x - 0.5 < r as real <= x + 0.5
  {
    (x + 0.5).Floor
  }

  /** JavaScript `Math.trunc`: drop the fraction, toward zero. */
  function Trunc(x: real): (r: int)
    ensures 0.0 <= x ==> 0 <= r && r as real <= x < r as real + 1.0
    ensures x < 0.0 ==> r <= 0 && r as real - 1.0 < x <= r as real
  {
    if x >= 0.0 then x.Floor else -((-x).Floor)
  }

  /** JavaScript `x % 1`: the fraction, carrying the sign of x. */
  function JsFraction(x: real): real {
    x - Trunc(x) as real
  }

  function Sign(x: real): (s: int)
    ensures s == -1 || s == 0 || s == 1
    ensures s > 0 <==> x > 0.0
    ensures s < 0 <==> x < 0.0
  {
    if x > 0.0 then 1 else if x < 0.0 then -1 else 0
  }

  /** PHP's `round(value, precision)`: `value` rounded to `precision` decimals, exact
      halves going away from zero. The value is scaled by 10^precision, rounded to a
      whole number by `RoundScaled`, and scaled back. */
  function Round(value: real, precision: nat): real {
    RoundScaled(value * TenTo(precision)) as real / TenTo(precision)
  }

  /** The steps of the phpjs implementation on the scaled value: detect an exact half
      through the signed fraction (`v % 1 === 0.5 * sgn`) and move it away from zero,
      otherwise use `Math.round`. */
  function RoundScaled(v: real): int {
    var sgn := Sign(v);
    var isHalf := JsFraction(v) == 0.5 * sgn as real;
    var f := v.Floor;
    if isHalf then f + (if sgn > 0 then 1 else 0) else JsMathRound(v)
  }

  /** Independent reference for rounding to an integer: the nearest integer, an exact
      half going away from zero. */
  function HalfAwayFromZero(x: real): (r: int)
    ensures x - 0.5 <= r as real <= x + 0.5
    ensures r as real - x == 0.5 ==> x > 0.0
    ensures x - r as real == 0.5 ==> x < 0.0
  {
    if x >= 0.0 then JsMathRound(x) else -JsMathRound(-x)
  }

  /** `fromSmallestSubunit(amount, currency)`: sub-units to main units, rounded to the
      currency's decimals. */
  function FromSmallestSubunit(amount: real, currency: Option<string>): real {
    var decimals := GetDecimalsForCurrency(currency);
    Round(amount / TenTo(decimals), decimals)
  }

  /** `toSmallestSubunit(amount, currency)`: main units to the nearest whole number of
      sub-units, halves going up. */
  function ToSmallestSubunit(amount: real, currency: Option<string>): (r: int)
    ensures amount * Scale(currency) - 0.5 < r as real <= amount * Scale(currency) + 0.5
  {
    var decimals := GetDecimalsForCurrency(currency);
    JsMathRound(amount * TenTo(decimals))
  }

  // ---------------------------------------------------------------------------
  // Rounding

  /** The phpjs steps compute exactly the reference rounding of the scaled value. */
  lemma RoundScaledIsHalfAwayFromZero(v: real)
    ensures RoundScaled(v) == HalfAwayFromZero(v)
  {
    var sgn := Sign(v);
    var isHalf := JsFraction(v) == 0.5 * sgn as real;
    if v > 0.0 {
      var n := v.Floor;
      assert Trunc(v) == n;
      if isHalf {
        FloorUnique(v + 0.5, n + 1);
      }
    } else if v < 0.0 {
      var n := (-v).Floor;
      assert Trunc(v) == -n;
      if isHalf {
        assert -v == n as real + 0.5;
        FloorUnique(v, -n - 1);
        FloorUnique(-v + 0.5, n + 1);
      } else {
        var frac := -v - n as real;
        assert 0.0 <= frac < 1.0 && frac != 0.5;
        if frac < 0.5 {
          FloorUnique(-v + 0.5, n);
          FloorUnique(v + 0.5, -n);
        } else {
          FloorUnique(-v + 0.5, n + 1);
          FloorUnique(v + 0.5, -n - 1);
        }
      }
    } else {
      FloorUnique(v, 0);
    }
  }

  /** `Round` is the reference rounding of the scaled value, scaled back. */
  lemma RoundIsHalfAwayFromZero(value: real, precision: nat)
    ensures Round(value, precision)
         == HalfAwayFromZero(value * TenTo(precision)) as real / TenTo(precision)
  {
    RoundScaledIsHalfAwayFromZero(value * TenTo(precision));
  }

  /** The scaled result of `Round` is a whole number: the value has at most `precision` decimals. */
  lemma RoundIsOnGrid(value: real, precision: nat)
    ensures var m := TenTo(precision);
            Round(value, precision) * m == HalfAwayFromZero(value * m) as real
  {
    RoundIsHalfAwayFromZero(value, precision);
    DivMulCancel(HalfAwayFromZero(value * TenTo(precision)) as real, TenTo(precision));
  }

  /** No value with at most `precision` decimals is closer to `value` than `Round(value, precision)`. */
  lemma RoundIsNearest(value: real, precision: nat, k: int)
    ensures var m := TenTo(precision);
            Abs(value * m - Round(value, precision) * m) <= Abs(value * m - k as real)
  {
    RoundIsOnGrid(value, precision);
    NearestOnGrid(value * TenTo(precision), Round(value, precision) * TenTo(precision), HalfAwayFromZero(value * TenTo(precision)), k);
  }

  /** Rounding error of `Round` is at most half a unit in the last kept decimal. */
  lemma RoundErrorBound(value: real, precision: nat)
    ensures var m := TenTo(precision);
            Abs(value * m - Round(value, precision) * m) <= 0.5
  {
    RoundIsOnGrid(value, precision);
  }

  /** An exact half is rounded away from zero: the magnitude grows. */
  lemma RoundHalfAwayFromZero(value: real, precision: nat)
    requires var v := value * TenTo(precision); v - v.Floor as real == 0.5
    ensures value > 0.0 ==> Round(value, precision) > value
    ensures value < 0.0 ==> Round(value, precision) < value
  {
    RoundIsOnGrid(value, precision);
    HalfMovesAway(value, TenTo(precision), value * TenTo(precision), Round(value, precision));
  }

  lemma HalfMovesAway(value: real, m: real, x: real, r: real)
    requires m >= 1.0 && x == value * m && x - x.Floor as real == 0.5
    requires r * m == HalfAwayFromZero(x) as real
    ensures value > 0.0 ==> r > value
    ensures value < 0.0 ==> r < value
  {
    HalfIsAwayFromZero(x);
    if value > 0.0 {
      PositiveProduct(value, m);
      CancelPositiveFactor(r, value, m);
    } else if value < 0.0 {
      PositiveProduct(-value, m);
      CancelPositiveFactor(value, r, m);
    }
  }

  /** `round` is odd: rounding a negated value gives the negated result. */
  lemma RoundIsOdd(value: real, precision: nat)
    ensures Round(-value, precision) == -Round(value, precision)
  {
    RoundIsHalfAwayFromZero(value, precision);
    RoundIsHalfAwayFromZero(-value, precision);
    assert -value * TenTo(precision) == -(value * TenTo(precision));
    OddQuotient(value * TenTo(precision), -value * TenTo(precision), TenTo(precision));
  }

  lemma OddQuotient(x: real, y: real, m: real)
    requires m >= 1.0 && y == -x
    ensures HalfAwayFromZero(y) as real / m == -(HalfAwayFromZero(x) as real / m)
  {
    HalfAwayFromZeroIsOdd(x);
    NegDiv(HalfAwayFromZero(x) as real, m);
  }

  lemma RoundOfZero(precision: nat)
    ensures Round(0.0, precision) == 0.0
  {
    RoundIsHalfAwayFromZero(0.0, precision);
    assert HalfAwayFromZero(0.0) == 0;
  }

  /** A value that already has at most `precision` decimals is left unchanged. */
  lemma RoundOfGridValue(value: real, precision: nat)
    requires var v := value * TenTo(precision); v.Floor as real == v
    ensures Round(value, precision) == value
  {
    RoundIsHalfAwayFromZero(value, precision);
    HalfAwayFromZeroOfInteger(value * TenTo(precision));
    MulDivCancel(value, TenTo(precision));
  }

  /** Rounding twice to the same precision is rounding once. */
  lemma RoundIsIdempotent(value: real, precision: nat)
    ensures Round(Round(value, precision), precision) == Round(value, precision)
  {
    RoundIsOnGrid(value, precision);
    GridValueIsFixed(Round(value, precision), precision, HalfAwayFromZero(value * TenTo(precision)));
  }

  lemma GridValueIsFixed(r: real, precision: nat, h: int)
    requires r * TenTo(precision) == h as real
    ensures Round(r, precision) == r
  {
    WholeNumber(r * TenTo(precision), h);
    RoundOfGridValue(r, precision);
  }

  lemma RoundExamples()
    ensures Round(2.5, 0) == 3.0
    ensures Round(-2.5, 0) == -3.0
    ensures Round(2.4, 0) == 2.0
  {
    RoundScaledIsHalfAwayFromZero(2.5);
    RoundScaledIsHalfAwayFromZero(-2.5);
    RoundScaledIsHalfAwayFromZero(2.4);
  }

  // ---------------------------------------------------------------------------
  // Sub-unit conversion

  /** For a whole number of sub-units, `fromSmallestSubunit` divides exactly by the scale. */
  lemma FromSmallestSubunitOfInteger(n: int, currency: Option<string>)
    ensures FromSmallestSubunit(n as real, currency) == n as real / Scale(currency)
  {
    var d := GetDecimalsForCurrency(currency);
    var value := n as real / TenTo(d);
    DivMulCancel(n as real, TenTo(d));
    assert value * TenTo(d) == n as real;
    RoundOfGridValue(value, d);
  }

  /** The two conversions are inverse on sub-units: main units and back gives the same integer. */
  lemma SubunitRoundTrip(n: int, currency: Option<string>)
    ensures ToSmallestSubunit(FromSmallestSubunit(n as real, currency), currency) == n
  {
    FromSmallestSubunitOfInteger(n, currency);
    DivMulCancel(n as real, Scale(currency));
  }

  /** The other direction holds exactly for amounts with at most the currency's decimals. */
  lemma MainUnitRoundTrip(amount: real, currency: Option<string>)
    requires var v := amount * Scale(currency); v.Floor as real == v
    ensures FromSmallestSubunit(ToSmallestSubunit(amount, currency) as real, currency) == amount
  {
    var n := ToSmallestSubunit(amount, currency);
    IntegerNear(n, (amount * Scale(currency)).Floor);
    assert n as real == amount * Scale(currency);
    FromSmallestSubunitOfInteger(n, currency);
    MulDivCancel(amount, Scale(currency));
  }

  /** For any amount, main units to sub-units and back is off by at most half a sub-unit. */
  lemma MainUnitRoundTripError(amount: real, currency: Option<string>)
    ensures var back := FromSmallestSubunit(ToSmallestSubunit(amount, currency) as real, currency);
            Abs(back - amount) * Scale(currency) <= 0.5
  {
    var n := ToSmallestSubunit(amount, currency);
    FromSmallestSubunitOfInteger(n, currency);
    var back := n as real / Scale(currency);
    DivMulCancel(n as real, Scale(currency));
    assert Abs(back * Scale(currency) - amount * Scale(currency)) <= 0.5;
    AbsScale(back - amount, Scale(currency));
  }

  /** `toSmallestSubunit` keeps the sign of the amount it converts. */
  lemma ToSmallestSubunitKeepsSign(amount: real, currency: Option<string>)
    ensures amount >= 0.0 ==> ToSmallestSubunit(amount, currency) >= 0
    ensures amount <= 0.0 ==> ToSmallestSubunit(amount, currency) <= 0
  {
    if amount > 0.0 { PositiveProduct(amount, Scale(currency)); }
    else if amount < 0.0 { PositiveProduct(-amount, Scale(currency)); }
  }

  lemma ConversionExamples()
    ensures ToSmallestSubunit(0.04657575, Some("BTC")) == 4657575
    ensures ToSmallestSubunit(-24952.59, Some("USD")) == -2495259
    ensures FromSmallestSubunit(1000000.0, Some("BTC")) == 0.01
    ensures FromSmallestSubunit(100000000.0, Some("BTC")) == 1.0
    ensures FromSmallestSubunit(1250000.0, Some("BTC")) == 0.0125
  {
    FromSmallestSubunitOfInteger(1000000, Some("BTC"));
    FromSmallestSubunitOfInteger(100000000, Some("BTC"));
    FromSmallestSubunitOfInteger(1250000, Some("BTC"));
  }

  // ---------------------------------------------------------------------------
  // Real-arithmetic helpers

  function Abs(x: real): real {
    if x < 0.0 then -x else x
  }

  lemma HalfAwayFromZeroIsOdd(x: real)
    ensures HalfAwayFromZero(-x) == -HalfAwayFromZero(x)
  {
    if x == 0.0 {
      assert JsMathRound(0.0) == 0;
    }
  }

  lemma HalfAwayFromZeroOfInteger(x: real)
    requires x.Floor as real == x
    ensures HalfAwayFromZero(x) as real == x
  {
    IntegerNear(HalfAwayFromZero(x), x.Floor);
  }

  lemma HalfIsAwayFromZero(x: real)
    requires x - x.Floor as real == 0.5
    ensures x > 0.0 ==> HalfAwayFromZero(x) as real == x + 0.5
    ensures x < 0.0 ==> HalfAwayFromZero(x) as real == x - 0.5
  {
    if x > 0.0 {
      FloorUnique(x + 0.5, x.Floor + 1);
    } else if x < 0.0 {
      FloorUnique(-x, -x.Floor - 1);
      FloorUnique(-x + 0.5, -x.Floor);
    }
  }

  /** An integer within half a unit of x is at least as close to x as any other integer. */
  lemma NearestInteger(x: real, r: int, k: int)
    requires x - 0.5 <= r as real <= x + 0.5
    ensures Abs(x - r as real) <= Abs(x - k as real)
  {
    if k > r { assert k as real >= r as real + 1.0; }
    else if k < r { assert k as real <= r as real - 1.0; }
  }

  lemma NearestOnGrid(x: real, y: real, h: int, k: int)
    requires y == h as real && x - 0.5 <= h as real <= x + 0.5
    ensures Abs(x - y) <= Abs(x - k as real)
  {
    NearestInteger(x, h, k);
  }

  lemma IntegerNear(n: int, k: int)
    requires -0.5 <= n as real - k as real <= 0.5
    ensures n == k
  {
  }

  lemma WholeNumber(x: real, h: int)
    requires x == h as real
    ensures x.Floor as real == x
  {
  }

  lemma FloorUnique(x: real, n: int)
    requires n as real <= x < n as real + 1.0
    ensures x.Floor == n
  {
  }

  lemma DivMulCancel(x: real, m: real)
    requires m > 0.0
    ensures x / m * m == x
  {
  }

  lemma MulDivCancel(x: real, m: real)
    requires m > 0.0
    ensures x * m / m == x
  {
  }

  lemma NegDiv(x: real, m: real)
    requires m > 0.0
    ensures -x / m == -(x / m)
  {
  }

  lemma PositiveProduct(x: real, m: real)
    requires x > 0.0 && m > 0.0
    ensures x * m > 0.0
  {
  }

  lemma CancelPositiveFactor(x: real, y: real, m: real)
    requires m > 0.0 && x * m > y * m
    ensures x > y
  {
  }

  lemma AbsScale(x: real, m: real)
    requires m > 0.0
    ensures Abs(x * m) == Abs(x) * m
  {
  }
}
