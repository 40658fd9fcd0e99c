/**
 * The `Decimal` arithmetic behind the time-increment checks, in Python's
 * default context: 28 significant digits, ties rounded to even, and an
 * invalid operation raising `InvalidOperation`.
 */
module Decimals {
  import opened Wrappers
  import opened Text

  /** The exception a `Decimal` operation raises in the default context. */
  datatype DecimalError = InvalidOperation

  /** The magnitude of a decimal. */
  function Abs(x: real): real {
    if x < 0.0 then -x else x
  }

  /**
   * Rounding to an integer as `Decimal` does by default (and as `.0f`
   * formatting does): the nearest integer, and on a tie the even one.
   */
  function RoundHalfEven(x: real): (n: int)
    ensures -0.5 <= n as real - x <= 0.5
    ensures (n as real - x == 0.5 || x - n as real == 0.5) ==> n % 2 == 0
    ensures x >= 0.0 ==> n >= 0
  {
    var f := x.Floor;
    var d := x - f as real;
    assert 0.0 <= d < 1.0;
    if d < 0.5 then f
    else if d > 0.5 then f + 1
    else if f % 2 == 0 then f
    else
      assert f == 2 * (f / 2) + 1 && f + 1 == 2 * (f / 2 + 1);
      f + 1
  }

  /** The rounded value is the only integer closer than one half, and the only even one at exactly one half. */
  lemma RoundHalfEvenUnique(x: real, m: int)
    ensures -0.5 < m as real - x < 0.5 ==> m == RoundHalfEven(x)
    ensures (m as real - x == 0.5 || x - m as real == 0.5) && m % 2 == 0 ==> m == RoundHalfEven(x)
  {
    var n := RoundHalfEven(x);
    if -0.5 < m as real - x < 0.5 {
      assert -1 < m - n < 1;
    }
    if x - m as real == 0.5 {
      assert x.Floor == m;
    } else if m as real - x == 0.5 {
      assert x.Floor == m - 1;
      if m % 2 == 0 {
        assert (m - 1) % 2 == 1;
      }
    }
  }

  /** The number of decimal digits of `n`. */
  function Digits(n: nat): (a: nat)
    ensures a >= 1 && n < Pow10(a)
    ensures n > 0 ==> Pow10(a - 1) <= n
  {
    if n < 10 then 1
    else
      var rest := Digits(n / 10);
      assert n < 10 * (n / 10 + 1) <= 10 * Pow10(rest);
      rest + 1
  }

  lemma {:induction false} Pow10Add(a: nat, b: nat)
    ensures Pow10(a + b) == Pow10(a) * Pow10(b)
    decreases b
  {
    if b > 0 {
      Pow10Add(a, b - 1);
      assert Pow10(a + b) == 10 * Pow10(a + b - 1);
    }
  }

  lemma {:induction false} Pow10Grows(a: nat, b: nat)
    requires a <= b
    ensures Pow10(a) <= Pow10(b)
    decreases b - a
  {
    if a < b {
      Pow10Grows(a, b - 1);
    }
  }

  /** Every power of ten leaves one over a multiple of three. */
  lemma {:induction false} Pow10ModThree(a: nat)
    ensures Pow10(a) % 3 == 1
  {
    if a > 0 {
      Pow10ModThree(a - 1);
      var p := Pow10(a - 1);
      assert Pow10(a) == 10 * p;
      ModThreeProduct(10, p);
    }
  }

  /** 10^27, the place of the leading digit once a quotient is scaled to 28 digits. */
  const Unit: int := 1000000000000000000000000000

  /** 10^28: a whole part this large no longer fits the context's 28 digits. */
  const Limit: int := 10000000000000000000000000000

  lemma Pow10Unit()
    ensures Pow10(27) == Unit && Pow10(28) == Limit
    ensures Pow10(29) == 100 * Unit && Pow10(30) == 1000 * Unit
  {
    assert Pow10(9) == 1000000000;
    Pow10Add(9, 9);
    Pow10Add(18, 9);
  }

  lemma RealMulLe(a: real, b: real, r: real)
    requires a <= b && r > 0.0
    ensures a * r <= b * r
  {
  }

  lemma RealMulLt(a: real, b: real, r: real)
    requires a < b && r > 0.0
    ensures a * r < b * r
  {
  }

  /** `x * 10^k`: the decimal point of `x` moved `k` places, right for k > 0 and left for k < 0. */
  function ShiftPoint(x: real, k: int): real
    decreases if k < 0 then -k else k
  {
    if k == 0 then x
    else if k > 0 then 10.0 * ShiftPoint(x, k - 1)
    else ShiftPoint(x, k + 1) / 10.0
  }

  /** One more place to the right is ten times as much, wherever the point stands. */
  lemma ShiftStep(x: real, k: int)
    ensures ShiftPoint(x, k + 1) == 10.0 * ShiftPoint(x, k)
  {
    if k < -1 {
      assert ShiftPoint(x, k) == ShiftPoint(x, k + 1) / 10.0;
    } else if k == -1 {
      assert ShiftPoint(x, k) == x / 10.0;
    }
  }

  /** Two moves of the point add up. */
  lemma {:induction false} ShiftCompose(x: real, a: int, b: int)
    ensures ShiftPoint(ShiftPoint(x, a), b) == ShiftPoint(x, a + b)
    decreases if b < 0 then -b else b
  {
    if b > 0 {
      ShiftCompose(x, a, b - 1);
      ShiftStep(x, a + b - 1);
    } else if b < 0 {
      ShiftCompose(x, a, b + 1);
      ShiftStep(x, a + b);
    }
  }

  /** Moving the point multiplies by a positive factor, the shift of 1. */
  lemma {:induction false} ShiftFactor(x: real, k: int)
    ensures ShiftPoint(1.0, k) > 0.0
    ensures ShiftPoint(x, k) == x * ShiftPoint(1.0, k)
    decreases if k < 0 then -k else k
  {
    if k > 0 {
      ShiftFactor(x, k - 1);
      ShiftFactor(1.0, k - 1);
    } else if k < 0 {
      ShiftFactor(x, k + 1);
      ShiftFactor(1.0, k + 1);
    }
  }

  /** Moving the point of 1 right by `k` places gives 10^k. */
  lemma {:induction false} ShiftOnePow(k: nat)
    ensures ShiftPoint(1.0, k) == Pow10(k) as real
  {
    if k > 0 {
      ShiftOnePow(k - 1);
    }
  }

  /** Moving the point `k` places and back again restores the value. */
  lemma ShiftInverse(k: int)
    ensures ShiftPoint(1.0, k) * ShiftPoint(1.0, -k) == 1.0
  {
    ShiftCompose(1.0, k, -k);
    ShiftFactor(ShiftPoint(1.0, k), -k);
  }

  /**
   * How far to move the point of `n / 60`, for n > 0, so that 28 digits
   * stand before it: the leading digit of the quotient lands in the 10^27
   * place.
   */
  function SixtiethShift(n: nat): (k: int)
    requires n > 0
    ensures Unit as real <= ShiftPoint(n as real / 60.0, k) < 10.0 * Unit as real
  {
    var a := Digits(n);
    var i := if n < 6 * Pow10(a - 1) then 30 else 29;
    SixtiethShiftRange(n, a, i);
    i - a
  }

  lemma SixtiethShiftRange(n: nat, a: nat, i: nat)
    requires n > 0 && a == Digits(n) && i == (if n < 6 * Pow10(a - 1) then 30 else 29)
    ensures Unit as real <= ShiftPoint(n as real / 60.0, i - a) < 10.0 * Unit as real
  {
    ShiftOnePow(a);
    ShiftOnePow(a - 1);
    ShiftStep(1.0, a - 1);
    ShiftOnePow(i);
    Pow10Unit();
    LeadRange(n as real, i, a);
  }

  /** The quotient `n / 60` moved by `i - a` places, where `n` has `a` digits and `i` is chosen by its leading digit. */
  lemma LeadRange(n: real, i: int, a: int)
    requires ShiftPoint(1.0, i) == 1000.0 * Unit as real || ShiftPoint(1.0, i) == 100.0 * Unit as real
    requires ShiftPoint(1.0, i) == 1000.0 * Unit as real ==> ShiftPoint(1.0, a) <= 10.0 * n < 6.0 * ShiftPoint(1.0, a)
    requires ShiftPoint(1.0, i) == 100.0 * Unit as real ==> 6.0 * ShiftPoint(1.0, a) <= 10.0 * n < 10.0 * ShiftPoint(1.0, a)
    ensures Unit as real <= ShiftPoint(n / 60.0, i - a) < 10.0 * Unit as real
  {
    ShiftRatioOne(i, a);
    ShiftFactor(n / 60.0, i - a);
    var pa := ShiftPoint(1.0, a);
    var g := ShiftPoint(1.0, -a);
    if ShiftPoint(1.0, i) == 1000.0 * Unit as real {
      LowLeadRange(n, pa, g, ShiftPoint(1.0, i - a));
    } else {
      HighLeadRange(n, pa, g, ShiftPoint(1.0, i - a));
    }
  }

  /** Moving the point by `i - a` is moving it by `i` and then back by `a`. */
  lemma ShiftRatioOne(i: int, a: int)
    ensures ShiftPoint(1.0, -a) > 0.0
    ensures ShiftPoint(1.0, a) * ShiftPoint(1.0, -a) == 1.0
    ensures ShiftPoint(1.0, i - a) == ShiftPoint(1.0, i) * ShiftPoint(1.0, -a)
  {
    ShiftInverse(a);
    ShiftFactor(ShiftPoint(1.0, i), -a);
    ShiftCompose(1.0, i, -a);
  }

  /** A quotient `n / pa` in [0.1, 0.6), scaled by 10^30 / 60. */
  lemma LowLeadRange(n: real, pa: real, g: real, f: real)
    requires pa > 0.0 && g > 0.0 && pa * g == 1.0 && f == 1000.0 * Unit as real * g
    requires pa <= 10.0 * n && 10.0 * n < 6.0 * pa
    ensures Unit as real <= n / 60.0 * f < 10.0 * Unit as real
  {
    var r := n * g;
    RealMulLe(pa, 10.0 * n, g);
    RealMulLt(10.0 * n, 6.0 * pa, g);
    assert n / 60.0 * f == r * (1000.0 * Unit as real) / 60.0;
  }

  /** A quotient `n / pa` in [0.6, 1), scaled by 10^29 / 60. */
  lemma HighLeadRange(n: real, pa: real, g: real, f: real)
    requires pa > 0.0 && g > 0.0 && pa * g == 1.0 && f == 100.0 * Unit as real * g
    requires 6.0 * pa <= 10.0 * n && n < pa
    ensures Unit as real <= n / 60.0 * f < 10.0 * Unit as real
  {
    var r := n * g;
    RealMulLe(6.0 * pa, 10.0 * n, g);
    RealMulLt(n, pa, g);
    assert n / 60.0 * f == r * (100.0 * Unit as real) / 60.0;
  }

  /** Half a unit of `g` is at most the scaled-back value `q = x * g` when `x` is at least `Unit`. */
  lemma HalfUnitBound(c: real, x: real, g: real, h: real, q: real)
    requires g > 0.0 && x >= Unit as real && Abs(c - x) * 2.0 <= 1.0
    requires h == c * g && q == x * g
    ensures h > 0.0
    ensures Abs(h - q) * 2.0 * Unit as real <= q
  {
    var d := c - x;
    RealMulLe(1.0, c, g);
    assert h - q == d * g;
    AbsScale(d, g);
    HalfScaled(Abs(d), g, Unit as real, x);
  }

  /** A deviation of at most half, scaled by `g` and then by `u <= x`, stays within `x * g`. */
  lemma HalfScaled(a: real, g: real, u: real, x: real)
    requires a * 2.0 <= 1.0 && g > 0.0 && u > 0.0 && u <= x
    ensures a * g * 2.0 * u <= x * g
  {
    RealMulLe(a * 2.0, 1.0, g);
    assert a * g * 2.0 == a * 2.0 * g;
    RealMulLe(a * g * 2.0, g, u);
    RealMulLe(u, x, g);
  }

  lemma AbsScale(d: real, g: real)
    requires g > 0.0
    ensures Abs(d * g) == Abs(d) * g
  {
    if d < 0.0 {
      assert d * g == -((-d) * g);
    }
  }

  /**
   * `n / 60` for n > 0, rounded half-even to 28 significant digits: the
   * point is moved so that 28 digits stand before it, the quotient is
   * rounded to a whole number, and the point is moved back.
   */
  function RoundedSixtieth(n: nat): (h: real)
    requires n > 0
    ensures h > 0.0
    ensures Abs(h - n as real / 60.0) * 2.0 * Unit as real <= n as real / 60.0
  {
    var k := SixtiethShift(n);
    var x := ShiftPoint(n as real / 60.0, k);
    var c := RoundHalfEven(x);
    RoundedBound(n as real / 60.0, c as real, k);
    ShiftPoint(c as real, -k)
  }

  /** Rounding the shifted quotient and shifting back keeps within half a unit in the 28th digit of `q`. */
  lemma RoundedBound(q: real, c: real, k: int)
    requires Unit as real <= ShiftPoint(q, k) && -0.5 <= c - ShiftPoint(q, k) <= 0.5
    ensures ShiftPoint(c, -k) > 0.0
    ensures Abs(ShiftPoint(c, -k) - q) * 2.0 * Unit as real <= q
  {
    var x := ShiftPoint(q, k);
    var g := ShiftPoint(1.0, -k);
    ShiftFactor(x, -k);
    ShiftFactor(c, -k);
    ShiftCompose(q, k, -k);
    HalfUnitBound(c, x, g, ShiftPoint(c, -k), q);
  }

  /**
   * `Decimal(str(minutes)) / Decimal("60")`: the quotient rounded half-even
   * to 28 significant digits, with the sign of `minutes`.  It is within
   * half a unit in the 28th digit of the exact quotient.
   */
  function IncrementHours(minutes: int): (h: real)
    ensures minutes == 0 <==> h == 0.0
    ensures minutes > 0 <==> h > 0.0
    ensures Abs(h - minutes as real / 60.0) * 2.0 * Unit as real <= Abs(minutes as real / 60.0)
  {
    if minutes == 0 then 0.0
    else if minutes > 0 then RoundedSixtieth(minutes)
    else
      var h := RoundedSixtieth(-minutes);
      assert Abs(-h - minutes as real / 60.0) == Abs(h - (-minutes) as real / 60.0);
      -h
  }

  /**
   * The quotient is exact exactly when `minutes` is a multiple of three
   * (below 10^27 minutes): otherwise `minutes / 60` has no finite decimal
   * expansion and is rounded.
   */
  lemma IncrementHoursExact(minutes: int)
    requires -Unit < minutes < Unit
    ensures IncrementHours(minutes) == minutes as real / 60.0 <==> minutes % 3 == 0
  {
    if minutes != 0 {
      var n: nat := if minutes < 0 then -minutes else minutes;
      assert minutes % 3 == 0 <==> n % 3 == 0;
      SixtiethExact(n);
    }
  }

  /** The 15-minute increment is exactly a quarter hour. */
  lemma QuarterIncrement()
    ensures IncrementHours(15) == 0.25
  {
    IncrementHoursExact(15);
    assert 15 as real / 60.0 == 0.25;
  }

  /** A product with a power of ten keeps the other factor's remainder by three. */
  lemma ModThreeProduct(n: int, p: int)
    requires p % 3 == 1
    ensures (n * p) % 3 == n % 3
  {
    var q := p / 3;
    assert p == 3 * q + 1;
    assert n * p == 3 * (n * q) + n;
  }

  /** For n below 10^27 the point moves at least two places right. */
  lemma SixtiethShiftAtLeastTwo(n: nat)
    requires 0 < n < Unit
    ensures SixtiethShift(n) >= 2
  {
    var a := Digits(n);
    if a > 27 {
      Pow10Grows(27, a - 1);
      Pow10Unit();
    }
  }

  /** `m / 60` is whole exactly when 60 divides `m`. */
  lemma WholeSixtieth(m: int)
    ensures IsWhole(m as real / 60.0) <==> m % 60 == 0
  {
    if m % 60 == 0 {
      assert m == 60 * (m / 60);
      assert m as real / 60.0 == (m / 60) as real;
    }
  }

  /** 60 divides `100 s` exactly when 3 divides `s`. */
  lemma HundredfoldSixtieth(s: int)
    ensures (100 * s) % 60 == 0 <==> s % 3 == 0
  {
    var q := s / 3;
    assert 100 * s == 60 * (5 * q) + 100 * (s % 3);
  }

  /** `n / 60` moved by `k` places, when that is a multiplication by `100 t`. */
  lemma ScaledSixtieth(n: int, t: int, k: int)
    requires ShiftPoint(1.0, k) == 100.0 * t as real
    ensures ShiftPoint(n as real / 60.0, k) == (100 * (n * t)) as real / 60.0
  {
    ShiftFactor(n as real / 60.0, k);
    CastProduct(n, t);
    CastProduct(100, n * t);
    SixtiethOfProduct(n as real, t as real, (n * t) as real, ShiftPoint(1.0, k));
  }

  lemma SixtiethOfProduct(n: real, t: real, s: real, p: real)
    requires p == 100.0 * t && s == n * t
    ensures n / 60.0 * p == 100.0 * s / 60.0
  {
  }

  lemma CastProduct(a: int, b: int)
    ensures (a * b) as real == a as real * b as real
  {
  }

  /** Below 10^27, the shifted sixtieth is whole exactly when 3 divides `n`. */
  lemma ShiftedSixtiethWhole(n: nat)
    requires 0 < n < Unit
    ensures IsWhole(ShiftPoint(n as real / 60.0, SixtiethShift(n))) <==> n % 3 == 0
  {
    var k := SixtiethShift(n);
    SixtiethShiftAtLeastTwo(n);
    var t := Pow10(k - 2);
    var s := n * t;
    assert ShiftPoint(1.0, k) == 100.0 * t as real by {
      ShiftOnePow(k);
      Pow10Add(2, k - 2);
    }
    ScaledSixtieth(n, t, k);
    WholeSixtieth(100 * s);
    HundredfoldSixtieth(s);
    Pow10ModThree(k - 2);
    ModThreeProduct(n, t);
  }

  /** The rounded sixtieth is exact exactly when 3 divides `n`, for n below 10^27. */
  lemma SixtiethExact(n: nat)
    requires 0 < n < Unit
    ensures RoundedSixtieth(n) == n as real / 60.0 <==> n % 3 == 0
  {
    var k := SixtiethShift(n);
    var q := n as real / 60.0;
    var x := ShiftPoint(q, k);
    var c := RoundHalfEven(x);
    ShiftedSixtiethWhole(n);
    ShiftCompose(q, k, -k);
    ShiftCompose(c as real, -k, k);
    if n % 3 == 0 {
      RoundHalfEvenUnique(x, x.Floor);
    }
  }

  /** `int(x)`: the whole part of `x`, toward zero. */
  function Trunc(x: real): (t: int)
    ensures Abs(t as real) <= Abs(x) < Abs(t as real) + 1.0
    ensures x >= 0.0 ==> t >= 0
    ensures x <= 0.0 ==> t <= 0
  {
    if x < 0.0 then -((-x).Floor) else x.Floor
  }

  /** `x` is a whole number. */
  predicate IsWhole(x: real) {
    x.Floor as real == x
  }

  /**
   * `x % y`: `x` less the whole number of `y`s in it, counted toward zero.
   * A zero divisor, or a count of more than 28 digits, raises
   * InvalidOperation.  The remainder is smaller than the divisor and is zero
   * exactly when `x` is a whole multiple of `y`.
   */
  function Remainder(x: real, y: real): (r: Result<real, DecimalError>)
    ensures y == 0.0 ==> r.Err?
    ensures y != 0.0 ==> (r.Err? <==> Abs(x / y) >= Limit as real)
    ensures r.Ok? ==> Abs(r.value) < Abs(y)
    ensures r.Ok? ==> (r.value == 0.0 <==> IsWhole(x / y))
  {
    if y == 0.0 then Err(InvalidOperation)
    else
      var t := Trunc(x / y);
      if Abs(t as real) >= Limit as real then Err(InvalidOperation)
      else
        FractionTimesDivisor(x, y, t);
        Ok(x - y * t as real)
  }

  /** What is left of `x` after `t = Trunc(x / y)` whole `y`s. */
  lemma FractionTimesDivisor(x: real, y: real, t: int)
    requires y != 0.0 && t == Trunc(x / y)
    ensures Abs(x - y * t as real) < Abs(y)
    ensures x - y * t as real == 0.0 <==> IsWhole(x / y)
  {
    var q := x / y;
    var f := q - t as real;
    assert -1.0 < f < 1.0 by {
      if q < 0.0 {
        assert t as real <= 0.0 && -(t as real) <= -q < -(t as real) + 1.0;
      } else {
        assert t as real >= 0.0 && t as real <= q < t as real + 1.0;
      }
    }
    assert x - y * t as real == y * f by {
      assert x == y * q;
      assert y * f == y * q - y * t as real;
    }
    ProductBelow(y, f);
    assert f == 0.0 <==> IsWhole(q) by {
      if IsWhole(q) {
        if q < 0.0 {
          assert (-q).Floor == -(q.Floor);
        }
      }
    }
  }

  /** A fraction of `y` strictly between -1 and 1 is smaller than `y`, and zero only when the fraction is. */
  lemma ProductBelow(y: real, f: real)
    requires y != 0.0 && -1.0 < f < 1.0
    ensures Abs(y * f) < Abs(y)
    ensures y * f == 0.0 <==> f == 0.0
  {
    var a := Abs(y);
    var g := Abs(f);
    assert Abs(y * f) == a * g by {
      if y < 0.0 && f < 0.0 {
        assert y * f == (-y) * (-f);
      } else if y < 0.0 {
        assert y * f == -((-y) * f);
      } else if f < 0.0 {
        assert y * f == -(y * (-f));
      }
    }
    assert Abs(y * f) < Abs(y) by {
      RealMulLt(g, 1.0, a);
    }
    assert y * f == 0.0 <==> f == 0.0 by {
      if g > 0.0 {
        RealMulLt(0.0, g, a);
      }
    }
  }

  /** A whole number of increments, fewer than 10^28, leaves no remainder. */
  lemma RemainderOfMultiple(k: int, y: real)
    requires y != 0.0 && -Limit < k < Limit
    ensures Remainder(k as real * y, y) == Ok(0.0)
  {
    var x := k as real * y;
    assert x / y == k as real;
    assert Trunc(k as real) == k by {
      if k < 0 {
        assert (-(k as real)).Floor == -k;
      }
    }
    assert Abs(k as real) < Limit as real;
    assert x - y * k as real == 0.0;
  }

  /** A zero remainder means `x` is exactly that whole number of `y`s. */
  lemma RemainderZero(x: real, y: real)
    requires Remainder(x, y) == Ok(0.0)
    ensures x == (x / y).Floor as real * y
  {
  }

  /**
   * With a 10-minute increment the rounded increment is
   * 0.1666666666666666666666666667: 10/60 rounded to 28 significant digits.
   */
  lemma TenMinuteIncrement()
    ensures IncrementHours(10) == 1666666666666666666666666667.0 / 10000000000000000000000000000.0
  {
    assert Digits(10) == 2;
    assert SixtiethShift(10) == 28;
    Pow10Unit();
    ShiftOnePow(28);
    ShiftInverse(28);
    ShiftFactor(10.0 / 60.0, 28);
    ShiftFactor(1666666666666666666666666667.0, -28);
    var x := ShiftPoint(10.0 / 60.0, 28);
    assert x == 10000000000000000000000000000.0 / 6.0;
    RoundHalfEvenUnique(x, 1666666666666666666666666667);
  }

  /**
   * One hour is no whole multiple of the rounded 10-minute increment:
   * `Decimal("1") % increment` leaves a remainder.
   */
  lemma TenMinuteIncrementInexact()
    ensures Remainder(1.0, IncrementHours(10)).Ok?
    ensures Remainder(1.0, IncrementHours(10)).value != 0.0
  {
    TenMinuteIncrement();
    var h := IncrementHours(10);
    assert h * 5.0 < 1.0 < h * 6.0;
    QuotientBetween(1.0, h, 5);
  }

  /** A quotient strictly between two neighbouring whole numbers. */
  lemma QuotientBetween(x: real, y: real, k: int)
    requires y > 0.0 && y * k as real < x < y * (k + 1) as real
    ensures k as real < x / y < (k + 1) as real
  {
    var q := x / y;
    assert x == q * y;
    if q <= k as real {
      RealMulLe(q, k as real, y);
    }
    if q >= (k + 1) as real {
      RealMulLe((k + 1) as real, q, y);
    }
  }

}
