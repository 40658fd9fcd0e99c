/**
 * The template filters of the timesheet pages: `get_item` and
 * `get_entry_hours` look up a dictionary that may be missing, and
 * `zero_dash` shows a number as "-" when it is zero or absent and
 * otherwise as a whole number with comma thousands separators.
 */
module TimesheetTags {
  import opened Wrappers
  import opened Text
  import opened Decimals
  import Cells

  /** `get_item`: no dictionary gives nothing; otherwise `dictionary.get(key)`. */
  function GetItem<K, V>(dictionary: Option<map<K, V>>, key: K): (r: Option<V>)
    ensures r.Some? <==> dictionary.Some? && key in dictionary.value
    ensures r.Some? ==> r.value == dictionary.value[key]
  {
    match dictionary
    case None => None
    case Some(d) => if key in d then Some(d[key]) else None
  }

  /** `get_entry_hours`: the entries of one line, or an empty dictionary when there are none. */
  function GetEntryHours<L, D, H>(entryData: Option<map<L, map<D, H>>>, lineId: L): (r: map<D, H>)
    ensures HasLine(entryData, lineId) ==> r == entryData.value[lineId]
    ensures !HasLine(entryData, lineId) ==> r == map[]
  {
    if entryData.Some? && lineId in entryData.value then entryData.value[lineId] else map[]
  }

  /** The entry data is present and has the line. */
  predicate HasLine<L, D, H>(entryData: Option<map<L, map<D, H>>>, lineId: L) {
    GetItem(entryData, lineId).Some?
  }

  /** Missing entry data and a line without entries look the same to the template. */
  lemma EntryHoursDefault<L, D, H>(lineId: L, other: L, hours: map<D, H>)
    requires other != lineId
    ensures GetEntryHours<L, D, H>(None, lineId) == GetEntryHours(Some(map[other := hours]), lineId) == map[]
  {
  }

  /** The digits of `n` in groups of three, separated by commas (`f"{n:,}"`). */
  function Grouped(n: nat): (s: string)
    ensures s != []
    ensures ',' in s <==> n >= 1000
    decreases n
  {
    if n < 1000 then NatStr(n)
    else
      var head := Grouped(n / 1000);
      assert ',' in head + "," + FixedDigits(n % 1000, 3) by {
        assert (head + "," + FixedDigits(n % 1000, 3))[|head|] == ',';
      }
      head + "," + FixedDigits(n % 1000, 3)
  }

  /** A string with its commas removed. */
  function Ungroup(s: string): (r: string)
    ensures ',' !in r
    decreases |s|
  {
    if s == [] then []
    else if s[|s| - 1] == ',' then Ungroup(s[..|s| - 1])
    else Ungroup(s[..|s| - 1]) + [s[|s| - 1]]
  }

  lemma {:induction false} UngroupAppend(a: string, b: string)
    ensures Ungroup(a + b) == Ungroup(a) + Ungroup(b)
    decreases |b|
  {
    if b == [] {
      assert a + b == a;
    } else {
      var init := b[..|b| - 1];
      assert (a + b)[..|a + b| - 1] == a + init;
      UngroupAppend(a, init);
    }
  }

  lemma {:induction false} UngroupDigits(s: string)
    requires AllDigits(s)
    ensures Ungroup(s) == s
    decreases |s|
  {
    if s != [] {
      assert IsDigit(s[|s| - 1]);
      UngroupDigits(s[..|s| - 1]);
    }
  }

  /** The value of two digit strings written one after the other. */
  lemma {:induction false} DigitsValueAppend(a: string, b: string)
    requires AllDigits(a) && AllDigits(b)
    ensures AllDigits(a + b)
    ensures DigitsValue(a + b) == DigitsValue(a) * Pow10(|b|) + DigitsValue(b)
    decreases |b|
  {
    if b == [] {
      assert a + b == a;
    } else {
      var init, last := b[..|b| - 1], b[|b| - 1];
      assert (a + b)[..|a + b| - 1] == a + init;
      assert (a + b)[|a + b| - 1] == last;
      DigitsValueAppend(a, init);
      var x, p, y, d := DigitsValue(a), Pow10(|init|), DigitsValue(init), DigitValue(last);
      assert DigitsValue(a + b) == (x * p + y) * 10 + d;
      assert DigitsValue(b) == y * 10 + d;
      assert Pow10(|b|) == p * 10;
      MulAddDistrib(x, p, y, d);
    }
  }

  /** `(x*p + y)*10 + d == x*(p*10) + (y*10 + d)`. */
  lemma MulAddDistrib(x: int, p: int, y: int, d: int)
    ensures (x * p + y) * 10 + d == x * (p * 10) + (y * 10 + d)
  {
  }

  /** Removing the separators from the grouped digits gives back digits reading as `n`. */
  lemma {:induction false} GroupedValue(n: nat)
    ensures AllDigits(Ungroup(Grouped(n)))
    ensures DigitsValue(Ungroup(Grouped(n))) == n
    decreases n
  {
    if n < 1000 {
      UngroupDigits(NatStr(n));
      NatStrRoundTrip(n);
    } else {
      var head := Ungroup(Grouped(n / 1000));
      var tail := FixedDigits(n % 1000, 3);
      GroupedValue(n / 1000);
      UngroupGroups(n);
      DigitsValueAppend(head, tail);
      FixedDigitsValue(n % 1000, 3);
      var q, r := n / 1000, n % 1000;
      assert Pow10(|tail|) == 1000;
      ModUnique(r, 1000, 0, r);
      assert DigitsValue(tail) == r;
      assert DigitsValue(head + tail) == q * 1000 + r;
    }
  }

  /** Removing the separators from a number of four digits or more removes them from its leading groups. */
  lemma UngroupGroups(n: nat)
    requires n >= 1000
    ensures Ungroup(Grouped(n)) == Ungroup(Grouped(n / 1000)) + FixedDigits(n % 1000, 3)
  {
    var head := Grouped(n / 1000);
    var tail := FixedDigits(n % 1000, 3);
    assert Grouped(n) == (head + ",") + tail;
    UngroupAppend(head + ",", tail);
    UngroupAppend(head, ",");
    assert Ungroup(",") == [] by {
      assert ","[..0] == [];
    }
    UngroupDigits(tail);
  }

  /** What a template value is: `None`, a string, or a number whose `str()` is its exact decimal value. */
  datatype Value = Missing | Chars(s: string) | Number(x: real)

  /** `Decimal(str(value))`: `None` when the decimal constructor rejects the text. */
  function AsDecimal(v: Value): Option<real> {
    match v
    case Missing => None
    case Chars(s) => Cells.ParseDecimal(s)
    case Number(x) => Some(x)
  }

  /**
   * `f"{num:,.0f}"`: a minus sign for a negative number (even one that
   * rounds to zero), then the magnitude rounded half-even and grouped.
   */
  function Format(x: real): (s: string)
    ensures s != [] && s != "-"
    ensures s[0] == '-' <==> x < 0.0
  {
    var magnitude := RoundHalfEven(Abs(x));
    var digits := Grouped(magnitude);
    assert digits[0] != '-' by {
      if magnitude < 1000 {
        assert IsDigit(NatStr(magnitude)[0]);
      } else {
        GroupedStartsWithDigit(magnitude);
      }
    }
    var sign := if x < 0.0 then "-" else "";
    assert sign + digits != "-" by {
      if x < 0.0 {
        assert |sign + digits| >= 2;
      } else {
        assert sign + digits == digits;
      }
    }
    sign + digits
  }

  lemma {:induction false} GroupedStartsWithDigit(n: nat)
    ensures IsDigit(Grouped(n)[0])
    decreases n
  {
    if n < 1000 {
      assert IsDigit(NatStr(n)[0]);
    } else {
      GroupedStartsWithDigit(n / 1000);
    }
  }

  /** The integer `f"{num:,.0f}"` shows: the sign of `x` on its rounded magnitude. */
  function Shown(x: real): int {
    if x < 0.0 then -RoundHalfEven(-x) else RoundHalfEven(x)
  }

  /** The shown integer is within one half of `x`; on a tie it is even. */
  lemma ShownIsNearest(x: real)
    ensures -0.5 <= Shown(x) as real - x <= 0.5
    ensures (Shown(x) as real - x == 0.5 || x - Shown(x) as real == 0.5) ==> Shown(x) % 2 == 0
  {
    if x < 0.0 {
      var n := RoundHalfEven(-x);
      assert Shown(x) == -n;
      if n % 2 == 0 {
        assert -n == 2 * -(n / 2);
      }
    }
  }

  /** Reading the formatted number back, separators removed, gives the shown integer. */
  lemma FormatReadsBack(x: real)
    ensures ParseInt(Ungroup(Format(x))) == Some(Shown(x))
  {
    var magnitude := RoundHalfEven(Abs(x));
    var u := Ungroup(Grouped(magnitude));
    GroupedValue(magnitude);
    UngroupedNonEmpty(magnitude);
    UngroupSign(x);
    var sign := if x < 0.0 then "-" else "";
    assert Ungroup(Format(x)) == sign + u;
    ParseSigned(u, x < 0.0, magnitude);
    assert Shown(x) == if x < 0.0 then -magnitude else magnitude;
  }

  /** `int()` of digits, with or without a leading minus sign. */
  lemma ParseSigned(u: string, negative: bool, value: nat)
    requires u != [] && AllDigits(u) && DigitsValue(u) == value
    ensures ParseInt((if negative then "-" else "") + u) == Some(if negative then -(value as int) else value)
  {
    var t := (if negative then "-" else "") + u;
    assert !IsSpace(t[0]) && !IsSpace(t[|t| - 1]) by {
      assert IsDigit(u[0]) && IsDigit(u[|u| - 1]);
      assert t[|t| - 1] == u[|u| - 1];
    }
    StripNoEdges(t);
    assert u[0] != '-' && u[0] != '+' by { assert IsDigit(u[0]); }
    if negative {
      assert t[1..] == u;
    } else {
      assert t == u;
    }
  }

  /** The grouped digits keep at least one digit once the separators are removed. */
  lemma UngroupedNonEmpty(n: nat)
    ensures Ungroup(Grouped(n)) != []
  {
    var digits := Grouped(n);
    GroupedStartsWithDigit(n);
    assert digits == digits[..1] + digits[1..];
    UngroupAppend(digits[..1], digits[1..]);
    assert Ungroup(digits[..1]) == digits[..1] by {
      assert digits[..1][..0] == [];
    }
  }

  /** Removing the separators keeps the sign. */
  lemma UngroupSign(x: real)
    ensures Ungroup(Format(x)) == (if x < 0.0 then "-" else "") + Ungroup(Grouped(RoundHalfEven(Abs(x))))
  {
    var sign := if x < 0.0 then "-" else "";
    UngroupAppend(sign, Grouped(RoundHalfEven(Abs(x))));
    assert Ungroup(sign) == sign by {
      if x < 0.0 {
        assert "-"[..0] == [];
      }
    }
  }

  /**
   * `zero_dash`: "-" for `None`, the empty string and anything whose
   * decimal value is zero; the value itself when it is not a decimal;
   * otherwise the number rounded to a whole number with comma separators.
   */
  function ZeroDash(v: Value): (r: Value)
    ensures v.Missing? || v == Chars("") || AsDecimal(v) == Some(0.0) ==> r == Chars("-")
    ensures v != Chars("") && v.Chars? && AsDecimal(v).None? ==> r == v
    ensures AsDecimal(v).Some? && AsDecimal(v).value != 0.0 ==> r == Chars(Format(AsDecimal(v).value))
    ensures r == Chars("-") && v != Chars("-") ==> v.Missing? || v == Chars("") || AsDecimal(v) == Some(0.0)
  {
    if v.Missing? || v == Chars("") then Chars("-")
    else
      match AsDecimal(v)
      case None => v
      case Some(num) => if num == 0.0 then Chars("-") else Chars(Format(num))
  }

  /** A non-zero number is never shown as "-", and what is shown reads back as its rounding. */
  lemma ZeroDashNonZero(x: real)
    requires x != 0.0
    ensures ZeroDash(Number(x)) != Chars("-")
    ensures ZeroDash(Number(x)).Chars? && ParseInt(Ungroup(ZeroDash(Number(x)).s)) == Some(Shown(x))
  {
    FormatReadsBack(x);
  }
}
