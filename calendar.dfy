/**
 * Proleptic Gregorian dates with the meaning Python's `datetime.date` gives them:
 * the day count `toordinal`, `weekday`, adding one day, `isoformat` and
 * `fromisoformat`.  Comparisons between dates go through `Ordinal`, which
 * orders dates exactly as Python's (year, month, day) comparison does.
 */
module Calendar {
  import opened Wrappers
  import opened Text

  datatype Date = Date(year: int, month: int, day: int)

  const MinYear := 1
  const MaxYear := 9999
  /** `date(9999, 12, 31).toordinal()`. */
  const MaxOrdinal := 3652059

  predicate IsLeap(y: int) {
    y % 4 == 0 && (y % 100 != 0 || y % 400 == 0)
  }

  /** `calendar.monthrange(y, m)[1]`: the number of days in month `m`. */
  function DaysInMonth(y: int, m: int): (n: int)
    requires 1 <= m <= 12
    ensures 28 <= n <= 31
    ensures n == 29 <==> m == 2 && IsLeap(y)
  {
    if m == 2 then (if IsLeap(y) then 29 else 28)
    else if m == 4 || m == 6 || m == 9 || m == 11 then 30
    else 31
  }

  /** The arguments `date(year, month, day)` accepts without raising `ValueError`. */
  predicate Exists(d: Date) {
    MinYear <= d.year <= MaxYear && 1 <= d.month <= 12 && 1 <= d.day <= DaysInMonth(d.year, d.month)
  }

  function DaysInYear(y: int): int {
    if IsLeap(y) then 366 else 365
  }

  /** Days in the years before `y`, counted from 1 January of year 1. */
  function DaysBeforeYear(y: int): int
    requires y >= 1
  {
    var p := y - 1;
    p * 365 + p / 4 - p / 100 + p / 400
  }

  /** Days in the months of year `y` before month `m`. */
  function DaysBeforeMonth(y: int, m: int): int
    requires 1 <= m <= 12
  {
    [0, 0, 31, 59, 90, 120, 151, 181, 212, 243, 273, 304, 334][m] + (if m > 2 && IsLeap(y) then 1 else 0)
  }

  /** `d.toordinal()`: 1 January of year 1 is day 1. */
  function Ordinal(d: Date): (n: int)
    requires Exists(d)
  {
    DaysBeforeYear(d.year) + DaysBeforeMonth(d.year, d.month) + d.day
  }

  /** `d.weekday()`: Monday is 0 and Sunday is 6. */
  function Weekday(d: Date): (w: int)
    requires Exists(d)
    ensures 0 <= w < 7
  {
    (Ordinal(d) + 6) % 7
  }

  predicate IsWorkday(d: Date)
    requires Exists(d)
  {
    Weekday(d) < 5
  }

  /** `d + timedelta(days=1)`; the last representable date has no successor. */
  function NextDay(d: Date): (r: Option<Date>)
    requires Exists(d)
    ensures r.None? <==> d == Date(MaxYear, 12, 31)
    ensures r.Some? ==> Exists(r.value) && Ordinal(r.value) == Ordinal(d) + 1
  {
    if d.day < DaysInMonth(d.year, d.month) then
      Some(Date(d.year, d.month, d.day + 1))
    else if d.month < 12 then
      Some(Date(d.year, d.month + 1, 1))
    else if d.year < MaxYear then
      YearStep(d.year);
      Some(Date(d.year + 1, 1, 1))
    else
      None
  }

  lemma YearStep(y: int)
    requires y >= 1
    ensures DaysBeforeYear(y + 1) == DaysBeforeYear(y) + DaysInYear(y)
  {
    var p := y - 1;
    DivStep(p, 4);
    DivStep(p, 100);
    DivStep(p, 400);
    if y % 400 == 0 {
      ModUnique(y, 100, 4 * (y / 400), 0);
    }
    if y % 100 == 0 {
      ModUnique(y, 4, 25 * (y / 100), 0);
    }
  }

  /** Moving from `p` to `p + 1` raises `p / k` by one exactly when `k` divides `p + 1`. */
  lemma DivStep(p: nat, k: int)
    requires k > 0
    ensures (p + 1) / k == p / k + (if (p + 1) % k == 0 then 1 else 0)
  {
    var q := p / k;
    var r := p % k;
    assert p == q * k + r;
    if r + 1 == k {
      assert p + 1 == (q + 1) * k + 0;
      ModUnique(p + 1, k, q + 1, 0);
    } else {
      ModUnique(p + 1, k, q, r + 1);
    }
  }

  /** The last day of a year ends the year's day count. */
  lemma YearEnd(y: int)
    requires 1 <= y
    ensures DaysBeforeMonth(y, 12) + DaysInMonth(y, 12) == DaysInYear(y)
  {
  }

  /** A day count of a representable date stays within 1 .. `MaxOrdinal`. */
  lemma OrdinalRange(d: Date)
    requires Exists(d)
    ensures 1 <= Ordinal(d) <= MaxOrdinal
  {
    DaysBeforeYearMono(d.year, MaxYear);
    assert DaysBeforeYear(MaxYear) + 334 + 31 == MaxOrdinal;
    assert DaysBeforeMonth(d.year, d.month) + d.day <= DaysInYear(d.year);
    YearStep(d.year);
    DaysBeforeYearMono(d.year + 1, MaxYear + 1);
    YearStep(MaxYear);
  }

  lemma DaysBeforeYearMono(a: int, b: int)
    requires 1 <= a <= b
    ensures DaysBeforeYear(a) <= DaysBeforeYear(b)
    decreases b - a
  {
    if a < b {
      YearStep(a);
      DaysBeforeYearMono(a + 1, b);
    }
  }

  /** Python orders dates by (year, month, day); the day count orders them the same way. */
  lemma {:induction false} OrdinalMonotone(a: Date, b: Date)
    requires Exists(a) && Exists(b)
    requires a.year < b.year || (a.year == b.year && (a.month < b.month || (a.month == b.month && a.day < b.day)))
    ensures Ordinal(a) < Ordinal(b)
  {
    if a.year < b.year {
      assert DaysBeforeMonth(a.year, a.month) + a.day <= DaysInYear(a.year);
      YearStep(a.year);
      DaysBeforeYearMono(a.year + 1, b.year);
    } else if a.month < b.month {
      assert DaysBeforeMonth(a.year, a.month) + DaysInMonth(a.year, a.month) <= DaysBeforeMonth(a.year, b.month);
    }
  }

  /** Distinct representable dates have distinct day counts. */
  lemma OrdinalInjective(a: Date, b: Date)
    requires Exists(a) && Exists(b) && Ordinal(a) == Ordinal(b)
    ensures a == b
  {
    if a.year < b.year || (a.year == b.year && (a.month < b.month || (a.month == b.month && a.day < b.day))) {
      OrdinalMonotone(a, b);
    } else if b.year < a.year || (b.year == a.year && (b.month < a.month || (b.month == a.month && b.day < a.day))) {
      OrdinalMonotone(b, a);
    }
  }

  /** `d.isoformat()`: "YYYY-MM-DD". */
  function IsoFormat(d: Date): (s: string)
    requires Exists(d)
    ensures |s| == 10 && s[4] == '-' && s[7] == '-'
  {
    FixedDigits(d.year, 4) + "-" + FixedDigits(d.month, 2) + "-" + FixedDigits(d.day, 2)
  }

  /** `date.fromisoformat(s)` for the "YYYY-MM-DD" form; `None` where it raises `ValueError`. */
  function ParseIso(s: string): (r: Option<Date>)
    ensures r.Some? ==> Exists(r.value)
  {
    if |s| == 10 && s[4] == '-' && s[7] == '-'
       && AllDigits(s[..4]) && AllDigits(s[5..7]) && AllDigits(s[8..])
    then
      var d := Date(DigitsValue(s[..4]), DigitsValue(s[5..7]), DigitsValue(s[8..]));
      if Exists(d) then Some(d) else None
    else None
  }

  /** Parsing what `isoformat` writes gives the date back. */
  lemma IsoRoundTrip(d: Date)
    requires Exists(d)
    ensures ParseIso(IsoFormat(d)) == Some(d)
  {
    var y, m, dd := FixedDigits(d.year, 4), FixedDigits(d.month, 2), FixedDigits(d.day, 2);
    var s := IsoFormat(d);
    assert s == y + "-" + m + "-" + dd;
    assert s[..4] == y && s[5..7] == m && s[8..] == dd;
    FixedDigitsBack(d.year, 4);
    FixedDigitsBack(d.month, 2);
    FixedDigitsBack(d.day, 2);
  }

  lemma FixedDigitsBack(n: nat, w: nat)
    requires w == 2 || w == 4
    requires n < (if w == 2 then 100 else 10000)
    ensures DigitsValue(FixedDigits(n, w)) == n
  {
    assert Pow10(2) == 100 && Pow10(4) == 10000;
    FixedDigitsValue(n, w);
  }

  /** Every string `fromisoformat` accepts is the `isoformat` of the date it gives. */
  lemma IsoCanonical(s: string)
    requires ParseIso(s).Some?
    ensures IsoFormat(ParseIso(s).value) == s
  {
    var d := ParseIso(s).value;
    assert d == Date(DigitsValue(s[..4]), DigitsValue(s[5..7]), DigitsValue(s[8..]));
    IsoDigitsText(s);
  }

  /** Ten characters of the form "YYYY-MM-DD" are rewritten unchanged from their fields' values. */
  lemma IsoDigitsText(s: string)
    requires |s| == 10 && s[4] == '-' && s[7] == '-'
    requires AllDigits(s[..4]) && AllDigits(s[5..7]) && AllDigits(s[8..])
    ensures FixedDigits(DigitsValue(s[..4]), 4) + "-" + FixedDigits(DigitsValue(s[5..7]), 2) + "-"
            + FixedDigits(DigitsValue(s[8..]), 2) == s
  {
    var y, m, dd := s[..4], s[5..7], s[8..];
    DigitsFixed(y);
    DigitsFixed(m);
    DigitsFixed(dd);
    var t := y + "-" + m + "-" + dd;
    forall i | 0 <= i < |s| ensures t[i] == s[i] {
      if i < 4 { assert t[i] == y[i]; }
      else if i == 4 { }
      else if i < 7 { assert t[i] == m[i - 5]; }
      else if i == 7 { }
      else { assert t[i] == dd[i - 8]; }
    }
  }

  /** Distinct dates have distinct ISO strings. */
  lemma IsoInjective(a: Date, b: Date)
    requires Exists(a) && Exists(b) && IsoFormat(a) == IsoFormat(b)
    ensures a == b
  {
    IsoRoundTrip(a);
    IsoRoundTrip(b);
  }
}
