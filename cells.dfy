/**
 * Worksheets as the upload parser sees them: a map from (column letter, row)
 * to a typed cell value, and the coercions the parser applies to one cell
 * (`_to_string`, `_decimal_value`, `_decimal_cell`, `_int_cell`,
 * `_parse_date`).  Decimal numbers are exact rationals.
 */
module Cells {
  import opened Wrappers
  import opened Text
  import opened Calendar

  type ValidDate = d: Date | Exists(d) witness Date(1, 1, 1)

  /**
   * The `ValueError` of `date(...)` for a day that does not exist, or the
   * `OverflowError` of adding days past either end of the calendar.
   */
  datatype DateError = DateOutOfRange

  /** `date(year, month, day)`, or the `ValueError` it raises. */
  function MakeDate(year: int, month: int, day: int): (r: Result<ValidDate, DateError>)
    ensures r.Ok? <==> Exists(Date(year, month, day))
    ensures r.Ok? ==> r.value == Date(year, month, day)
  {
    if Exists(Date(year, month, day)) then Ok(Date(year, month, day)) else Err(DateOutOfRange)
  }

  /**
   * What `str` prints for a number openpyxl delivers (an `int` or a `float`):
   * never empty and without surrounding whitespace.
   */
  type NumberText = s: string | s != [] && !IsSpace(s[0]) && !IsSpace(s[|s| - 1]) witness "0"

  /**
   * One cell value as openpyxl delivers it with `data_only=False`: nothing, a
   * number with the text `str` gives for it, text (a formula is text starting
   * with "="), or a date-formatted cell, which arrives as a `datetime` at
   * midnight.
   */
  datatype Cell = Empty | Number(value: real, shown: NumberText) | Str(text: string) | Stamp(date: ValidDate)

  /** A worksheet: the cells that hold something, and openpyxl's `max_row`. */
  datatype Sheet = Sheet(cells: map<(char, int), Cell>, maxRow: int)

  /** `ws[f"{col}{row}"].value`; a cell never written is `None`. */
  function At(ws: Sheet, col: char, row: int): Cell {
    if (col, row) in ws.cells then ws.cells[(col, row)] else Empty
  }

  /** The column letter of 1-based column number `k`, as `ws.cell(row, column=k)` addresses it. */
  function ColumnLetter(k: int): (c: char)
    requires 1 <= k <= 26
    ensures 'A' <= c <= 'Z'
  {
    ('A' as int + k - 1) as char
  }

  /** `int(x)` on a number: truncation toward zero. */
  function Truncate(x: real): (i: int)
    ensures x >= 0.0 ==> 0.0 <= i as real <= x < i as real + 1.0
    ensures x < 0.0 ==> i as real - 1.0 < x <= i as real <= 0.0
  {
    if x >= 0.0 then x.Floor else -((-x).Floor)
  }

  /** `_to_string`: `None` becomes "", anything else its `str`, stripped. */
  function ToStr(c: Cell): (s: string)
    ensures s == [] || (!IsSpace(s[0]) && !IsSpace(s[|s| - 1]))
    ensures c.Empty? ==> s == []
    ensures c.Number? || c.Stamp? ==> s != []
  {
    match c
    case Empty => ""
    case Number(_, shown) =>
      StripNoEdges(shown);
      shown
    case Str(t) =>
      StripShape(t);
      Strip(t)
    case Stamp(d) =>
      StampTextEdges(d);
      IsoFormat(d) + " 00:00:00"
  }

  lemma StampTextEdges(d: Date)
    requires Exists(d)
    ensures var s := IsoFormat(d) + " 00:00:00"; !IsSpace(s[0]) && !IsSpace(s[|s| - 1])
  {
    var s := IsoFormat(d) + " 00:00:00";
    assert s[0] == FixedDigits(d.year, 4)[0];
    assert IsDigit(s[0]);
  }

  /** The value of the digits after a decimal point: "25" is 0.25. */
  function FractionValue(digits: string): (x: real)
    requires AllDigits(digits)
    ensures 0.0 <= x < 1.0
    decreases |digits|
  {
    if digits == [] then 0.0 else (DigitValue(digits[0]) as real + FractionValue(digits[1..])) / 10.0
  }

  /**
   * `Decimal(s)` on text, for the plain decimal numerals: surrounding
   * whitespace, an optional sign, and digits with an optional decimal point
   * and at least one digit.  Every other text gives `None`, including the
   * exponent, underscore, `NaN` and `Infinity` forms the constructor
   * accepts.
   */
  function ParseDecimal(s: string): (r: Option<real>)
    ensures r.Some? ==> Strip(s) != []
  {
    var t := Strip(s);
    var negative := t != [] && t[0] == '-';
    var body := if t != [] && (t[0] == '-' || t[0] == '+') then t[1..] else t;
    var whole := BeforeFirst(body, '.');
    var frac := if |whole| < |body| then body[|whole| + 1..] else [];
    if |whole| + |frac| > 0 && AllDigits(whole) && AllDigits(frac) then
      var magnitude := DigitsValue(whole) as real + FractionValue(frac);
      Some(if negative then -magnitude else magnitude)
    else
      None
  }

  /** What `str` writes for an integer, `Decimal` reads back as that integer. */
  lemma ParseDecimalIntStr(i: int)
    ensures ParseDecimal(IntStr(i)) == Some(i as real)
  {
    var t := IntStr(i);
    assert Strip(t) == t by {
      IntStrEdges(i);
      StripNoEdges(t);
    }
    var m: nat := if i < 0 then -i else i;
    var digits := NatStr(m);
    var body := if t[0] == '-' || t[0] == '+' then t[1..] else t;
    assert body == digits by {
      if i < 0 {
        assert t[1..] == digits;
      } else {
        assert IsDigit(t[0]);
      }
    }
    assert BeforeFirst(body, '.') == body by {
      assert '.' !in digits;
    }
    assert DigitsValue(digits) == m by {
      NatStrRoundTrip(m);
    }
  }

  /**
   * `_decimal_value`: `None` and "" give `None`, a number its value, text
   * what `ParseDecimal` reads from it, and a date `None` (its text is no
   * numeral).
   */
  function DecimalValue(c: Cell): (r: Option<real>)
    ensures c.Number? ==> r == Some(c.value)
    ensures c.Empty? || c.Stamp? || c == Str("") ==> r.None?
  {
    match c
    case Empty => None
    case Number(x, _) => Some(x)
    case Str(t) => if t == "" then None else ParseDecimal(t)
    case Stamp(_) => None
  }

  /** A text cell holding what `str` writes for an integer has that integer as its value. */
  lemma IntTextCellValue(i: int)
    ensures DecimalValue(Str(IntStr(i))) == Some(i as real)
  {
    ParseDecimalIntStr(i);
  }

  /** A text cell reads as `Decimal` reads its text; the empty text agrees with the numeral grammar. */
  lemma TextCellValue(t: string)
    ensures DecimalValue(Str(t)) == ParseDecimal(t)
    ensures DecimalValue(Str(t)).Some? ==> Strip(t) != []
  {
    if t == "" {
      StripShape(t);
    }
  }

  /** A text cell holding only whitespace has no value. */
  lemma BlankTextCellValue(t: string)
    requires AllSpace(t)
    ensures DecimalValue(Str(t)).None?
  {
    StripShape(t);
  }

  /** `_decimal_cell`: the cell's decimal value, or 0 when it has none. */
  function DecimalCell(ws: Sheet, col: char, row: int): (x: real)
    ensures DecimalValue(At(ws, col, row)).Some? ==> x == DecimalValue(At(ws, col, row)).value
    ensures DecimalValue(At(ws, col, row)).None? ==> x == 0.0
  {
    DecimalValue(At(ws, col, row)).GetOr(0.0)
  }

  /** `_string_cell`. */
  function StringCell(ws: Sheet, col: char, row: int): string {
    ToStr(At(ws, col, row))
  }

  /** `_int_cell`: `int(value)`, or `None` where that raises `TypeError` or `ValueError`. */
  function IntCell(ws: Sheet, col: char, row: int): (r: Option<int>)
    ensures At(ws, col, row).Number? ==> r == Some(Truncate(At(ws, col, row).value))
    ensures At(ws, col, row).Empty? || At(ws, col, row).Stamp? ==> r.None?
    ensures At(ws, col, row).Str? ==> r == ParseInt(At(ws, col, row).text)
  {
    match At(ws, col, row)
    case Empty => None
    case Number(x, _) => Some(Truncate(x))
    case Str(t) => ParseInt(t)
    case Stamp(_) => None
  }

  /**
   * `_parse_date`: a date cell gives its date; nothing, "" and text give
   * `None`.  Numeric serial dates (`from_excel`) are not converted here.
   */
  function ParseDate(c: Cell): (r: Option<ValidDate>)
    ensures r.Some? <==> c.Stamp?
    ensures r.Some? ==> r.value == c.date
  {
    match c
    case Stamp(d) => Some(d)
    case _ => None
  }

  /** Text holding a whole number reads back as that number. */
  lemma ParseDecimalNat(n: nat)
    ensures ParseDecimal(NatStr(n)) == Some(n as real)
  {
    var s := NatStr(n);
    StripNat(n);
    NatStrRoundTrip(n);
    ParseDecimalDigits(s, n);
  }

  /** Stripped digits without a sign or a point read as their value. */
  lemma ParseDecimalDigits(s: string, value: nat)
    requires s != [] && AllDigits(s) && Strip(s) == s && DigitsValue(s) == value
    ensures ParseDecimal(s) == Some(value as real)
  {
    assert s[0] != '-' && s[0] != '+' by { assert IsDigit(s[0]); }
    NoDotBeforeFirst(s);
    var whole := BeforeFirst(s, '.');
    assert whole == s;
    assert FractionValue([]) == 0.0;
  }

  lemma StripNat(n: nat)
    ensures Strip(NatStr(n)) == NatStr(n)
  {
    IntStrEdges(n);
    StripNoEdges(NatStr(n));
  }

  lemma NoDotBeforeFirst(s: string)
    requires AllDigits(s)
    ensures BeforeFirst(s, '.') == s
  {
  }

  /**
   * A text cell holding what `str` writes for any integer, signed or not,
   * with whitespace around it, coerces to that integer under `_int_cell`.
   */
  lemma PaddedIntTextCell(ws: Sheet, col: char, row: int, before: string, i: int, after: string)
    requires AllSpace(before) && AllSpace(after)
    requires At(ws, col, row) == Str(before + IntStr(i) + after)
    ensures IntCell(ws, col, row) == Some(i)
  {
    PaddedParseInt(before, i, after);
  }

  /** Underscores between digits, as in "2_025", are read through by `_int_cell`. */
  lemma UnderscoreTextCell(ws: Sheet, col: char, row: int, a: string, b: string)
    requires a != [] && b != [] && AllDigits(a) && AllDigits(b)
    requires At(ws, col, row) == Str(a + "_" + b)
    ensures AllDigits(a + b)
    ensures IntCell(ws, col, row) == Some(DigitsValue(a + b))
  {
    ParseIntUnderscore(a, b);
  }

  /** A text cell holding `str(n)` coerces to `n` under `_decimal_cell` and `_int_cell`. */
  lemma NumericTextCell(ws: Sheet, col: char, row: int, n: nat)
    requires At(ws, col, row) == Str(NatStr(n))
    ensures DecimalCell(ws, col, row) == n as real
    ensures IntCell(ws, col, row) == Some(n)
  {
    ParseDecimalNat(n);
    ParseIntNat(n);
  }
}
