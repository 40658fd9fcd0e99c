/**
 * The half-month time grids of an uploaded workbook (`_parse_time_half` and
 * its helpers in the upload parser).  Each half sheet has 29 fixed rows:
 * client rows 6-13 and internal rows 30-36 carry their own label (column A)
 * and charge code (column U); marketing rows 16-29 carry a category in
 * column A that the Validations sheet maps to a base charge code.  Day
 * columns start at B.
 */
module TimeParser {
  import opened Wrappers
  import opened Text
  import opened Calendar
  import opened Cells
  import opened Dicts

  datatype Half = First | Second
  datatype Group = Client | Marketing | Internal

  /** One parsed row of a half sheet. */
  datatype TimeLine = TimeLine(
    row: int,
    group: Group,
    lineLabel: string,
    category: Option<string>,
    chargeCode: Option<string>,
    hoursByDay: seq<(string, real)>,
    rowTotal: real)

  /** One parsed half sheet; per-day maps are keyed by ISO date strings. */
  datatype TimeHalf = TimeHalf(
    dates: seq<string>,
    dailyTotals: seq<(string, real)>,
    lines: seq<TimeLine>,
    totalsByClientCode: map<string, real>,
    totalsByMarketingBucket: map<string, real>,
    totalsByOtherHours: map<string, real>,
    totalHours: real)

  /** The `ValueError` that `calendar.monthrange` or `date(...)` raises for a header that is no real month. */
  datatype ParseError = InvalidHeaderPeriod(year: int, month: int)

  /** `_empty_time_half()`. */
  const EmptyHalf := TimeHalf([], [], [], map[], map[], map[], 0.0)

  /** Python truthiness of an optional integer: `None` and 0 are false. */
  predicate IntTruthy(x: Option<int>) {
    x.Some? && x.value != 0
  }

  /** Python truthiness of an optional string: `None` and "" are false. */
  predicate StrTruthy(x: Option<string>) {
    x.Some? && x.value != ""
  }

  /** `_get_day_range`: days 1-15, or 16 to the last day of the month, as dates. */
  function GetDayRange(year: int, month: int, half: Half): (r: Result<seq<Date>, ParseError>)
    ensures r.Ok? <==> 1 <= month <= 12 && MinYear <= year <= MaxYear
    ensures r.Ok? ==>
      var days := r.value;
      && |days| == (if half == First then 15 else DaysInMonth(year, month) - 15)
      && days[0] == Date(year, month, if half == First then 1 else 16)
      && days[|days| - 1] == Date(year, month, if half == First then 15 else DaysInMonth(year, month))
      && (forall i :: 0 <= i < |days| ==> Exists(days[i]))
  {
    if !(1 <= month <= 12) then Err(InvalidHeaderPeriod(year, month))
    else
      var last := DaysInMonth(year, month);
      var start := if half == First then 1 else 16;
      var end := if half == First then 15 else last;
      if !(MinYear <= year <= MaxYear) then Err(InvalidHeaderPeriod(year, month))
      else Ok(seq(end - start + 1, i requires 0 <= i <= end - start => Date(year, month, start + i)))
  }

  /** The days of a half follow each other day by day: each is the day after the one before. */
  lemma DayRangeConsecutive(year: int, month: int, half: Half)
    requires GetDayRange(year, month, half).Ok?
    ensures var days := GetDayRange(year, month, half).value;
      forall i :: 0 <= i < |days| - 1 ==> NextDay(days[i]) == Some(days[i + 1])
  {
    var days := GetDayRange(year, month, half).value;
    forall i | 0 <= i < |days| - 1 ensures NextDay(days[i]) == Some(days[i + 1]) {
      assert days[i].day < DaysInMonth(year, month);
    }
  }

  /** Consecutive dates are distinct, so they can key a dictionary. */
  lemma {:induction false} DayRangeDistinct(year: int, month: int, half: Half)
    requires GetDayRange(year, month, half).Ok?
    ensures Distinct(GetDayRange(year, month, half).value)
  {
    var days := GetDayRange(year, month, half).value;
    forall i, j | 0 <= i < j < |days| ensures days[i] != days[j] {
      assert days[i].day < days[j].day;
    }
  }

  /** The ISO strings of a list of dates. */
  function IsoKeys(days: seq<Date>): (ks: seq<string>)
    requires forall i :: 0 <= i < |days| ==> Exists(days[i])
    ensures |ks| == |days|
  {
    seq(|days|, i requires 0 <= i < |days| => IsoFormat(days[i]))
  }

  lemma IsoKeysDistinct(days: seq<Date>)
    requires forall i :: 0 <= i < |days| ==> Exists(days[i])
    requires Distinct(days)
    ensures Distinct(IsoKeys(days))
  {
    forall i, j | 0 <= i < j < |days| ensures IsoKeys(days)[i] != IsoKeys(days)[j] {
      if IsoKeys(days)[i] == IsoKeys(days)[j] {
        IsoInjective(days[i], days[j]);
      }
    }
  }

  /** The column letter of the `i`-th day: `chr(ord("B") + i)`. */
  function DayColumn(i: int): (c: char)
    requires 0 <= i < 31
    ensures 'B' <= c
  {
    ('B' as int + i) as char
  }

  /** What `_map_day_columns` builds from distinct days: the `i`-th used day goes to column `DayColumn(i)`. */
  function DayColumns(half: Half, days: seq<Date>): (cols: seq<(Date, char)>)
    requires |days| <= 31
  {
    var used := if half == First && |days| > 15 then days[..15] else days;
    seq(|used|, i requires 0 <= i < |used| => (used[i], DayColumn(i)))
  }

  /** Different days go to different columns, and a half of at most 16 days stays within columns B to Q. */
  lemma DayColumnsLetters(half: Half, days: seq<Date>)
    requires |days| <= 31
    ensures var cols := DayColumns(half, days);
      && (forall i, j :: 0 <= i < j < |cols| ==> cols[i].1 != cols[j].1)
      && (|days| <= 16 ==> forall i :: 0 <= i < |cols| ==> 'B' <= cols[i].1 <= 'Q')
  {
  }

  /** `_map_day_columns`: a dictionary from each day to its column letter. */
  method MapDayColumns(half: Half, days: seq<Date>) returns (columns: seq<(Date, char)>)
    requires |days| <= 31
    ensures Distinct(Keys(columns))
    ensures Distinct(days) ==> columns == DayColumns(half, days)
  {
    columns := [];
    if days == [] {
      return;
    }
    var used := if half == First && |days| > 15 then days[..15] else days;
    ghost var target := DayColumns(half, days);
    if Distinct(days) {
      assert Keys(target) == used;
      assert Distinct(used) by {
        forall i, j | 0 <= i < j < |used| ensures used[i] != used[j] {
          assert used[i] == days[i] && used[j] == days[j];
        }
      }
    }
    var idx := 0;
    while idx < |used|
      invariant 0 <= idx <= |used|
      invariant Distinct(Keys(columns))
      invariant Distinct(days) ==> columns == target[..idx]
    {
      if Distinct(days) {
        PutNext(target, idx);
      }
      columns := Put(columns, used[idx], DayColumn(idx));
      idx := idx + 1;
    }
  }

  /** Every day has a real date and the days are distinct, as in a dictionary keyed by date. */
  predicate ValidColumns(cols: seq<(Date, char)>) {
    (forall i :: 0 <= i < |cols| ==> Exists(cols[i].0)) && Distinct(Keys(cols))
  }

  /** The `hours_by_day` a row gets: for each day, the decimal value of that day's cell. */
  function HoursRow(ws: Sheet, row: int, cols: seq<(Date, char)>): (hours: seq<(string, real)>)
    requires ValidColumns(cols)
    ensures Keys(hours) == IsoKeys(Keys(cols))
    ensures forall i :: 0 <= i < |cols| ==> hours[i].1 == DecimalCell(ws, cols[i].1, row)
  {
    seq(|cols|, i requires 0 <= i < |cols| => (IsoFormat(cols[i].0), DecimalCell(ws, cols[i].1, row)))
  }

  /** The line `_parse_time_row` returns once label and charge code are known. */
  function TimeRow(ws: Sheet, row: int, cols: seq<(Date, char)>, group: Group,
                   lineLabel: string, chargeCode: Option<string>, category: Option<string>): TimeLine
    requires ValidColumns(cols)
  {
    var hours := HoursRow(ws, row, cols);
    TimeLine(row, group, lineLabel, category, chargeCode, hours, SumValues(hours))
  }

  /**
   * `_parse_time_row`: the label and charge code come from `labelCell` and
   * `codeCell` of the row when given, else from the arguments; the hours are
   * read day by day and summed into the row total.
   */
  method ParseTimeRow(ws: Sheet, row: int, cols: seq<(Date, char)>, group: Group,
                      labelCell: Option<char>, codeCell: Option<char>,
                      lineLabel: string, chargeCode: Option<string>, category: Option<string>)
    returns (line: TimeLine)
    requires ValidColumns(cols)
    ensures line == TimeRow(ws, row, cols, group,
                            if labelCell.Some? then StringCell(ws, labelCell.value, row) else lineLabel,
                            if codeCell.Some? then Some(StringCell(ws, codeCell.value, row)) else chargeCode,
                            category)
    ensures line.rowTotal == SumValues(line.hoursByDay)
    ensures Distinct(Keys(line.hoursByDay))
  {
    var lbl := lineLabel;
    var code := chargeCode;
    if labelCell.Some? {
      lbl := StringCell(ws, labelCell.value, row);
    }
    if codeCell.Some? {
      code := Some(StringCell(ws, codeCell.value, row));
    }
    var hours, total := ReadHours(ws, row, cols);
    IsoKeysDistinct(Keys(cols));
    line := TimeLine(row, group, lbl, category, code, hours, total);
  }

  /** The day loop of `_parse_time_row`: each day's cell value under the day's ISO key, and their running sum. */
  method ReadHours(ws: Sheet, row: int, cols: seq<(Date, char)>) returns (hours: seq<(string, real)>, total: real)
    requires ValidColumns(cols)
    ensures hours == HoursRow(ws, row, cols)
    ensures total == SumValues(hours)
  {
    hours := [];
    total := 0.0;
    ghost var target := HoursRow(ws, row, cols);
    IsoKeysDistinct(Keys(cols));
    var i := 0;
    while i < |cols|
      invariant 0 <= i <= |cols|
      invariant hours == target[..i]
      invariant total == SumValues(hours)
    {
      var (day, column) := cols[i];
      var value := DecimalCell(ws, column, row);
      assert target[i] == (IsoFormat(day), value) by {
        assert Keys(target)[i] == IsoKeys(Keys(cols))[i];
      }
      PutNext(target, i);
      SumValuesSnoc(hours, target[i]);
      hours := Put(hours, IsoFormat(day), value);
      total := total + value;
      i := i + 1;
    }
    assert hours == target;
  }

  /** Row `r` of the Validations sheet maps category `k` to a non-blank base code. */
  predicate MapsCategory(ws: Sheet, r: int, k: string) {
    k != "" && StringCell(ws, 'A', r) == k && StringCell(ws, 'B', r) != ""
  }

  /** The category map built from rows 1 .. `n` of the Validations sheet, later rows overwriting earlier ones. */
  function ValidationsUpTo(ws: Sheet, n: int): map<string, string>
    decreases n
  {
    if n < 1 then map[]
    else
      var m := ValidationsUpTo(ws, n - 1);
      var category := StringCell(ws, 'A', n);
      var base := StringCell(ws, 'B', n);
      if category != "" && base != "" then m[category := base] else m
  }

  /** `_parse_validations_map`: category (column A) to base charge code (column B); no sheet gives `{}`. */
  method ParseValidationsMap(ws: Option<Sheet>) returns (mapping: map<string, string>)
    ensures ws.None? ==> mapping == map[]
    ensures ws.Some? ==> mapping == ValidationsUpTo(ws.value, ws.value.maxRow)
  {
    mapping := map[];
    if ws.None? {
      return;
    }
    var sheet := ws.value;
    if sheet.maxRow < 1 {
      return;
    }
    var row := 1;
    while row <= sheet.maxRow
      invariant 1 <= row <= sheet.maxRow + 1
      invariant mapping == ValidationsUpTo(sheet, row - 1)
    {
      var category := StringCell(sheet, 'A', row);
      var baseCode := StringCell(sheet, 'B', row);
      if category != "" && baseCode != "" {
        mapping := mapping[category := baseCode];
      }
      row := row + 1;
    }
  }

  /** The last of rows 1 .. `n` that maps category `k`, or 0 when none does. */
  function LastMapping(ws: Sheet, n: int, k: string): (r: int)
    ensures r == 0 || (1 <= r <= n && MapsCategory(ws, r, k))
    ensures forall r' :: r < r' <= n ==> !MapsCategory(ws, r', k)
    decreases n
  {
    if n < 1 then 0
    else if MapsCategory(ws, n, k) then n
    else LastMapping(ws, n - 1, k)
  }

  /**
   * A category is in the map exactly when some row maps it, and then its base
   * code is the one on the last row that maps it.
   */
  lemma {:induction false} ValidationsLastWins(ws: Sheet, n: int, k: string)
    ensures k in ValidationsUpTo(ws, n) <==> LastMapping(ws, n, k) != 0
    ensures k in ValidationsUpTo(ws, n) ==> ValidationsUpTo(ws, n)[k] == StringCell(ws, 'B', LastMapping(ws, n, k))
    decreases n
  {
    if n >= 1 {
      ValidationsLastWins(ws, n - 1, k);
    }
  }

  /** The hours a line records for the day with ISO key `day`: `hours_by_day.get(day, 0)`. */
  function HoursOn(line: TimeLine, day: string): real {
    Get(line.hoursByDay, day).GetOr(0.0)
  }

  /** The hours all `lines` record for one day. */
  function SumHoursOn(lines: seq<TimeLine>, day: string): real
    decreases |lines|
  {
    if lines == [] then 0.0 else SumHoursOn(lines[..|lines| - 1], day) + HoursOn(lines[|lines| - 1], day)
  }

  /** The sum of the row totals of `lines`. */
  function SumRowTotals(lines: seq<TimeLine>): real
    decreases |lines|
  {
    if lines == [] then 0.0 else SumRowTotals(lines[..|lines| - 1]) + lines[|lines| - 1].rowTotal
  }

  /** `daily_totals.get(day, 0) + h`: a day's total after adding `h` hours to it. */
  function DayTotalPlus(daily: seq<(string, real)>, day: string, h: real): real {
    Get(daily, day).GetOr(0.0) + h
  }

  /** The daily totals after adding each of `hours` into its day: the day loop of `_accumulate_time_totals`. */
  function AddHours(daily: seq<(string, real)>, hours: seq<(string, real)>): (r: seq<(string, real)>)
    requires Distinct(Keys(daily))
    ensures Distinct(Keys(r))
    decreases |hours|
  {
    if hours == [] then daily
    else
      var prev := AddHours(daily, hours[..|hours| - 1]);
      var (day, h) := hours[|hours| - 1];
      Put(prev, day, DayTotalPlus(prev, day, h))
  }

  /**
   * When a line's days are the days of the totals, in the same order, adding
   * the line raises each day's total by that day's hours and keeps the keys.
   */
  lemma AddHoursPointwise(daily: seq<(string, real)>, hours: seq<(string, real)>)
    requires Distinct(Keys(daily)) && Keys(hours) == Keys(daily)
    ensures Keys(AddHours(daily, hours)) == Keys(daily)
    ensures forall i :: 0 <= i < |daily| ==> AddHours(daily, hours)[i].1 == daily[i].1 + hours[i].1
  {
    AddHoursPrefix(daily, hours, |hours|);
    assert hours[..|hours|] == hours;
  }

  lemma {:induction false} AddHoursPrefix(daily: seq<(string, real)>, hours: seq<(string, real)>, n: nat)
    requires Distinct(Keys(daily)) && Keys(hours) == Keys(daily) && n <= |hours|
    ensures Keys(AddHours(daily, hours[..n])) == Keys(daily)
    ensures forall i :: 0 <= i < |daily| ==>
      AddHours(daily, hours[..n])[i].1 == daily[i].1 + (if i < n then hours[i].1 else 0.0)
    decreases n
  {
    if n > 0 {
      var pre := hours[..n];
      assert pre[..n - 1] == hours[..n - 1];
      AddHoursPrefix(daily, hours, n - 1);
      var prev := AddHours(daily, hours[..n - 1]);
      var day, h := pre[n - 1].0, pre[n - 1].1;
      assert prev[n - 1].0 == day by {
        assert Keys(prev)[n - 1] == Keys(daily)[n - 1] == Keys(hours)[n - 1];
      }
      AddAtPosition(prev, n - 1, h);
      AddHoursLast(daily, pre);
    }
  }

  /** The last of `hours` is added after all the others. */
  lemma AddHoursLast(daily: seq<(string, real)>, hours: seq<(string, real)>)
    requires Distinct(Keys(daily)) && hours != []
    ensures var prev := AddHours(daily, hours[..|hours| - 1]);
      AddHours(daily, hours) == Put(prev, hours[|hours| - 1].0, DayTotalPlus(prev, hours[|hours| - 1].0, hours[|hours| - 1].1))
  {
  }

  /** Adding `h` to the day at position `i` of the totals raises that entry alone and keeps the keys. */
  lemma AddAtPosition(prev: seq<(string, real)>, i: int, h: real)
    requires Distinct(Keys(prev)) && 0 <= i < |prev|
    ensures var r := Put(prev, prev[i].0, DayTotalPlus(prev, prev[i].0, h));
      Keys(r) == Keys(prev) && |r| == |prev| &&
      forall j :: 0 <= j < |prev| ==> r[j].1 == prev[j].1 + (if j == i then h else 0.0)
  {
    GetAt(prev, i);
    PutAt(prev, i, prev[i].1 + h);
  }

  /** `sum(values)` of pointwise sums is the sum of the two sums. */
  lemma {:induction false} SumValuesPointwise(a: seq<(string, real)>, b: seq<(string, real)>, c: seq<(string, real)>)
    requires |a| == |b| == |c|
    requires forall i :: 0 <= i < |c| ==> c[i].1 == a[i].1 + b[i].1
    ensures SumValues(c) == SumValues(a) + SumValues(b)
    decreases |c|
  {
    if c != [] {
      var n := |c| - 1;
      SumValuesPointwise(a[..n], b[..n], c[..n]);
    }
  }

  /** `_accumulate_time_totals`: the line's hours go into the daily totals; its row total goes to its key, if any. */
  method AccumulateTimeTotals(line: TimeLine, daily: seq<(string, real)>, totals: map<string, real>,
                              codeKey: Option<string>)
    returns (daily': seq<(string, real)>, totals': map<string, real>)
    requires Distinct(Keys(daily))
    ensures daily' == AddHours(daily, line.hoursByDay)
    ensures totals' == if StrTruthy(codeKey) then AddTo(totals, codeKey.value, line.rowTotal) else totals
  {
    daily' := daily;
    var i := 0;
    while i < |line.hoursByDay|
      invariant 0 <= i <= |line.hoursByDay|
      invariant daily' == AddHours(daily, line.hoursByDay[..i])
    {
      var (day, hours) := line.hoursByDay[i];
      assert line.hoursByDay[..i + 1][..i] == line.hoursByDay[..i];
      daily' := Put(daily', day, DayTotalPlus(daily', day, hours));
      i := i + 1;
    }
    assert line.hoursByDay[..i] == line.hoursByDay;
    totals' := totals;
    if StrTruthy(codeKey) {
      totals' := AddTo(totals, codeKey.value, line.rowTotal);
    }
  }

  /** The key a line's row total is filed under (its charge code, the base code for marketing rows), or "". */
  function LineKey(line: TimeLine): string {
    line.chargeCode.GetOr("")
  }

  /** The totals map of one band: each non-empty key to the running sum of row totals filed under it. */
  function BandTotals(lines: seq<TimeLine>, g: Group): map<string, real>
    decreases |lines|
  {
    if lines == [] then map[]
    else
      var prev := BandTotals(lines[..|lines| - 1], g);
      var last := lines[|lines| - 1];
      if last.group == g && LineKey(last) != "" then AddTo(prev, LineKey(last), last.rowTotal) else prev
  }

  /** The sum of the row totals of the lines of band `g` filed under key `k`. */
  function BandSum(lines: seq<TimeLine>, g: Group, k: string): real
    decreases |lines|
  {
    if lines == [] then 0.0
    else
      var last := lines[|lines| - 1];
      BandSum(lines[..|lines| - 1], g, k) + (if last.group == g && LineKey(last) == k then last.rowTotal else 0.0)
  }

  /**
   * A band's totals map has exactly the non-empty keys of the band's lines,
   * and each key's total is the sum of the row totals filed under it; lines
   * with an empty key count in no band total.
   */
  lemma {:induction false} BandTotalsMeaning(lines: seq<TimeLine>, g: Group, k: string)
    ensures k in BandTotals(lines, g) <==>
      k != "" && exists i :: 0 <= i < |lines| && lines[i].group == g && LineKey(lines[i]) == k
    ensures k in BandTotals(lines, g) ==> BandTotals(lines, g)[k] == BandSum(lines, g, k)
    decreases |lines|
  {
    if lines != [] {
      var init := lines[..|lines| - 1];
      BandTotalsMeaning(init, g, k);
      if k != "" && k !in BandTotals(init, g) {
        BandSumZero(init, g, k);
      }
      if k != "" && exists i :: 0 <= i < |lines| && lines[i].group == g && LineKey(lines[i]) == k {
        var i :| 0 <= i < |lines| && lines[i].group == g && LineKey(lines[i]) == k;
        if i < |init| {
          assert init[i] == lines[i];
        }
      }
    }
  }

  lemma {:induction false} BandSumZero(lines: seq<TimeLine>, g: Group, k: string)
    requires forall i :: 0 <= i < |lines| ==> !(lines[i].group == g && LineKey(lines[i]) == k)
    ensures BandSum(lines, g, k) == 0.0
    decreases |lines|
  {
    if lines != [] {
      BandSumZero(lines[..|lines| - 1], g, k);
    }
  }

  /** Row totals of a line go to its key when the key is truthy, as `_accumulate_time_totals` files them. */
  function Accumulate(totals: map<string, real>, line: TimeLine): map<string, real> {
    if StrTruthy(line.chargeCode) then AddTo(totals, line.chargeCode.value, line.rowTotal) else totals
  }

  /** Filing a line under its band is exactly what `BandTotals` adds for that line. */
  lemma BandTotalsSnoc(lines: seq<TimeLine>, line: TimeLine, g: Group)
    ensures BandTotals(lines + [line], g) == if line.group == g then Accumulate(BandTotals(lines, g), line) else BandTotals(lines, g)
  {
    assert (lines + [line])[..|lines|] == lines;
  }

  /** `validations_map.get(category) if category else ""`: the base code a marketing row is filed under. */
  function MarketingBase(vmap: map<string, string>, category: string): (r: Option<string>)
    ensures category == "" ==> r == Some("")
    ensures category != "" ==> (r.Some? <==> category in vmap)
  {
    if category == "" then Some("")
    else if category in vmap then Some(vmap[category])
    else None
  }

  /** The sheet row of the `i`-th line: client rows 6-13, then marketing rows 16-29, then internal rows 30-36. */
  function LineRow(i: int): int {
    if i < 8 then 6 + i else 8 + i
  }

  /** The band of the `i`-th line. */
  function LineGroup(i: int): Group {
    if i < 8 then Client else if i < 22 then Marketing else Internal
  }

  /** The `i`-th of the 29 lines `_parse_time_half` builds. */
  function ExpectedLine(ws: Sheet, cols: seq<(Date, char)>, vmap: map<string, string>, i: int): (line: TimeLine)
    requires ValidColumns(cols) && 0 <= i < 29
    ensures line.row == LineRow(i) && line.group == LineGroup(i)
    ensures Keys(line.hoursByDay) == IsoKeys(Keys(cols)) && line.rowTotal == SumValues(line.hoursByDay)
  {
    var row := LineRow(i);
    if LineGroup(i) == Marketing then
      var category := StringCell(ws, 'A', row);
      TimeRow(ws, row, cols, Marketing, category, MarketingBase(vmap, category), Some(category))
    else
      TimeRow(ws, row, cols, LineGroup(i), StringCell(ws, 'A', row), Some(StringCell(ws, 'U', row)), None)
  }

  function ExpectedLines(ws: Sheet, cols: seq<(Date, char)>, vmap: map<string, string>): (lines: seq<TimeLine>)
    requires ValidColumns(cols)
    ensures |lines| == 29 && forall i :: 0 <= i < 29 ==> lines[i] == ExpectedLine(ws, cols, vmap, i)
  {
    seq(29, i requires 0 <= i < 29 => ExpectedLine(ws, cols, vmap, i))
  }

  /** `{d.isoformat(): Decimal("0") for d in day_range}`. */
  function ZeroTotals(keys: seq<string>): (r: seq<(string, real)>)
    ensures Keys(r) == keys && forall i :: 0 <= i < |r| ==> r[i].1 == 0.0
  {
    seq(|keys|, i requires 0 <= i < |keys| => (keys[i], 0.0))
  }

  /** The daily totals after accumulating every line in turn. */
  function DailyTotals(daily: seq<(string, real)>, lines: seq<TimeLine>): (r: seq<(string, real)>)
    requires Distinct(Keys(daily))
    ensures Distinct(Keys(r))
    decreases |lines|
  {
    if lines == [] then daily
    else AddHours(DailyTotals(daily, lines[..|lines| - 1]), lines[|lines| - 1].hoursByDay)
  }

  lemma {:induction false} SumZeroTotals(keys: seq<string>)
    ensures SumValues(ZeroTotals(keys)) == 0.0
    decreases |keys|
  {
    if keys != [] {
      SumZeroTotals(keys[..|keys| - 1]);
      assert ZeroTotals(keys)[..|keys| - 1] == ZeroTotals(keys[..|keys| - 1]);
    }
  }

  /** Every line is keyed by the days `keys`, in order, and its row total is the sum of its hours. */
  predicate LinesOver(lines: seq<TimeLine>, keys: seq<string>) {
    forall i :: 0 <= i < |lines| ==>
      Keys(lines[i].hoursByDay) == keys && lines[i].rowTotal == SumValues(lines[i].hoursByDay)
  }

  /**
   * Accumulated from zero, each day's total is the hours all lines record on
   * that day, and the sum of the daily totals is the sum of the row totals.
   */
  lemma {:induction false} DailyTotalsMeaning(keys: seq<string>, lines: seq<TimeLine>)
    requires Distinct(keys) && LinesOver(lines, keys)
    ensures Keys(DailyTotals(ZeroTotals(keys), lines)) == keys
    ensures forall i :: 0 <= i < |keys| ==> DailyTotals(ZeroTotals(keys), lines)[i].1 == SumHoursOn(lines, keys[i])
    ensures SumValues(DailyTotals(ZeroTotals(keys), lines)) == SumRowTotals(lines)
    decreases |lines|
  {
    var zero := ZeroTotals(keys);
    if lines == [] {
      SumZeroTotals(keys);
    } else {
      var init := lines[..|lines| - 1];
      var last := lines[|lines| - 1];
      assert LinesOver(init, keys) by {
        forall i | 0 <= i < |init| ensures init[i] == lines[i] { }
      }
      DailyTotalsMeaning(keys, init);
      var prev := DailyTotals(zero, init);
      AddLineTotals(keys, prev, last);
      assert DailyTotals(zero, lines) == AddHours(prev, last.hoursByDay);
    }
  }

  /** Adding one line raises each day's total by that line's hours on the day, and the sum by its row total. */
  lemma AddLineTotals(keys: seq<string>, prev: seq<(string, real)>, line: TimeLine)
    requires Distinct(keys) && Keys(prev) == keys
    requires Keys(line.hoursByDay) == keys && line.rowTotal == SumValues(line.hoursByDay)
    ensures Keys(AddHours(prev, line.hoursByDay)) == keys
    ensures forall i :: 0 <= i < |keys| ==> AddHours(prev, line.hoursByDay)[i].1 == prev[i].1 + HoursOn(line, keys[i])
    ensures SumValues(AddHours(prev, line.hoursByDay)) == SumValues(prev) + line.rowTotal
  {
    var r := AddHours(prev, line.hoursByDay);
    AddHoursPointwise(prev, line.hoursByDay);
    SumValuesPointwise(prev, line.hoursByDay, r);
    forall i | 0 <= i < |keys| ensures r[i].1 == prev[i].1 + HoursOn(line, keys[i]) {
      assert Keys(line.hoursByDay)[i] == keys[i];
      GetAt(line.hoursByDay, i);
    }
  }

  /** The days of a half in the shape `_get_day_range` gives them. */
  predicate DayRangeShape(half: Half, days: seq<Date>) {
    |days| <= 16 && (half == First ==> |days| == 15)
    && (forall i :: 0 <= i < |days| ==> Exists(days[i])) && Distinct(days)
  }

  lemma DayColumnsValid(half: Half, days: seq<Date>)
    requires DayRangeShape(half, days)
    ensures ValidColumns(DayColumns(half, days)) && Keys(DayColumns(half, days)) == days
  {
    var cols := DayColumns(half, days);
    assert Keys(cols) == days;
  }

  /** What `_parse_time_half` returns for a sheet whose header names a real month. */
  function FilledHalf(ws: Sheet, half: Half, days: seq<Date>, vmap: map<string, string>): TimeHalf
    requires DayRangeShape(half, days)
  {
    DayColumnsValid(half, days);
    IsoKeysDistinct(days);
    var keys := IsoKeys(days);
    var lines := ExpectedLines(ws, DayColumns(half, days), vmap);
    var daily := DailyTotals(ZeroTotals(keys), lines);
    TimeHalf(keys, daily, lines, BandTotals(lines, Client), BandTotals(lines, Marketing),
             BandTotals(lines, Internal), SumValues(daily))
  }

  /**
   * `_parse_time_half`: no sheet or a falsy header year or month gives the
   * empty half; a header that is no real month raises; otherwise the half
   * built from the day range.
   */
  function HalfSpec(ws: Option<Sheet>, half: Half, year: Option<int>, month: Option<int>,
                    vmap: map<string, string>): (r: Result<TimeHalf, ParseError>)
    ensures !(ws.Some? && IntTruthy(year) && IntTruthy(month)) ==> r == Ok(EmptyHalf)
    ensures r.Err? <==> ws.Some? && IntTruthy(year) && IntTruthy(month)
                        && !(1 <= month.value <= 12 && MinYear <= year.value <= MaxYear)
  {
    if ws.None? || !IntTruthy(year) || !IntTruthy(month) then Ok(EmptyHalf)
    else
      match GetDayRange(year.value, month.value, half)
      case Err(e) => Err(e)
      case Ok(days) =>
        DayRangeDistinct(year.value, month.value, half);
        Ok(FilledHalf(ws.value, half, days, vmap))
  }

  /**
   * A parsed half lists its days in order, keys the daily totals by exactly
   * those days with each day's total the hours all 29 lines record on it, and
   * its total hours are both the sum of the daily totals and the sum of the
   * row totals.
   */
  lemma HalfTotals(ws: Sheet, half: Half, days: seq<Date>, vmap: map<string, string>)
    requires DayRangeShape(half, days)
    ensures var t := FilledHalf(ws, half, days, vmap);
      && |t.lines| == 29
      && |t.dates| == |t.dailyTotals| == |days|
      && (forall i :: 0 <= i < |t.dates| ==> t.dailyTotals[i] == (t.dates[i], SumHoursOn(t.lines, t.dates[i])))
      && t.totalHours == SumValues(t.dailyTotals) == SumRowTotals(t.lines)
  {
    DayColumnsValid(half, days);
    IsoKeysDistinct(days);
    var keys := IsoKeys(days);
    var cols := DayColumns(half, days);
    var lines := ExpectedLines(ws, cols, vmap);
    forall i | 0 <= i < |lines|
      ensures Keys(lines[i].hoursByDay) == keys && lines[i].rowTotal == SumValues(lines[i].hoursByDay)
    {
      assert lines[i] == ExpectedLine(ws, cols, vmap, i);
    }
    assert LinesOver(lines, keys);
    DailyTotalsMeaning(keys, lines);
    var daily := DailyTotals(ZeroTotals(keys), lines);
    forall i | 0 <= i < |keys| ensures daily[i] == (keys[i], SumHoursOn(lines, keys[i])) {
      assert Keys(daily)[i] == keys[i];
    }
    assert FilledHalf(ws, half, days, vmap) == TimeHalf(keys, daily, lines, BandTotals(lines, Client),
      BandTotals(lines, Marketing), BandTotals(lines, Internal), SumValues(daily));
  }

  /** A header naming a real month gives the half built from its day range. */
  lemma HalfSpecFilled(ws: Sheet, half: Half, year: int, month: int, vmap: map<string, string>)
    requires year != 0 && month != 0 && GetDayRange(year, month, half).Ok?
    ensures DayRangeShape(half, GetDayRange(year, month, half).value)
    ensures HalfSpec(Some(ws), half, Some(year), Some(month), vmap)
         == Ok(FilledHalf(ws, half, GetDayRange(year, month, half).value, vmap))
  {
    DayRangeDistinct(year, month, half);
  }

  /** The loop state of `_parse_time_half` after its first `n` lines. */
  ghost predicate Progress(ws: Sheet, cols: seq<(Date, char)>, vmap: map<string, string>, zero: seq<(string, real)>,
                           n: int, lines: seq<TimeLine>, daily: seq<(string, real)>,
                           client: map<string, real>, marketing: map<string, real>, other: map<string, real>)
    requires ValidColumns(cols) && Distinct(Keys(zero)) && 0 <= n <= 29
  {
    && |lines| == n && (forall i :: 0 <= i < n ==> lines[i] == ExpectedLine(ws, cols, vmap, i))
    && daily == DailyTotals(zero, lines)
    && client == BandTotals(lines, Client)
    && marketing == BandTotals(lines, Marketing)
    && other == BandTotals(lines, Internal)
  }

  lemma ProgressStep(ws: Sheet, cols: seq<(Date, char)>, vmap: map<string, string>, zero: seq<(string, real)>,
                     n: int, lines: seq<TimeLine>, daily: seq<(string, real)>,
                     client: map<string, real>, marketing: map<string, real>, other: map<string, real>,
                     line: TimeLine, client': map<string, real>, marketing': map<string, real>, other': map<string, real>)
    requires ValidColumns(cols) && Distinct(Keys(zero)) && 0 <= n < 29
    requires Progress(ws, cols, vmap, zero, n, lines, daily, client, marketing, other)
    requires line == ExpectedLine(ws, cols, vmap, n)
    requires client' == if line.group == Client then Accumulate(client, line) else client
    requires marketing' == if line.group == Marketing then Accumulate(marketing, line) else marketing
    requires other' == if line.group == Internal then Accumulate(other, line) else other
    ensures Progress(ws, cols, vmap, zero, n + 1, lines + [line], AddHours(daily, line.hoursByDay),
                     client', marketing', other')
  {
    var lines' := lines + [line];
    forall i | 0 <= i < n + 1 ensures lines'[i] == ExpectedLine(ws, cols, vmap, i) {
      if i < n {
        assert lines'[i] == lines[i];
      }
    }
    assert lines'[..|lines|] == lines;
    assert DailyTotals(zero, lines') == AddHours(daily, line.hoursByDay);
    BandTotalsSnoc(lines, line, Client);
    BandTotalsSnoc(lines, line, Marketing);
    BandTotalsSnoc(lines, line, Internal);
  }

  /** The `i`-th line as the row loops of `_parse_time_half` read it. */
  lemma BandLine(ws: Sheet, cols: seq<(Date, char)>, vmap: map<string, string>, i: int)
    requires ValidColumns(cols) && 0 <= i < 29
    ensures var row := LineRow(i); var category := StringCell(ws, 'A', row);
      ExpectedLine(ws, cols, vmap, i) ==
        if LineGroup(i) == Marketing
        then TimeRow(ws, row, cols, Marketing, category, MarketingBase(vmap, category), Some(category))
        else TimeRow(ws, row, cols, LineGroup(i), category, Some(StringCell(ws, 'U', row)), None)
  {
  }

  /**
   * The three row loops of `_parse_time_half`: client rows 6-13, marketing
   * rows 16-29 and internal rows 30-36, each line read and then accumulated
   * into the daily totals and its band's totals.
   */
  method ReadHalfRows(sheet: Sheet, cols: seq<(Date, char)>, vmap: map<string, string>, zero: seq<(string, real)>)
    returns (lines: seq<TimeLine>, daily: seq<(string, real)>,
             client: map<string, real>, marketing: map<string, real>, other: map<string, real>)
    requires ValidColumns(cols) && Distinct(Keys(zero))
    ensures lines == ExpectedLines(sheet, cols, vmap)
    ensures daily == DailyTotals(zero, lines)
    ensures client == BandTotals(lines, Client)
    ensures marketing == BandTotals(lines, Marketing)
    ensures other == BandTotals(lines, Internal)
  {
    assert Progress(sheet, cols, vmap, zero, 0, [], zero, map[], map[], map[]);
    lines, daily, client := ReadClientRows(sheet, cols, vmap, zero, [], zero, map[]);
    lines, daily, marketing := ReadMarketingRows(sheet, cols, vmap, zero, lines, daily, client, map[]);
    lines, daily, other := ReadInternalRows(sheet, cols, vmap, zero, lines, daily, client, marketing, map[]);
    assert lines == ExpectedLines(sheet, cols, vmap);
  }

  /** Client rows 6-13: label from column A, charge code from column U. */
  method ReadClientRows(sheet: Sheet, cols: seq<(Date, char)>, vmap: map<string, string>, zero: seq<(string, real)>,
                        lines0: seq<TimeLine>, daily0: seq<(string, real)>, client0: map<string, real>)
    returns (lines: seq<TimeLine>, daily: seq<(string, real)>, client: map<string, real>)
    requires ValidColumns(cols) && Distinct(Keys(zero))
    requires Progress(sheet, cols, vmap, zero, 0, lines0, daily0, client0, map[], map[])
    ensures Progress(sheet, cols, vmap, zero, 8, lines, daily, client, map[], map[])
  {
    lines, daily, client := lines0, daily0, client0;
    var row := 6;
    while row < 14
      invariant 6 <= row <= 14
      invariant Progress(sheet, cols, vmap, zero, row - 6, lines, daily, client, map[], map[])
    {
      var line := ParseTimeRow(sheet, row, cols, Client, Some('A'), Some('U'), "", None, None);
      BandLine(sheet, cols, vmap, row - 6);
      ProgressStep(sheet, cols, vmap, zero, row - 6, lines, daily, client, map[], map[],
                   line, Accumulate(client, line), map[], map[]);
      lines := lines + [line];
      daily, client := AccumulateTimeTotals(line, daily, client, line.chargeCode);
      row := row + 1;
    }
  }

  /** Marketing rows 16-29: the category in column A names the row, its base code comes from the Validations map. */
  method ReadMarketingRows(sheet: Sheet, cols: seq<(Date, char)>, vmap: map<string, string>, zero: seq<(string, real)>,
                           lines0: seq<TimeLine>, daily0: seq<(string, real)>, client: map<string, real>,
                           marketing0: map<string, real>)
    returns (lines: seq<TimeLine>, daily: seq<(string, real)>, marketing: map<string, real>)
    requires ValidColumns(cols) && Distinct(Keys(zero))
    requires Progress(sheet, cols, vmap, zero, 8, lines0, daily0, client, marketing0, map[])
    ensures Progress(sheet, cols, vmap, zero, 22, lines, daily, client, marketing, map[])
  {
    lines, daily, marketing := lines0, daily0, marketing0;
    var row := 16;
    while row < 30
      invariant 16 <= row <= 30
      invariant Progress(sheet, cols, vmap, zero, row - 8, lines, daily, client, marketing, map[])
    {
      var category := StringCell(sheet, 'A', row);
      var baseCode := MarketingBase(vmap, category);
      var line := ParseTimeRow(sheet, row, cols, Marketing, None, None, category, baseCode, Some(category));
      BandLine(sheet, cols, vmap, row - 8);
      ProgressStep(sheet, cols, vmap, zero, row - 8, lines, daily, client, marketing, map[],
                   line, client, Accumulate(marketing, line), map[]);
      lines := lines + [line];
      daily, marketing := AccumulateTimeTotals(line, daily, marketing, baseCode);
      row := row + 1;
    }
  }

  /** Internal rows 30-36: label from column A, charge code from column U. */
  method ReadInternalRows(sheet: Sheet, cols: seq<(Date, char)>, vmap: map<string, string>, zero: seq<(string, real)>,
                          lines0: seq<TimeLine>, daily0: seq<(string, real)>, client: map<string, real>,
                          marketing: map<string, real>, other0: map<string, real>)
    returns (lines: seq<TimeLine>, daily: seq<(string, real)>, other: map<string, real>)
    requires ValidColumns(cols) && Distinct(Keys(zero))
    requires Progress(sheet, cols, vmap, zero, 22, lines0, daily0, client, marketing, other0)
    ensures Progress(sheet, cols, vmap, zero, 29, lines, daily, client, marketing, other)
  {
    lines, daily, other := lines0, daily0, other0;
    var row := 30;
    while row < 37
      invariant 30 <= row <= 37
      invariant Progress(sheet, cols, vmap, zero, row - 8, lines, daily, client, marketing, other)
    {
      var line := ParseTimeRow(sheet, row, cols, Internal, Some('A'), Some('U'), "", None, None);
      BandLine(sheet, cols, vmap, row - 8);
      ProgressStep(sheet, cols, vmap, zero, row - 8, lines, daily, client, marketing, other,
                   line, client, marketing, Accumulate(other, line));
      lines := lines + [line];
      daily, other := AccumulateTimeTotals(line, daily, other, line.chargeCode);
      row := row + 1;
    }
  }

  /**
   * `_parse_time_half`: no sheet or a falsy header year or month gives the
   * empty half, a header that is no real month an error; otherwise the day
   * range, its columns, the rows, and the total of the daily totals.
   */
  method ParseTimeHalf(ws: Option<Sheet>, half: Half, year: Option<int>, month: Option<int>,
                       vmap: map<string, string>)
    returns (r: Result<TimeHalf, ParseError>)
    ensures r == HalfSpec(ws, half, year, month, vmap)
  {
    if ws.None? || !IntTruthy(year) || !IntTruthy(month) {
      return Ok(EmptyHalf);
    }
    var dayRange := GetDayRange(year.value, month.value, half);
    if dayRange.Err? {
      return Err(dayRange.error);
    }
    var days := dayRange.value;
    HalfSpecFilled(ws.value, half, year.value, month.value, vmap);
    var cols := MapDayColumns(half, days);
    DayColumnsValid(half, days);
    IsoKeysDistinct(days);
    var keys := IsoKeys(days);
    var lines, daily, client, marketing, other := ReadHalfRows(ws.value, cols, vmap, ZeroTotals(keys));
    r := Ok(TimeHalf(keys, daily, lines, client, marketing, other, SumValues(daily)));
  }
}
