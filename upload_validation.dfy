/**
 * `validate_parsed_workbook` and its helpers: the checks run over a parsed
 * workbook, each appending ERROR or WARN issues to one list in a fixed
 * order: missing sheets, the header period, the template version, each time
 * half, each expense item, and four reconciliation checks.  The clock and
 * the settings are parameters.
 */
module UploadValidation {
  import opened Wrappers
  import opened Text
  import opened Calendar
  import opened Cells
  import opened Decimals
  import opened TimeParser
  import opened ExpenseParser
  import opened Workbook
  import opened SubmissionWindows

  datatype Severity = Error | Warn

  /** The stable issue codes. */
  datatype Code =
    | StructureMissingSheet
    | StructureMissingCell
    | StructureInvalidPeriod
    | PeriodOutsideSubmissionWindow
    | StructureUnknownTemplateVersion
    | TimeMissingChargeCode
    | TimeMarketingCategoryNotSelected
    | TimeNegativeHours
    | TimeNonstandardIncrement
    | TimeDailyMinimumNotMet
    | TimeDayExceeds24
    | ExpenseMissingChargeCode
    | ExpenseMissingDate
    | ExpenseMissingDescription
    | ExpenseUnknownChargeCode
    | ExpenseMarketingAllocationMismatch
    | ExpenseClientBilledMismatch
    | ExpenseKeystonePaidMismatch
    | ExpenseTotalMismatch

  /** One issue as `_add_issue` records it, without the message and hint prose. */
  datatype Issue = Issue(severity: Severity, code: Code, location: string)

  /**
   * The settings the validator reads: `UPLOAD_GRACE_CALENDAR_DAYS`,
   * `MIN_WEEKDAY_HOURS`, `TIME_INCREMENT_MINUTES` and
   * `AGGREGATION_ROUNDING_TOLERANCE`.
   */
  datatype Settings = Settings(graceDays: int, minWeekdayHours: real, incrementMinutes: int, tolerance: real)

  /** The defaults used when a setting is absent. */
  const DefaultSettings := Settings(10, 8.0, 15, 0.01)

  const HeaderLocation := "Time-1st half of month!T1/V1"
  const TemplateLocation := "Time-1st half of month!A39"
  const CrossCheckLocation := "Expenses-Main/Additional"

  /** The validator's caller blocks the upload when any issue is an ERROR. */
  predicate HasBlockingErrors(issues: seq<Issue>) {
    exists i :: 0 <= i < |issues| && issues[i].severity == Error
  }

  /** `has_blocking = any(...)`: a scan for the first ERROR. */
  method BlockingErrors(issues: seq<Issue>) returns (blocking: bool)
    ensures blocking <==> HasBlockingErrors(issues)
    ensures blocking <==> exists issue :: issue in issues && issue.severity == Error
  {
    blocking := false;
    for i := 0 to |issues|
      invariant !blocking
      invariant forall j :: 0 <= j < i ==> issues[j].severity != Error
    {
      if issues[i].severity == Error {
        return true;
      }
    }
  }

  // ---------------------------------------------------------------------
  // Issue lists built item by item

  /** The issues of the first `n` elements of `xs`, in order: what a loop appending per element produces. */
  function FlatMapUpTo<T>(xs: seq<T>, f: T -> seq<Issue>, n: int): seq<Issue>
    requires 0 <= n <= |xs|
    decreases n
  {
    if n == 0 then [] else FlatMapUpTo(xs, f, n - 1) + f(xs[n - 1])
  }

  function FlatMap<T>(xs: seq<T>, f: T -> seq<Issue>): seq<Issue> {
    FlatMapUpTo(xs, f, |xs|)
  }

  /** No element among the first `n` satisfies `p`; the loops that stop at the first such element keep it. */
  ghost predicate NoneUpTo<T>(xs: seq<T>, p: T -> bool, n: int)
    requires 0 <= n <= |xs|
    decreases n
  {
    n == 0 || (NoneUpTo(xs, p, n - 1) && !p(xs[n - 1]))
  }

  lemma {:induction false} NoneUpToMeaning<T>(xs: seq<T>, p: T -> bool, n: int)
    requires 0 <= n <= |xs|
    requires NoneUpTo(xs, p, n)
    ensures forall k :: 0 <= k < n ==> !p(xs[k])
    decreases n
  {
    if n > 0 {
      NoneUpToMeaning(xs, p, n - 1);
    }
  }

  lemma AppendAssoc(a: seq<Issue>, b: seq<Issue>, c: seq<Issue>)
    ensures a + b + c == a + (b + c)
  {
  }

  /** One more element's issues extend the running result. */
  lemma FlatMapStep<T>(prefix: seq<Issue>, xs: seq<T>, f: T -> seq<Issue>, i: int)
    requires 0 <= i < |xs|
    ensures prefix + FlatMapUpTo(xs, f, i) + f(xs[i]) == prefix + FlatMapUpTo(xs, f, i + 1)
  {
    AppendAssoc(prefix, FlatMapUpTo(xs, f, i), f(xs[i]));
  }

  lemma AppendNothing(a: seq<Issue>)
    ensures a + [] == a
  {
  }

  /** An issue is among the first `n` elements' issues exactly when one of them produces it. */
  lemma {:induction false} FlatMapUpToMember<T>(xs: seq<T>, f: T -> seq<Issue>, n: int, issue: Issue)
    requires 0 <= n <= |xs|
    ensures issue in FlatMapUpTo(xs, f, n) <==> exists i :: 0 <= i < n && issue in f(xs[i])
    decreases n
  {
    if n > 0 {
      FlatMapUpToMember(xs, f, n - 1, issue);
    }
  }

  lemma FlatMapMember<T>(xs: seq<T>, f: T -> seq<Issue>, issue: Issue)
    ensures issue in FlatMap(xs, f) <==> exists i :: 0 <= i < |xs| && issue in f(xs[i])
  {
    FlatMapUpToMember(xs, f, |xs|, issue);
  }

  // ---------------------------------------------------------------------
  // Structure

  /** `set(sheets_present)`. */
  function NameSet(names: seq<string>): (r: set<string>)
    ensures forall name :: name in r <==> name in names
  {
    set name | name in names
  }

  /** One missing-sheet ERROR, located at the sheet's name, when `name` is absent. */
  function SheetRule(present: set<string>): string -> seq<Issue> {
    name => if name in present then [] else [Issue(Error, StructureMissingSheet, name)]
  }

  function MissingSheetIssues(present: set<string>): seq<Issue> {
    FlatMap(RequiredSheets, SheetRule(present))
  }

  /** The missing-sheet loop over the required sheets, in their order. */
  method CheckSheets(present: set<string>, issues: seq<Issue>) returns (out: seq<Issue>)
    ensures out == issues + MissingSheetIssues(present)
  {
    out := issues;
    for i := 0 to |RequiredSheets|
      invariant out == issues + FlatMapUpTo(RequiredSheets, SheetRule(present), i)
    {
      var name := RequiredSheets[i];
      if name !in present {
        out := out + [Issue(Error, StructureMissingSheet, name)];
      }
    }
  }

  /**
   * Exactly one ERROR per required sheet that is absent, and nothing else:
   * every structure issue names a missing required sheet.
   */
  lemma MissingSheetsMeaning(present: set<string>, issue: Issue)
    ensures issue in MissingSheetIssues(present) <==>
      issue.severity == Error && issue.code == StructureMissingSheet
      && issue.location in RequiredSheets && issue.location !in present
  {
    FlatMapMember(RequiredSheets, SheetRule(present), issue);
    if issue.location in RequiredSheets && issue.location !in present
       && issue.severity == Error && issue.code == StructureMissingSheet {
      var i :| 0 <= i < |RequiredSheets| && RequiredSheets[i] == issue.location;
      assert issue in SheetRule(present)(RequiredSheets[i]);
    }
  }

  /**
   * The header checks, exclusive and in order: a missing year or month; a
   * month outside 1..12 or a year before 2000; a period outside today's
   * submission windows.  Computing the windows raises near the end of the
   * calendar.
   */
  function HeaderIssues(year: Option<int>, month: Option<int>, today: ValidDate, grace: int)
    : Result<seq<Issue>, DateError>
  {
    if !IntTruthy(year) || !IntTruthy(month) then Ok([Issue(Error, StructureMissingCell, HeaderLocation)])
    else if !(1 <= month.value <= 12) || year.value < 2000 then
      Ok([Issue(Error, StructureInvalidPeriod, HeaderLocation)])
    else
      match SubmissionWindowsOf(today, grace)
      case Err(e) => Err(e)
      case Ok(windows) =>
        Ok(if (year.value, month.value) in windows then []
           else [Issue(Error, PeriodOutsideSubmissionWindow, HeaderLocation)])
  }

  /** The header checks, calling the window computation only for a well-formed period. */
  method CheckHeader(year: Option<int>, month: Option<int>, today: ValidDate, grace: int, issues: seq<Issue>)
    returns (r: Result<seq<Issue>, DateError>)
    ensures r.Ok? <==> HeaderIssues(year, month, today, grace).Ok?
    ensures r.Ok? ==> r.value == issues + HeaderIssues(year, month, today, grace).value
    ensures r.Err? ==> HeaderIssues(year, month, today, grace) == Err(r.error)
  {
    if !IntTruthy(year) || !IntTruthy(month) {
      return Ok(issues + [Issue(Error, StructureMissingCell, HeaderLocation)]);
    } else if !(1 <= month.value <= 12) || year.value < 2000 {
      return Ok(issues + [Issue(Error, StructureInvalidPeriod, HeaderLocation)]);
    }
    var windows := SubmissionWindows.SubmissionWindows(today, grace);
    if windows.Err? {
      return Err(windows.error);
    }
    if (year.value, month.value) !in windows.value {
      return Ok(issues + [Issue(Error, PeriodOutsideSubmissionWindow, HeaderLocation)]);
    }
    r := Ok(issues);
  }

  /**
   * At most one header issue, always an ERROR at the header cells; it is
   * the missing-cell issue exactly when the year or month is falsy, the
   * invalid-period issue exactly when both are set but the month is outside
   * 1..12 or the year is before 2000, and otherwise the window issue
   * exactly when the period is not among today's windows.
   */
  lemma HeaderMeaning(year: Option<int>, month: Option<int>, today: ValidDate, grace: int)
    requires HeaderIssues(year, month, today, grace).Ok?
    ensures var h := HeaderIssues(year, month, today, grace).value;
      && |h| <= 1
      && (forall issue :: issue in h ==> issue.severity == Error && issue.location == HeaderLocation)
      && (Issue(Error, StructureMissingCell, HeaderLocation) in h <==> !IntTruthy(year) || !IntTruthy(month))
      && (Issue(Error, StructureInvalidPeriod, HeaderLocation) in h <==>
            IntTruthy(year) && IntTruthy(month) && (!(1 <= month.value <= 12) || year.value < 2000))
      && (Issue(Error, PeriodOutsideSubmissionWindow, HeaderLocation) in h <==>
            IntTruthy(year) && IntTruthy(month) && 1 <= month.value <= 12 && year.value >= 2000
            && (year.value, month.value) !in SubmissionWindowsOf(today, grace).value)
  {
  }

  /** `metadata.get("template_version", "")`. */
  function TemplateVersionOf(metadata: Option<Metadata>): string {
    if metadata.None? then "" else metadata.value.templateVersion
  }

  /** A non-empty template version without the word "Version" gives a WARN. */
  function TemplateIssues(metadata: Option<Metadata>): (r: seq<Issue>)
    ensures |r| <= 1
    ensures r != [] <==> TemplateVersionOf(metadata) != "" && !Contains(TemplateVersionOf(metadata), "Version")
    ensures forall issue :: issue in r ==> issue == Issue(Warn, StructureUnknownTemplateVersion, TemplateLocation)
  {
    var version := TemplateVersionOf(metadata);
    if version != "" && !Contains(version, "Version") then
      [Issue(Warn, StructureUnknownTemplateVersion, TemplateLocation)]
    else []
  }

  // ---------------------------------------------------------------------
  // Time halves

  /** Missing minimums block only while the half's submission window is open. */
  function MinimumSeverity(enforce: bool): Severity {
    if enforce then Error else Warn
  }

  /** The configured increment, in hours. */
  function Increment(s: Settings): real {
    IncrementHours(s.incrementMinutes)
  }

  /** `(x or "").strip()`. */
  function StrippedOr(x: Option<string>): string {
    if x.None? then "" else Strip(x.value)
  }

  /** A category the employee has not chosen: blank, or the dropdown's placeholder in any case. */
  predicate NoCategory(category: string) {
    category == "" || Lower(category) == "select category"
  }

  /** The two rules on a line with hours: a client line needs a charge code, a marketing line a category. */
  function LineRuleIssues(sheet: string, severity: Severity, line: TimeLine): seq<Issue> {
    (if line.group == Client && line.rowTotal > 0.0 && StrippedOr(line.chargeCode) == "" then
       [Issue(severity, TimeMissingChargeCode, sheet + "!U" + IntStr(line.row))]
     else [])
    + (if line.group == Marketing && line.rowTotal > 0.0 && NoCategory(StrippedOr(line.category)) then
         [Issue(severity, TimeMarketingCategoryNotSelected, sheet + "!A" + IntStr(line.row))]
       else [])
  }

  /** `hours % increment != 0`, for a remainder that does not raise. */
  predicate OffIncrement(hours: real, increment: real) {
    var rest := Remainder(hours, increment);
    rest.Ok? && rest.value != 0.0
  }

  /** `hours % increment` raises InvalidOperation: a zero increment, or a quotient of more than 28 digits. */
  predicate CellRaises(increment: real, entry: (string, real)) {
    Remainder(entry.1, increment).Err?
  }

  /** Some hour cell of the line makes the remainder raise. */
  predicate LineRaises(increment: real, line: TimeLine) {
    exists j :: 0 <= j < |line.hoursByDay| && CellRaises(increment, line.hoursByDay[j])
  }

  /** Some hour cell of the half makes the remainder raise. */
  predicate HalfRaises(half: TimeHalf, s: Settings) {
    exists i :: 0 <= i < |half.lines| && LineRaises(Increment(s), half.lines[i])
  }

  function CellRaisesAt(increment: real): ((string, real)) -> bool {
    entry => CellRaises(increment, entry)
  }

  function LineRaisesAt(increment: real): TimeLine -> bool {
    line => LineRaises(increment, line)
  }

  /** The rules on one hour cell: negative hours are an ERROR, an odd increment a WARN. */
  function CellIssues(sheet: string, row: int, increment: real, entry: (string, real)): seq<Issue> {
    var location := sheet + "!" + IntStr(row);
    (if entry.1 < 0.0 then [Issue(Error, TimeNegativeHours, location)] else [])
    + (if OffIncrement(entry.1, increment) then [Issue(Warn, TimeNonstandardIncrement, location)] else [])
  }

  function CellRule(sheet: string, row: int, increment: real): ((string, real)) -> seq<Issue> {
    entry => CellIssues(sheet, row, increment, entry)
  }

  function LineIssues(sheet: string, severity: Severity, increment: real, line: TimeLine): seq<Issue> {
    LineRuleIssues(sheet, severity, line) + FlatMap(line.hoursByDay, CellRule(sheet, line.row, increment))
  }

  function LineRule(sheet: string, severity: Severity, increment: real): TimeLine -> seq<Issue> {
    line => LineIssues(sheet, severity, increment, line)
  }

  /** `_parse_date_str`: an empty or malformed key gives no date; a date's ISO form is the key itself. */
  function ParseDateStr(value: string): (r: Option<Date>)
    ensures r.Some? ==> Exists(r.value) && IsoFormat(r.value) == value
    ensures r.None? <==> value == "" || ParseIso(value).None?
  {
    if value == "" then None
    else
      var d := ParseIso(value);
      if d.Some? then IsoCanonical(value); d else d
  }

  /**
   * The rules on one daily total: a weekday below the minimum in a half
   * that has hours, and a day over 24 hours.  Keys that are no date are
   * skipped.
   */
  function DayIssues(sheet: string, halfHasHours: bool, minimum: real, severity: Severity,
                     isWorkday: ValidDate -> bool, entry: (string, real))
    : seq<Issue>
  {
    match ParseDateStr(entry.0)
    case None => []
    case Some(day) =>
      (if halfHasHours && isWorkday(day) && entry.1 < minimum then
         [Issue(severity, TimeDailyMinimumNotMet, sheet + "!" + IsoFormat(day))]
       else [])
      + (if entry.1 > 24.0 then [Issue(Error, TimeDayExceeds24, sheet + "!" + IsoFormat(day))] else [])
  }

  function DayRule(sheet: string, halfHasHours: bool, minimum: real, severity: Severity, isWorkday: ValidDate -> bool)
    : ((string, real)) -> seq<Issue>
  {
    entry => DayIssues(sheet, halfHasHours, minimum, severity, isWorkday, entry)
  }

  /** `day.weekday() < 5`, passed to the daily rules as a value. */
  function WorkdayTest(): ValidDate -> bool {
    (d: ValidDate) => IsWorkday(d)
  }

  /** `_validate_time_half`: the line and cell rules in line order, then the daily rules in day order. */
  function HalfIssues(sheet: string, half: TimeHalf, enforce: bool, s: Settings): seq<Issue> {
    var severity := MinimumSeverity(enforce);
    FlatMap(half.lines, LineRule(sheet, severity, Increment(s)))
    + FlatMap(half.dailyTotals, DayRule(sheet, half.totalHours > 0.0, s.minWeekdayHours, severity, WorkdayTest()))
  }

  /**
   * The checks on one line: the two line rules, then the hour cells.  Each
   * check's issues are gathered and appended together, which leaves the
   * list as the source's one-by-one appends do.  A cell whose remainder
   * raises ends the check.
   */
  method CheckLine(sheet: string, severity: Severity, increment: real, line: TimeLine, issues: seq<Issue>)
    returns (r: Result<seq<Issue>, DecimalError>)
    ensures r.Err? <==> LineRaises(increment, line)
    ensures r.Ok? ==> r.value == issues + LineIssues(sheet, severity, increment, line)
  {
    var chargeCode := StrippedOr(line.chargeCode);
    var category := StrippedOr(line.category);
    var missing: seq<Issue> := [];
    if line.group == Client && line.rowTotal > 0.0 && chargeCode == "" {
      missing := [Issue(severity, TimeMissingChargeCode, sheet + "!U" + IntStr(line.row))];
    }
    var unchosen: seq<Issue> := [];
    if line.group == Marketing && line.rowTotal > 0.0 {
      if category == "" || Lower(category) == "select category" {
        unchosen := [Issue(severity, TimeMarketingCategoryNotSelected, sheet + "!A" + IntStr(line.row))];
      }
    }
    var found := missing + unchosen;
    assert found == LineRuleIssues(sheet, severity, line) by {
      assert unchosen != [] <==> line.group == Marketing && line.rowTotal > 0.0 && NoCategory(category);
    }
    r := CheckCells(sheet, line.row, increment, line.hoursByDay, issues + found);
    AppendAssoc(issues, found, FlatMap(line.hoursByDay, CellRule(sheet, line.row, increment)));
  }

  /** The loop over one line's hour cells; the first cell whose remainder raises ends it. */
  method CheckCells(sheet: string, row: int, increment: real, cells: seq<(string, real)>, issues: seq<Issue>)
    returns (r: Result<seq<Issue>, DecimalError>)
    ensures r.Err? <==> exists j :: 0 <= j < |cells| && CellRaises(increment, cells[j])
    ensures r.Ok? ==> r.value == issues + FlatMap(cells, CellRule(sheet, row, increment))
  {
    var out := issues;
    for j := 0 to |cells|
      invariant out == issues + FlatMapUpTo(cells, CellRule(sheet, row, increment), j)
      invariant NoneUpTo(cells, CellRaisesAt(increment), j)
    {
      var hours := cells[j].1;
      var found: seq<Issue> := [];
      if hours < 0.0 {
        found := found + [Issue(Error, TimeNegativeHours, sheet + "!" + IntStr(row))];
      }
      var rest := Remainder(hours, increment);
      if rest.Err? {
        return Err(rest.error);
      }
      if rest.value != 0.0 {
        found := found + [Issue(Warn, TimeNonstandardIncrement, sheet + "!" + IntStr(row))];
      }
      assert found == CellRule(sheet, row, increment)(cells[j]);
      AppendAssoc(issues, FlatMapUpTo(cells, CellRule(sheet, row, increment), j), found);
      out := out + found;
    }
    NoneUpToMeaning(cells, CellRaisesAt(increment), |cells|);
    return Ok(out);
  }

  /** The daily-total loop. */
  method CheckDays(sheet: string, halfHasHours: bool, minimum: real, severity: Severity,
                   isWorkday: ValidDate -> bool, daily: seq<(string, real)>, issues: seq<Issue>)
    returns (out: seq<Issue>)
    ensures out == issues + FlatMap(daily, DayRule(sheet, halfHasHours, minimum, severity, isWorkday))
  {
    out := issues;
    for i := 0 to |daily|
      invariant out == issues + FlatMapUpTo(daily, DayRule(sheet, halfHasHours, minimum, severity, isWorkday), i)
    {
      var found := CheckDay(sheet, halfHasHours, minimum, severity, isWorkday, daily[i]);
      AppendAssoc(issues, FlatMapUpTo(daily, DayRule(sheet, halfHasHours, minimum, severity, isWorkday), i), found);
      out := out + found;
    }
  }

  /** The body of the daily-total loop: a key that is no date is skipped. */
  method CheckDay(sheet: string, halfHasHours: bool, minimum: real, severity: Severity,
                  isWorkday: ValidDate -> bool, entry: (string, real))
    returns (found: seq<Issue>)
    ensures found == DayRule(sheet, halfHasHours, minimum, severity, isWorkday)(entry)
  {
    var (key, hours) := entry;
    found := [];
    var day := ParseDateStr(key);
    if day.None? {
      return;
    }
    if halfHasHours && isWorkday(day.value) && hours < minimum {
      found := found + [Issue(severity, TimeDailyMinimumNotMet, sheet + "!" + IsoFormat(day.value))];
    }
    if hours > 24.0 {
      found := found + [Issue(Error, TimeDayExceeds24, sheet + "!" + IsoFormat(day.value))];
    }
  }

  /** `_validate_time_half`; a cell whose remainder raises ends the check. */
  method ValidateTimeHalf(half: TimeHalf, issues: seq<Issue>, sheet: string, enforce: bool, s: Settings)
    returns (r: Result<seq<Issue>, DecimalError>)
    ensures r.Err? <==> HalfRaises(half, s)
    ensures r.Ok? ==> r.value == issues + HalfIssues(sheet, half, enforce, s)
  {
    var halfHasHours := half.totalHours > 0.0;
    var severity := MinimumSeverity(enforce);
    var lines := CheckLines(sheet, severity, Increment(s), half.lines, issues);
    if lines.Err? {
      return Err(lines.error);
    }
    var out := CheckDays(sheet, halfHasHours, s.minWeekdayHours, severity, WorkdayTest(), half.dailyTotals, lines.value);
    AppendAssoc(issues, FlatMap(half.lines, LineRule(sheet, severity, Increment(s))),
                FlatMap(half.dailyTotals, DayRule(sheet, halfHasHours, s.minWeekdayHours, severity, WorkdayTest())));
    return Ok(out);
  }

  /** The line loop of `_validate_time_half`: each line's rules and cells in order; a raising cell ends it. */
  method CheckLines(sheet: string, severity: Severity, increment: real, lines: seq<TimeLine>, issues: seq<Issue>)
    returns (r: Result<seq<Issue>, DecimalError>)
    ensures r.Err? <==> exists i :: 0 <= i < |lines| && LineRaises(increment, lines[i])
    ensures r.Ok? ==> r.value == issues + FlatMap(lines, LineRule(sheet, severity, increment))
  {
    var out := issues;
    for i := 0 to |lines|
      invariant out == issues + FlatMapUpTo(lines, LineRule(sheet, severity, increment), i)
      invariant NoneUpTo(lines, LineRaisesAt(increment), i)
    {
      var line := CheckLine(sheet, severity, increment, lines[i], out);
      if line.Err? {
        return Err(line.error);
      }
      LinesStep(sheet, severity, increment, lines, issues, i, out, line.value);
      out := line.value;
    }
    NoneUpToMeaning(lines, LineRaisesAt(increment), |lines|);
    return Ok(out);
  }

  /** The issues after line `i` are those before it followed by the line's own. */
  lemma LinesStep(sheet: string, severity: Severity, increment: real, lines: seq<TimeLine>, issues: seq<Issue>,
                  i: int, out: seq<Issue>, next: seq<Issue>)
    requires 0 <= i < |lines|
    requires out == issues + FlatMapUpTo(lines, LineRule(sheet, severity, increment), i)
    requires next == out + LineIssues(sheet, severity, increment, lines[i])
    ensures next == issues + FlatMapUpTo(lines, LineRule(sheet, severity, increment), i + 1)
  {
    FlatMapStep(issues, lines, LineRule(sheet, severity, increment), i);
  }

  /**
   * What a half's issues mean: a client line with hours and a blank charge
   * code gives a missing-code issue at its U cell, with the half's minimum
   * severity, and every such issue comes from such a line; likewise for a
   * marketing line with hours and no category, at its A cell.
   */
  lemma LineRulesMeaning(sheet: string, half: TimeHalf, enforce: bool, s: Settings, row: int)
    ensures var sev := MinimumSeverity(enforce);
      Issue(sev, TimeMissingChargeCode, sheet + "!U" + IntStr(row)) in HalfIssues(sheet, half, enforce, s)
      <==> exists i :: 0 <= i < |half.lines| && half.lines[i].row == row && half.lines[i].group == Client
                      && half.lines[i].rowTotal > 0.0 && StrippedOr(half.lines[i].chargeCode) == ""
    ensures var sev := MinimumSeverity(enforce);
      Issue(sev, TimeMarketingCategoryNotSelected, sheet + "!A" + IntStr(row)) in HalfIssues(sheet, half, enforce, s)
      <==> exists i :: 0 <= i < |half.lines| && half.lines[i].row == row && half.lines[i].group == Marketing
                      && half.lines[i].rowTotal > 0.0 && NoCategory(StrippedOr(half.lines[i].category))
  {
    var sev := MinimumSeverity(enforce);
    var rule := LineRule(sheet, sev, Increment(s));
    var missing := Issue(sev, TimeMissingChargeCode, sheet + "!U" + IntStr(row));
    var uncategorised := Issue(sev, TimeMarketingCategoryNotSelected, sheet + "!A" + IntStr(row));
    LineRuleFound(sheet, half, enforce, s, missing);
    LineRuleFound(sheet, half, enforce, s, uncategorised);
    if exists i :: 0 <= i < |half.lines| && half.lines[i].row == row && half.lines[i].group == Client
                   && half.lines[i].rowTotal > 0.0 && StrippedOr(half.lines[i].chargeCode) == "" {
      var i :| 0 <= i < |half.lines| && half.lines[i].row == row && half.lines[i].group == Client
               && half.lines[i].rowTotal > 0.0 && StrippedOr(half.lines[i].chargeCode) == "";
      assert missing in LineRuleIssues(sheet, sev, half.lines[i]);
      assert missing in rule(half.lines[i]);
    }
    if exists i :: 0 <= i < |half.lines| && half.lines[i].row == row && half.lines[i].group == Marketing
                   && half.lines[i].rowTotal > 0.0 && NoCategory(StrippedOr(half.lines[i].category)) {
      var i :| 0 <= i < |half.lines| && half.lines[i].row == row && half.lines[i].group == Marketing
               && half.lines[i].rowTotal > 0.0 && NoCategory(StrippedOr(half.lines[i].category));
      assert uncategorised in LineRuleIssues(sheet, sev, half.lines[i]);
      assert uncategorised in rule(half.lines[i]);
    }
    if missing in HalfIssues(sheet, half, enforce, s) {
      var i :| 0 <= i < |half.lines| && missing in rule(half.lines[i]);
      LineRuleOrigin(sheet, sev, Increment(s), half.lines[i], missing);
      DropPrefix(sheet + "!U", IntStr(row), IntStr(half.lines[i].row));
      IntStrInjective(row, half.lines[i].row);
    }
    if uncategorised in HalfIssues(sheet, half, enforce, s) {
      var i :| 0 <= i < |half.lines| && uncategorised in rule(half.lines[i]);
      LineRuleOrigin(sheet, sev, Increment(s), half.lines[i], uncategorised);
      DropPrefix(sheet + "!A", IntStr(row), IntStr(half.lines[i].row));
      IntStrInjective(row, half.lines[i].row);
    }
  }

  /** A line-rule issue of a half is an issue of one of its lines: the daily rules give other codes. */
  lemma LineRuleFound(sheet: string, half: TimeHalf, enforce: bool, s: Settings, issue: Issue)
    requires issue.code in {TimeMissingChargeCode, TimeMarketingCategoryNotSelected}
    ensures issue in HalfIssues(sheet, half, enforce, s) <==>
      exists i :: 0 <= i < |half.lines| && issue in LineRule(sheet, MinimumSeverity(enforce), Increment(s))(half.lines[i])
  {
    var sev := MinimumSeverity(enforce);
    var dayRule := DayRule(sheet, half.totalHours > 0.0, s.minWeekdayHours, sev, WorkdayTest());
    FlatMapMember(half.lines, LineRule(sheet, sev, Increment(s)), issue);
    FlatMapMember(half.dailyTotals, dayRule, issue);
  }

  /**
   * A missing-code or missing-category issue of a line comes from its line
   * rules: the line qualifies, and the issue sits at its own U or A cell
   * with the given severity.
   */
  lemma LineRuleOrigin(sheet: string, severity: Severity, increment: real, line: TimeLine, issue: Issue)
    requires issue in LineIssues(sheet, severity, increment, line)
    requires issue.code in {TimeMissingChargeCode, TimeMarketingCategoryNotSelected}
    ensures issue.severity == severity
    ensures issue.code == TimeMissingChargeCode ==>
      line.group == Client && line.rowTotal > 0.0 && StrippedOr(line.chargeCode) == ""
      && issue.location == sheet + "!U" + IntStr(line.row)
    ensures issue.code == TimeMarketingCategoryNotSelected ==>
      line.group == Marketing && line.rowTotal > 0.0 && NoCategory(StrippedOr(line.category))
      && issue.location == sheet + "!A" + IntStr(line.row)
  {
    FlatMapMember(line.hoursByDay, CellRule(sheet, line.row, increment), issue);
  }

  /**
   * The codes a time half can produce, with their severities: the minimum
   * rules (missing code, missing category, short weekday) take the half's
   * minimum severity, negative hours and days over 24 are always ERRORs,
   * odd increments always WARNs.
   */
  predicate TimeKind(issue: Issue, minimum: Severity) {
    || (issue.code in {TimeMissingChargeCode, TimeMarketingCategoryNotSelected, TimeDailyMinimumNotMet}
        && issue.severity == minimum)
    || (issue.code in {TimeNegativeHours, TimeDayExceeds24} && issue.severity == Error)
    || (issue.code == TimeNonstandardIncrement && issue.severity == Warn)
  }

  lemma LineKinds(sheet: string, severity: Severity, increment: real, line: TimeLine, issue: Issue)
    requires issue in LineIssues(sheet, severity, increment, line)
    ensures TimeKind(issue, severity)
  {
    if issue !in LineRuleIssues(sheet, severity, line) {
      FlatMapMember(line.hoursByDay, CellRule(sheet, line.row, increment), issue);
    }
  }

  /**
   * Every issue of a half is of a time kind with the half's minimum
   * severity; so while the half's window is closed its only ERRORs are
   * negative hours and days over 24.
   */
  lemma HalfSeverities(sheet: string, half: TimeHalf, enforce: bool, s: Settings, issue: Issue)
    requires issue in HalfIssues(sheet, half, enforce, s)
    ensures TimeKind(issue, MinimumSeverity(enforce))
    ensures !enforce && issue.severity == Error ==> issue.code in {TimeNegativeHours, TimeDayExceeds24}
  {
    var sev := MinimumSeverity(enforce);
    var lineRule := LineRule(sheet, sev, Increment(s));
    var dayRule := DayRule(sheet, half.totalHours > 0.0, s.minWeekdayHours, sev, WorkdayTest());
    if issue in FlatMap(half.lines, lineRule) {
      FlatMapMember(half.lines, lineRule, issue);
      var i :| 0 <= i < |half.lines| && issue in lineRule(half.lines[i]);
      LineKinds(sheet, sev, Increment(s), half.lines[i], issue);
    } else {
      FlatMapMember(half.dailyTotals, dayRule, issue);
    }
  }

  /**
   * Every weekday of a half that has hours is checked against the minimum,
   * whatever its total, zero included; a day key that is no date is skipped.
   */
  lemma DailyMinimumMeaning(sheet: string, half: TimeHalf, enforce: bool, s: Settings, i: int)
    requires 0 <= i < |half.dailyTotals|
    ensures var (key, hours) := half.dailyTotals[i];
      var day := ParseDateStr(key);
      day.Some? && half.totalHours > 0.0 && IsWorkday(day.value) && hours < s.minWeekdayHours ==>
        Issue(MinimumSeverity(enforce), TimeDailyMinimumNotMet, sheet + "!" + key) in HalfIssues(sheet, half, enforce, s)
    ensures var (key, hours) := half.dailyTotals[i];
      ParseDateStr(key).Some? && hours > 24.0 ==>
        Issue(Error, TimeDayExceeds24, sheet + "!" + key) in HalfIssues(sheet, half, enforce, s)
  {
    var sev := MinimumSeverity(enforce);
    var dayRule := DayRule(sheet, half.totalHours > 0.0, s.minWeekdayHours, sev, WorkdayTest());
    var (key, hours) := half.dailyTotals[i];
    var short := Issue(sev, TimeDailyMinimumNotMet, sheet + "!" + key);
    var over := Issue(Error, TimeDayExceeds24, sheet + "!" + key);
    FlatMapMember(half.dailyTotals, dayRule, short);
    FlatMapMember(half.dailyTotals, dayRule, over);
    assert dayRule(half.dailyTotals[i]) == DayIssues(sheet, half.totalHours > 0.0, s.minWeekdayHours, sev, WorkdayTest(), (key, hours));
  }

  /**
   * And the converse: every short-weekday or over-24 issue of a half comes
   * from a daily total whose key is a date, at that key's cell, and that
   * total meets the rule.
   */
  lemma DailyIssueOrigin(sheet: string, half: TimeHalf, enforce: bool, s: Settings, issue: Issue)
    requires issue in HalfIssues(sheet, half, enforce, s)
    requires issue.code in {TimeDailyMinimumNotMet, TimeDayExceeds24}
    ensures exists i :: 0 <= i < |half.dailyTotals| && DailyIssueFrom(sheet, half, enforce, s, issue, half.dailyTotals[i])
  {
    var dayRule := DayRule(sheet, half.totalHours > 0.0, s.minWeekdayHours, MinimumSeverity(enforce), WorkdayTest());
    DailyCodeFromDays(sheet, half, enforce, s, issue);
    FlatMapMember(half.dailyTotals, dayRule, issue);
    var i :| 0 <= i < |half.dailyTotals| && issue in dayRule(half.dailyTotals[i]);
    DayIssueFrom(sheet, half, enforce, s, issue, half.dailyTotals[i]);
  }

  /** The line and cell rules raise no daily code, so a daily issue of a half comes from its daily totals. */
  lemma DailyCodeFromDays(sheet: string, half: TimeHalf, enforce: bool, s: Settings, issue: Issue)
    requires issue in HalfIssues(sheet, half, enforce, s)
    requires issue.code in {TimeDailyMinimumNotMet, TimeDayExceeds24}
    ensures issue in FlatMap(half.dailyTotals, DayRule(sheet, half.totalHours > 0.0, s.minWeekdayHours, MinimumSeverity(enforce), WorkdayTest()))
  {
    var sev := MinimumSeverity(enforce);
    var lineRule := LineRule(sheet, sev, Increment(s));
    if issue in FlatMap(half.lines, lineRule) {
      FlatMapMember(half.lines, lineRule, issue);
      var i :| 0 <= i < |half.lines| && issue in lineRule(half.lines[i]);
      LineKinds(sheet, sev, Increment(s), half.lines[i], issue);
      FlatMapMember(half.lines[i].hoursByDay, CellRule(sheet, half.lines[i].row, Increment(s)), issue);
    }
  }

  /** Each issue the daily rules raise for one total comes from that total. */
  lemma DayIssueFrom(sheet: string, half: TimeHalf, enforce: bool, s: Settings, issue: Issue, entry: (string, real))
    requires issue in DayRule(sheet, half.totalHours > 0.0, s.minWeekdayHours, MinimumSeverity(enforce), WorkdayTest())(entry)
    ensures DailyIssueFrom(sheet, half, enforce, s, issue, entry)
  {
    var issues := DayIssues(sheet, half.totalHours > 0.0, s.minWeekdayHours, MinimumSeverity(enforce), WorkdayTest(), entry);
    assert issue in issues;
    var day := ParseDateStr(entry.0);
    assert day.Some?;
    assert IsoFormat(day.value) == entry.0;
  }

  /** `issue` is the short-weekday or over-24 issue of the daily total `entry`, whose key is a date. */
  predicate DailyIssueFrom(sheet: string, half: TimeHalf, enforce: bool, s: Settings, issue: Issue, entry: (string, real)) {
    var day := ParseDateStr(entry.0);
    && day.Some?
    && issue.location == sheet + "!" + entry.0
    && (issue.code == TimeDailyMinimumNotMet ==>
          issue.severity == MinimumSeverity(enforce) && half.totalHours > 0.0
          && IsWorkday(day.value) && entry.1 < s.minWeekdayHours)
    && (issue.code == TimeDayExceeds24 ==> issue.severity == Error && entry.1 > 24.0)
  }

  /** Dropping a daily total whose key is no date leaves a half's issues as they were. */
  lemma NonDateKeySkipped(sheet: string, half: TimeHalf, enforce: bool, s: Settings, i: int)
    requires 0 <= i < |half.dailyTotals| && ParseDateStr(half.dailyTotals[i].0).None?
    ensures HalfIssues(sheet, half, enforce, s)
         == HalfIssues(sheet, half.(dailyTotals := half.dailyTotals[..i] + half.dailyTotals[i + 1..]), enforce, s)
  {
    var sev := MinimumSeverity(enforce);
    var dayRule := DayRule(sheet, half.totalHours > 0.0, s.minWeekdayHours, sev, WorkdayTest());
    assert dayRule(half.dailyTotals[i]) == [];
    FlatMapSkip(half.dailyTotals, dayRule, i);
  }

  /** An element that gives no issues can be dropped. */
  lemma FlatMapSkip<T>(xs: seq<T>, f: T -> seq<Issue>, i: int)
    requires 0 <= i < |xs| && f(xs[i]) == []
    ensures FlatMap(xs, f) == FlatMap(xs[..i] + xs[i + 1..], f)
  {
    assert xs == xs[..i] + [xs[i]] + xs[i + 1..];
    FlatMapConcat(xs[..i] + [xs[i]], xs[i + 1..], f);
    FlatMapConcat(xs[..i], [xs[i]], f);
    FlatMapConcat(xs[..i], xs[i + 1..], f);
    assert FlatMap([xs[i]], f) == FlatMapUpTo([xs[i]], f, 0) + f(xs[i]);
  }

  /** Issues of a concatenation are the issues of its parts, in order. */
  lemma {:induction false} FlatMapConcat<T>(a: seq<T>, b: seq<T>, f: T -> seq<Issue>)
    ensures FlatMap(a + b, f) == FlatMap(a, f) + FlatMap(b, f)
    decreases |b|
  {
    if b == [] {
      assert a + b == a;
    } else {
      var c := b[..|b| - 1];
      FlatMapConcat(a, c, f);
      FlatMapPrefix(a + b, a + c, f, |a + c|);
      FlatMapPrefix(b, c, f, |c|);
      assert (a + b)[|a + b| - 1] == b[|b| - 1];
    }
  }

  /** The issues of the first `n` elements depend on those elements only. */
  lemma {:induction false} FlatMapPrefix<T>(xs: seq<T>, ys: seq<T>, f: T -> seq<Issue>, n: int)
    requires 0 <= n <= |xs| && n <= |ys| && xs[..n] == ys[..n]
    ensures FlatMapUpTo(xs, f, n) == FlatMapUpTo(ys, f, n)
    decreases n
  {
    if n > 0 {
      assert xs[..n - 1] == xs[..n][..n - 1] && ys[..n - 1] == ys[..n][..n - 1];
      assert xs[n - 1] == xs[..n][n - 1] && ys[n - 1] == ys[..n][n - 1];
      FlatMapPrefix(xs, ys, f, n - 1);
    }
  }

  // ---------------------------------------------------------------------
  // Expected charge codes

  /** `_build_internal_codes()`. */
  const InternalCodes: set<string> := {"ADM", "MTG", "REC", "TRN", "HOL", "PTO", "OFF"}

  /** The non-empty keys of a totals map. */
  function NonEmptyKeys(totals: map<string, real>): set<string> {
    set code | code in totals && code != ""
  }

  /** `_build_client_codes`: the non-empty client codes of both halves. */
  function ClientCodes(p: ParsedWorkbook): set<string> {
    NonEmptyKeys(p.firstHalf.totalsByClientCode) + NonEmptyKeys(p.secondHalf.totalsByClientCode)
  }

  /** Each non-empty marketing base code with "-LEAD" and with "-OTHER" appended. */
  function LeadAndOther(bases: set<string>): set<string> {
    (set base | base in bases && base != "" :: base + "-LEAD") + (set base | base in bases && base != "" :: base + "-OTHER")
  }

  /** `_build_marketing_codes`. */
  function MarketingCodes(p: ParsedWorkbook): set<string> {
    LeadAndOther(p.firstHalf.totalsByMarketingBucket.Keys) + LeadAndOther(p.secondHalf.totalsByMarketingBucket.Keys)
  }

  /** `_build_expected_codes`. */
  function ExpectedCodes(p: ParsedWorkbook, includeMarketing: bool): set<string> {
    ClientCodes(p) + InternalCodes + (if includeMarketing then MarketingCodes(p) else {})
  }

  /** The codes the cross checks treat as marketing: those ending in "-LEAD" or "-OTHER". */
  function MarketingSuffixed(codes: set<string>): set<string> {
    set code | code in codes && (EndsWith(code, "-LEAD") || EndsWith(code, "-OTHER"))
  }

  /** The client-code loop over the two halves. */
  method BuildClientCodes(p: ParsedWorkbook) returns (codes: set<string>)
    ensures codes == ClientCodes(p)
    ensures "" !in codes
  {
    var halves := [p.firstHalf, p.secondHalf];
    codes := {};
    for k := 0 to 2
      invariant codes == (if k == 0 then {} else NonEmptyKeys(p.firstHalf.totalsByClientCode))
                         + (if k == 2 then NonEmptyKeys(p.secondHalf.totalsByClientCode) else {})
    {
      codes := codes + (set code | code in halves[k].totalsByClientCode && code != "");
    }
  }

  /** The marketing loop over one half's base codes. */
  method AddLeadAndOther(bases: set<string>, codes: set<string>) returns (out: set<string>)
    ensures out == codes + LeadAndOther(bases)
  {
    out := codes;
    var rest := bases;
    while rest != {}
      invariant rest <= bases
      invariant out == codes + LeadAndOther(bases - rest)
      decreases rest
    {
      var base :| base in rest;
      if base != "" {
        out := out + {base + "-LEAD"};
        out := out + {base + "-OTHER"};
      }
      assert bases - (rest - {base}) == (bases - rest) + {base};
      rest := rest - {base};
    }
    assert bases - rest == bases;
  }

  /** `_build_marketing_codes`, half by half. */
  method BuildMarketingCodes(p: ParsedWorkbook) returns (codes: set<string>)
    ensures codes == MarketingCodes(p)
  {
    codes := AddLeadAndOther(p.firstHalf.totalsByMarketingBucket.Keys, {});
    codes := AddLeadAndOther(p.secondHalf.totalsByMarketingBucket.Keys, codes);
  }

  /** `_build_expected_codes`. */
  method BuildExpectedCodes(p: ParsedWorkbook, includeMarketing: bool) returns (codes: set<string>)
    ensures codes == ExpectedCodes(p, includeMarketing)
  {
    codes := {};
    var client := BuildClientCodes(p);
    codes := codes + client;
    codes := codes + InternalCodes;
    if includeMarketing {
      var marketing := BuildMarketingCodes(p);
      codes := codes + marketing;
    }
  }

  /**
   * The expected codes are never empty, and none of the internal codes
   * looks like a marketing code; every marketing code does, so the
   * marketing codes the cross checks use cover all of them.  Without
   * marketing included, a "-LEAD" or "-OTHER" code is expected only when it
   * is also a client code.
   */
  lemma ExpectedCodesShape(p: ParsedWorkbook, code: string)
    ensures "ADM" in ExpectedCodes(p, false)
    ensures MarketingSuffixed(InternalCodes) == {}
    ensures MarketingCodes(p) <= MarketingSuffixed(ExpectedCodes(p, true))
    ensures code in MarketingSuffixed(ExpectedCodes(p, false)) ==> code in ClientCodes(p)
  {
    assert !EndsWith("ADM", "-LEAD") && !EndsWith("ADM", "-OTHER");
    forall c | c in InternalCodes
      ensures !EndsWith(c, "-LEAD") && !EndsWith(c, "-OTHER")
    {
      assert |c| == 3;
    }
    forall c | c in MarketingCodes(p)
      ensures EndsWith(c, "-LEAD") || EndsWith(c, "-OTHER")
    {
      var base :| base + "-LEAD" == c || base + "-OTHER" == c;
      if base + "-LEAD" == c {
        assert c[|c| - 5..] == "-LEAD";
      } else {
        assert c[|c| - 6..] == "-OTHER";
      }
    }
  }

  // ---------------------------------------------------------------------
  // Expense rows

  /**
   * The rules on one expense item: none for an amount of zero or less;
   * otherwise a WARN for each missing charge code, date and description,
   * and for a charge code outside the expected codes.
   */
  function ItemIssues(expected: set<string>, item: ExpenseItem): (r: seq<Issue>)
    ensures item.amount <= 0.0 ==> r == []
    ensures forall issue :: issue in r ==> issue.severity == Warn
    ensures Issue(Warn, ExpenseUnknownChargeCode, item.sheet + "!V" + IntStr(item.row)) in r <==>
      item.amount > 0.0 && item.chargeCode != "" && expected != {} && item.chargeCode !in expected
  {
    if item.amount <= 0.0 then []
    else
      var row := IntStr(item.row);
      (if item.chargeCode == "" then [Issue(Warn, ExpenseMissingChargeCode, item.sheet + "!V" + row)] else [])
      + (if item.date.None? || item.date.value == "" then [Issue(Warn, ExpenseMissingDate, item.sheet + "!A" + row)]
         else [])
      + (if item.description == "" then [Issue(Warn, ExpenseMissingDescription, item.sheet + "!B" + row)] else [])
      + (if item.chargeCode != "" && expected != {} && item.chargeCode !in expected then
           [Issue(Warn, ExpenseUnknownChargeCode, item.sheet + "!V" + row)]
         else [])
  }

  function ItemRule(expected: set<string>): ExpenseItem -> seq<Issue> {
    item => ItemIssues(expected, item)
  }

  /** `_validate_expenses`. */
  function ExpenseIssues(p: ParsedWorkbook): seq<Issue> {
    FlatMap(p.expenses.items, ItemRule(ExpectedCodes(p, false)))
  }

  /** `_validate_expenses`: the expected codes, then the item loop. */
  method ValidateExpenses(p: ParsedWorkbook, issues: seq<Issue>) returns (out: seq<Issue>)
    ensures out == issues + ExpenseIssues(p)
  {
    var items := p.expenses.items;
    var expected := BuildExpectedCodes(p, false);
    out := issues;
    for i := 0 to |items|
      invariant out == issues + FlatMapUpTo(items, ItemRule(expected), i)
    {
      var found := CheckItem(expected, items[i]);
      AppendAssoc(issues, FlatMapUpTo(items, ItemRule(expected), i), found);
      out := out + found;
    }
  }

  /** The body of the item loop: items without a positive amount are skipped. */
  method CheckItem(expected: set<string>, item: ExpenseItem) returns (found: seq<Issue>)
    ensures found == ItemRule(expected)(item)
  {
    found := [];
    if item.amount <= 0.0 {
      return;
    }
    var row := IntStr(item.row);
    if item.chargeCode == "" {
      found := found + [Issue(Warn, ExpenseMissingChargeCode, item.sheet + "!V" + row)];
    }
    if item.date.None? || item.date.value == "" {
      found := found + [Issue(Warn, ExpenseMissingDate, item.sheet + "!A" + row)];
    }
    if item.description == "" {
      found := found + [Issue(Warn, ExpenseMissingDescription, item.sheet + "!B" + row)];
    }
    if item.chargeCode != "" && expected != {} && item.chargeCode !in expected {
      found := found + [Issue(Warn, ExpenseUnknownChargeCode, item.sheet + "!V" + row)];
    }
  }

  /**
   * Expense issues are all WARNs and come only from items with a positive
   * amount; for such an item the unknown-code WARN fires exactly when its
   * code is non-empty and is neither a client code of the time sheets nor
   * an internal code, so a "-LEAD" or "-OTHER" code is flagged unless it is
   * also a client code.
   */
  lemma ExpenseIssuesMeaning(p: ParsedWorkbook, issue: Issue, i: int)
    requires 0 <= i < |p.expenses.items|
    ensures issue in ExpenseIssues(p) <==>
      exists j :: 0 <= j < |p.expenses.items| && p.expenses.items[j].amount > 0.0
                  && issue in ItemIssues(ExpectedCodes(p, false), p.expenses.items[j])
    ensures issue in ExpenseIssues(p) ==> issue.severity == Warn
    ensures var item := p.expenses.items[i];
      Issue(Warn, ExpenseUnknownChargeCode, item.sheet + "!V" + IntStr(item.row)) in ExpenseIssues(p)
      <== item.amount > 0.0 && item.chargeCode != "" && item.chargeCode !in ClientCodes(p) + InternalCodes
  {
    var expected := ExpectedCodes(p, false);
    var rule := ItemRule(expected);
    FlatMapMember(p.expenses.items, rule, issue);
    var item := p.expenses.items[i];
    var unknown := Issue(Warn, ExpenseUnknownChargeCode, item.sheet + "!V" + IntStr(item.row));
    FlatMapMember(p.expenses.items, rule, unknown);
    assert "ADM" in expected;
    assert unknown in rule(item) <== item.amount > 0.0 && item.chargeCode != "" && item.chargeCode !in expected;
  }

  // ---------------------------------------------------------------------
  // Reconciliation

  /** `totals_by_code[code]`, or nothing for a code absent from the totals. */
  function Amount(totals: map<string, real>, code: string): real {
    if code in totals then totals[code] else 0.0
  }

  ghost function Pick(codes: set<string>): string
    requires codes != {}
  {
    var code :| code in codes; code
  }

  /** The sum of the totals of `codes`, a code absent from the totals adding nothing. */
  ghost function SumOver(totals: map<string, real>, codes: set<string>): real
    decreases codes
  {
    if codes == {} then 0.0
    else
      var code := Pick(codes);
      Amount(totals, code) + SumOver(totals, codes - {code})
  }

  /** The sum does not depend on the order the codes are taken in. */
  lemma {:induction false} SumOverRemove(totals: map<string, real>, codes: set<string>, code: string)
    requires code in codes
    ensures SumOver(totals, codes) == Amount(totals, code) + SumOver(totals, codes - {code})
    decreases codes
  {
    var first := Pick(codes);
    if first != code {
      SumOverRemove(totals, codes - {first}, code);
      SumOverRemove(totals, codes - {code}, first);
      assert codes - {first} - {code} == codes - {code} - {first};
    }
  }

  /** Codes absent from the totals contribute nothing. */
  lemma {:induction false} SumOverPresent(totals: map<string, real>, codes: set<string>)
    ensures SumOver(totals, codes) == SumOver(totals, codes * totals.Keys)
    decreases codes
  {
    if codes != {} {
      var code := Pick(codes);
      SumOverPresent(totals, codes - {code});
      if code in totals {
        SumOverRemove(totals, codes * totals.Keys, code);
        assert (codes - {code}) * totals.Keys == codes * totals.Keys - {code};
      } else {
        assert (codes - {code}) * totals.Keys == codes * totals.Keys;
      }
    }
  }

  /** `_sum_codes`: the totals of the codes, taken in any order. */
  method SumCodes(totals: map<string, real>, codes: set<string>) returns (total: real)
    ensures total == SumOver(totals, codes)
  {
    total := 0.0;
    var rest := codes;
    while rest != {}
      invariant rest <= codes
      invariant total + SumOver(totals, rest) == SumOver(totals, codes)
      decreases rest
    {
      var code :| code in rest;
      SumOverRemove(totals, rest, code);
      if code in totals {
        total := total + totals[code];
      }
      rest := rest - {code};
    }
  }

  /** One reconciliation check: a WARN when the coded sum and the reported total differ by more than the tolerance. */
  function Reconcile(coded: real, reported: real, tolerance: real, code: Code): (r: seq<Issue>)
    ensures |r| <= 1
    ensures r != [] <==> Abs(coded - reported) > tolerance
    ensures forall issue :: issue in r ==> issue == Issue(Warn, code, CrossCheckLocation)
  {
    if Abs(coded - reported) > tolerance then [Issue(Warn, code, CrossCheckLocation)] else []
  }

  /** The marketing codes the cross checks use. */
  function CrossMarketingCodes(p: ParsedWorkbook): set<string> {
    MarketingSuffixed(ExpectedCodes(p, true))
  }

  /** The client-billed check, run only for a positive client-billed total. */
  ghost function ClientCheck(p: ParsedWorkbook, tolerance: real): (r: seq<Issue>)
    ensures forall issue :: issue in r ==> issue == Issue(Warn, ExpenseClientBilledMismatch, CrossCheckLocation)
    ensures r != [] <==>
      p.expenses.clientBilledTotal > 0.0
      && Abs(SumOver(p.expenses.totalsByChargeCode, ClientCodes(p)) - p.expenses.clientBilledTotal) > tolerance
  {
    var e := p.expenses;
    if e.clientBilledTotal > 0.0 then
      Reconcile(SumOver(e.totalsByChargeCode, ClientCodes(p)), e.clientBilledTotal, tolerance, ExpenseClientBilledMismatch)
    else []
  }

  /**
   * `_validate_cross_checks`: marketing-coded expenses against the
   * marketing total; client-coded expenses against the client-billed total
   * when that is positive; internal and marketing-coded expenses against
   * the keystone-paid total; all coded expenses against the total.
   */
  ghost function CrossCheckIssues(p: ParsedWorkbook, tolerance: real): seq<Issue> {
    var e := p.expenses;
    var totals := e.totalsByChargeCode;
    var marketing := CrossMarketingCodes(p);
    Reconcile(SumOver(totals, marketing), e.marketingTotal, tolerance, ExpenseMarketingAllocationMismatch)
    + ClientCheck(p, tolerance)
    + Reconcile(SumOver(totals, InternalCodes + marketing), e.keystonePaidTotal, tolerance, ExpenseKeystonePaidMismatch)
    + Reconcile(SumOver(totals, totals.Keys), e.totalExpenses, tolerance, ExpenseTotalMismatch)
  }

  /** `_validate_cross_checks`, summing each code set with `_sum_codes`. */
  method ValidateCrossChecks(p: ParsedWorkbook, issues: seq<Issue>, tolerance: real) returns (out: seq<Issue>)
    ensures out == issues + CrossCheckIssues(p, tolerance)
  {
    var e := p.expenses;
    var totals := e.totalsByChargeCode;
    var expected := BuildExpectedCodes(p, true);
    var marketing := MarketingSuffixed(expected);
    var client := BuildClientCodes(p);
    var marketingCoded := SumCodes(totals, marketing);
    var found := Reconcile(marketingCoded, e.marketingTotal, tolerance, ExpenseMarketingAllocationMismatch);
    var clientFound: seq<Issue> := [];
    if e.clientBilledTotal > 0.0 {
      var clientCoded := SumCodes(totals, client);
      clientFound := Reconcile(clientCoded, e.clientBilledTotal, tolerance, ExpenseClientBilledMismatch);
    }
    assert clientFound == ClientCheck(p, tolerance);
    found := found + clientFound;
    var internalCoded := SumCodes(totals, InternalCodes + marketing);
    found := found + Reconcile(internalCoded, e.keystonePaidTotal, tolerance, ExpenseKeystonePaidMismatch);
    var allCoded := SumCodes(totals, totals.Keys);
    found := found + Reconcile(allCoded, e.totalExpenses, tolerance, ExpenseTotalMismatch);
    out := issues + found;
  }

  /** The cross-check issues are WARNs at the expense sheets, one of the four reconciliation kinds. */
  lemma CrossCheckKinds(p: ParsedWorkbook, tolerance: real, issue: Issue)
    requires issue in CrossCheckIssues(p, tolerance)
    ensures issue.severity == Warn && issue.location == CrossCheckLocation
    ensures issue.code in {ExpenseMarketingAllocationMismatch, ExpenseClientBilledMismatch,
                           ExpenseKeystonePaidMismatch, ExpenseTotalMismatch}
  {
    var e := p.expenses;
    var totals := e.totalsByChargeCode;
    var marketing := CrossMarketingCodes(p);
    var r1 := Reconcile(SumOver(totals, marketing), e.marketingTotal, tolerance, ExpenseMarketingAllocationMismatch);
    var r2 := ClientCheck(p, tolerance);
    var r3 := Reconcile(SumOver(totals, InternalCodes + marketing), e.keystonePaidTotal, tolerance,
                        ExpenseKeystonePaidMismatch);
    var r4 := Reconcile(SumOver(totals, totals.Keys), e.totalExpenses, tolerance, ExpenseTotalMismatch);
    assert CrossCheckIssues(p, tolerance) == r1 + r2 + r3 + r4;
    assert issue in r1 || issue in r2 || issue in r3 || issue in r4;
  }

  /**
   * The client check fires exactly when the client-billed total is
   * positive and differs by more than the tolerance from the sum of the
   * client codes that have a total (codes with no total count as zero).
   */
  lemma ClientMismatchMeaning(p: ParsedWorkbook, tolerance: real)
    ensures var e := p.expenses;
      var totals := e.totalsByChargeCode;
      Issue(Warn, ExpenseClientBilledMismatch, CrossCheckLocation) in CrossCheckIssues(p, tolerance) <==>
        e.clientBilledTotal > 0.0
        && Abs(SumOver(totals, ClientCodes(p) * totals.Keys) - e.clientBilledTotal) > tolerance
  {
    var e := p.expenses;
    var totals := e.totalsByChargeCode;
    var marketing := CrossMarketingCodes(p);
    var r1 := Reconcile(SumOver(totals, marketing), e.marketingTotal, tolerance, ExpenseMarketingAllocationMismatch);
    var r2 := ClientCheck(p, tolerance);
    var r3 := Reconcile(SumOver(totals, InternalCodes + marketing), e.keystonePaidTotal, tolerance,
                        ExpenseKeystonePaidMismatch);
    var r4 := Reconcile(SumOver(totals, totals.Keys), e.totalExpenses, tolerance, ExpenseTotalMismatch);
    assert CrossCheckIssues(p, tolerance) == r1 + r2 + r3 + r4;
    SumOverPresent(totals, ClientCodes(p));
    var client := Issue(Warn, ExpenseClientBilledMismatch, CrossCheckLocation);
    assert client !in r1 && client !in r3 && client !in r4;
    ClientCheckFires(CrossCheckIssues(p, tolerance), r1, r2, r3, r4, e.clientBilledTotal,
                     SumOver(totals, ClientCodes(p)), SumOver(totals, ClientCodes(p) * totals.Keys), tolerance);
  }

  /** The client code is raised exactly when the client-billed total is positive and its reconciliation fails. */
  lemma ClientCheckFires(all: seq<Issue>, r1: seq<Issue>, r2: seq<Issue>, r3: seq<Issue>, r4: seq<Issue>,
                         billed: real, coded: real, present: real, tolerance: real)
    requires all == r1 + r2 + r3 + r4
    requires forall issue :: issue in r2 ==> issue == Issue(Warn, ExpenseClientBilledMismatch, CrossCheckLocation)
    requires r2 != [] <==> billed > 0.0 && Abs(coded - billed) > tolerance
    requires var x := Issue(Warn, ExpenseClientBilledMismatch, CrossCheckLocation); x !in r1 && x !in r3 && x !in r4
    requires coded == present
    ensures Issue(Warn, ExpenseClientBilledMismatch, CrossCheckLocation) in all <==>
      billed > 0.0 && Abs(present - billed) > tolerance
  {
    InFourParts(Issue(Warn, ExpenseClientBilledMismatch, CrossCheckLocation), r1, r2, r3, r4);
    if r2 != [] {
      assert r2[0] in r2;
    }
  }

  /** The total check fires exactly when all coded totals together differ from the total expenses by more than the tolerance. */
  lemma TotalMismatchMeaning(p: ParsedWorkbook, tolerance: real)
    ensures var e := p.expenses;
      Issue(Warn, ExpenseTotalMismatch, CrossCheckLocation) in CrossCheckIssues(p, tolerance) <==>
        Abs(SumOver(e.totalsByChargeCode, e.totalsByChargeCode.Keys) - e.totalExpenses) > tolerance
  {
    var e := p.expenses;
    var totals := e.totalsByChargeCode;
    var marketing := CrossMarketingCodes(p);
    var r1 := Reconcile(SumOver(totals, marketing), e.marketingTotal, tolerance, ExpenseMarketingAllocationMismatch);
    var r2 := ClientCheck(p, tolerance);
    var r3 := Reconcile(SumOver(totals, InternalCodes + marketing), e.keystonePaidTotal, tolerance,
                        ExpenseKeystonePaidMismatch);
    var r4 := Reconcile(SumOver(totals, totals.Keys), e.totalExpenses, tolerance, ExpenseTotalMismatch);
    assert CrossCheckIssues(p, tolerance) == r1 + r2 + r3 + r4;
    var total := Issue(Warn, ExpenseTotalMismatch, CrossCheckLocation);
    assert total !in r1 && total !in r2 && total !in r3;
    LastCheckFires(CrossCheckIssues(p, tolerance), r1, r2, r3, SumOver(totals, totals.Keys), e.totalExpenses,
                   tolerance, ExpenseTotalMismatch);
  }

  /** When only the last of four checks can raise a code, the code is raised exactly when that reconciliation fails. */
  lemma LastCheckFires(all: seq<Issue>, r1: seq<Issue>, r2: seq<Issue>, r3: seq<Issue>,
                       coded: real, reported: real, tolerance: real, code: Code)
    requires all == r1 + r2 + r3 + Reconcile(coded, reported, tolerance, code)
    requires var x := Issue(Warn, code, CrossCheckLocation); x !in r1 && x !in r2 && x !in r3
    ensures Issue(Warn, code, CrossCheckLocation) in all <==> Abs(coded - reported) > tolerance
  {
    InFourParts(Issue(Warn, code, CrossCheckLocation), r1, r2, r3, Reconcile(coded, reported, tolerance, code));
  }

  lemma InFourParts<T>(x: T, a: seq<T>, b: seq<T>, c: seq<T>, d: seq<T>)
    ensures x in a + b + c + d <==> x in a || x in b || x in c || x in d
  {
  }

  // ---------------------------------------------------------------------
  // The whole check

  /** The halves of the header period whose window is open today; none without a header period. */
  function OpenHalvesOf(year: Option<int>, month: Option<int>, today: ValidDate, grace: int)
    : Result<set<HalfKey>, DateError>
  {
    if IntTruthy(year) && IntTruthy(month) then OpenHalves(year.value, month.value, today, grace) else Ok({})
  }

  /** What `validate_parsed_workbook` raises: a date past the calendar's end, or a remainder that is undefined. */
  datatype ValidationError = DateFailed(dateError: DateError) | RemainderFailed(decimalError: DecimalError)

  /**
   * `validate_parsed_workbook`: every issue in order, or what raises first:
   * computing a window, or an hour cell of the first half and then of the
   * second half whose remainder is undefined.
   */
  ghost function ValidationOf(p: ParsedWorkbook, today: ValidDate, s: Settings): Result<seq<Issue>, ValidationError> {
    match HeaderIssues(p.year, p.month, today, s.graceDays)
    case Err(e) => Err(DateFailed(e))
    case Ok(header) =>
      match OpenHalvesOf(p.year, p.month, today, s.graceDays)
      case Err(e) => Err(DateFailed(e))
      case Ok(open) =>
        if HalfRaises(p.firstHalf, s) || HalfRaises(p.secondHalf, s) then Err(RemainderFailed(InvalidOperation))
        else
          Ok(MissingSheetIssues(NameSet(p.sheetsPresent))
             + header
             + TemplateIssues(p.metadata)
             + HalfIssues(FirstHalfSheet, p.firstHalf, FirstHalf in open, s)
             + HalfIssues(SecondHalfSheet, p.secondHalf, SecondHalf in open, s)
             + ExpenseIssues(p)
             + CrossCheckIssues(p, s.tolerance))
  }

  /** Past the header and the window computation, the result is decided by the remainders of the two halves. */
  lemma ValidationRaises(p: ParsedWorkbook, today: ValidDate, s: Settings, header: seq<Issue>, open: set<HalfKey>)
    requires HeaderIssues(p.year, p.month, today, s.graceDays) == Ok(header)
    requires OpenHalvesOf(p.year, p.month, today, s.graceDays) == Ok(open)
    ensures HalfRaises(p.firstHalf, s) || HalfRaises(p.secondHalf, s) ==>
      ValidationOf(p, today, s) == Err(RemainderFailed(InvalidOperation))
    ensures !HalfRaises(p.firstHalf, s) && !HalfRaises(p.secondHalf, s) ==>
      ValidationOf(p, today, s) ==
        Ok(MissingSheetIssues(NameSet(p.sheetsPresent)) + header + TemplateIssues(p.metadata)
           + HalfIssues(FirstHalfSheet, p.firstHalf, FirstHalf in open, s)
           + HalfIssues(SecondHalfSheet, p.secondHalf, SecondHalf in open, s)
           + ExpenseIssues(p) + CrossCheckIssues(p, s.tolerance))
  {
  }

  /** `validate_parsed_workbook`. */
  method ValidateParsedWorkbook(p: ParsedWorkbook, today: ValidDate, s: Settings)
    returns (r: Result<seq<Issue>, ValidationError>)
    ensures r == ValidationOf(p, today, s)
  {
    var present := NameSet(p.sheetsPresent);
    var issues := CheckSheets(present, []);
    assert issues == MissingSheetIssues(present);
    var header := CheckHeader(p.year, p.month, today, s.graceDays, issues);
    if header.Err? {
      assert ValidationOf(p, today, s) == Err(DateFailed(header.error));
      return Err(DateFailed(header.error));
    }
    ghost var h := HeaderIssues(p.year, p.month, today, s.graceDays).value;
    issues := header.value + TemplateIssues(p.metadata);
    var open: set<HalfKey> := {};
    if IntTruthy(p.year) && IntTruthy(p.month) {
      var halves := OpenHalvesForToday(p.year.value, p.month.value, today, s.graceDays);
      if halves.Err? {
        assert ValidationOf(p, today, s) == Err(DateFailed(halves.error));
        return Err(DateFailed(halves.error));
      }
      open := halves.value;
    }
    assert OpenHalvesOf(p.year, p.month, today, s.graceDays) == Ok(open);
    ghost var prefix := MissingSheetIssues(present) + h + TemplateIssues(p.metadata);
    assert issues == prefix;
    var first := ValidateTimeHalf(p.firstHalf, issues, FirstHalfSheet, FirstHalf in open, s);
    if first.Err? {
      ValidationRaises(p, today, s, h, open);
      assert first.error == InvalidOperation;
      assert ValidationOf(p, today, s) == Err(RemainderFailed(first.error));
      return Err(RemainderFailed(first.error));
    }
    var second := ValidateTimeHalf(p.secondHalf, first.value, SecondHalfSheet, SecondHalf in open, s);
    if second.Err? {
      ValidationRaises(p, today, s, h, open);
      assert second.error == InvalidOperation;
      assert ValidationOf(p, today, s) == Err(RemainderFailed(second.error));
      return Err(RemainderFailed(second.error));
    }
    ValidationRaises(p, today, s, h, open);
    issues := second.value;
    issues := ValidateExpenses(p, issues);
    issues := ValidateCrossChecks(p, issues, s.tolerance);
    assert issues == prefix + HalfIssues(FirstHalfSheet, p.firstHalf, FirstHalf in open, s)
                     + HalfIssues(SecondHalfSheet, p.secondHalf, SecondHalf in open, s)
                     + ExpenseIssues(p) + CrossCheckIssues(p, s.tolerance);
    assert ValidationOf(p, today, s) == Ok(issues);
    r := Ok(issues);
  }
}
