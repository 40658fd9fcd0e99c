# TKG Timesheets in Dafny

A model of the core of the TKG Timesheets Django application, with proofs
about it. Employees upload a fixed-layout workbook. It holds two half-month
time grids, two expense sheets, a mileage log and a Validations sheet.

- **The upload parser** turns that workbook into nested data: 29 time lines
  per half in client, marketing and internal bands, daily and per-code
  totals, one expense item per positive bucket cell with the expense totals,
  and the mileage log.
- **The upload validator** checks that data and reports ERROR and WARN issues
  with stable codes:
  - the sheet structure and the header period;
  - the submission window;
  - the per-line, per-cell and per-day time rules, whose severity depends on
    whether the half's window is open today;
  - the expense rows;
  - four reconciliation checks.

  The upload view blocks the upload when any issue is an ERROR.

The smaller pieces around the upload are modelled too:

- the review state machine of timesheets and expense reports;
- the receipt, mileage and validation rules of the expense and timesheet
  models;
- the half-month period dates of `ensure_month` and of the `create_periods`
  command;
- the roster seeder with its unique initials;
- the allowlist decision and claim extraction of the social-login adapter;
- the user manager and name helpers;
- the number-display template filters.

How the model is built:

- A worksheet is a map from (column letter, row) to a typed cell: nothing, a
  number, text or a date.
- Python `Decimal` is a Dafny `real`, and dates carry Python's day count
  (`toordinal`).
- The time increment `Decimal(str(m)) / Decimal("60")` is rounded half-even
  to 28 significant digits, as the default `Decimal` context does. It is
  exact only when m is a multiple of three: with m = 10 it is
  0.1666666666666666666666666667, and one hour is then flagged as off the
  increment. `hours % increment` raises InvalidOperation for a zero
  increment or a quotient of 28 digits or more; the model returns that
  error.
- The clock, the settings (grace days, minimum hours, increment, tolerance),
  random tokens and the database are parameters or class fields.
- Imperative source keeps its form: loops are methods with invariants proved
  against specification functions, and records updated in place are classes.
- Where the source raises, the model returns an error value.

Modules, one per file: `Wrappers`, `Text`, `Calendar`, `Cells`, `Dicts`,
`Decimals` (shared helpers); `Workbook`, `TimeParser`, `ExpenseParser`,
`MileageParser` (the upload parser); `SubmissionWindows`, `UploadValidation`
(the validator); `Review`, `TimesheetModels`, `ExpenseModels`, `Periods`,
`CreatePeriods`, `Accounts`, `Adapters`, `SeedRoster`, `TimesheetTags`.

Where the code and its docstrings or comments disagree, the model follows
the code:

- The parser raises `ValueError` for a header month outside 1..12 once the
  year and month are both non-zero, because `_get_day_range` builds a date.
- The first-half due-date rollover of `ensure_month` never runs (see
  Findings). `EnsureMonth` and `CreatePeriods.Handle` compute the first half
  as the code does, so an offset past month end raises.
- `_sync_profile_details` reads a `profile_or_none` attribute that the `User`
  model does not define. `getattr` therefore yields `None` and the job title
  is never synced. `PreSocialLogin` passes no profile for that reason.
- The roster seeder writes `EmployeeProfile.initials` and `active`. The
  profile class here carries those two fields, though the profile model in
  `apps/accounts/models.py` does not declare them.

## Model

| member | source | states |
|---|---|---|
| UploadValidation.BlockingErrors | apps/timesheets/views.py:106 | the blocking flag is true exactly when some issue has severity ERROR |
| SubmissionWindows.FirstWorkdayOnOrAfter | apps/timesheets/services/upload_validation.py:15-19 | the loop returns a Monday-to-Friday date on or after its input and at most two days later; a weekday comes back unchanged |
| SubmissionWindows.FirstWorkdayMeaning | apps/timesheets/services/upload_validation.py:15-19 | the first workday is a weekday at most two days on; every day skipped is a Saturday or Sunday; a workday is its own first workday |
| SubmissionWindows.LastDayIsFriday | apps/timesheets/services/upload_validation.py:17-18 | the last representable date is a Friday, so stepping over a weekend never runs off the calendar |
| SubmissionWindows.Probe | apps/timesheets/services/upload_validation.py:42-44 | each probed month is in 1..12 and exactly `delta` months from today's month, the year rolling over at December and January |
| SubmissionWindows.SubmissionWindows | apps/timesheets/services/upload_validation.py:22-64 | the probe loop over last, this and next month returns the specified window set, or the error a date computation raises |
| SubmissionWindows.ProbeWindows | apps/timesheets/services/upload_validation.py:46-62 | one probe keeps its month exactly when today lies in the first-half or the second-half window, both ends included |
| SubmissionWindows.ComputeHalfWindow | apps/timesheets/services/upload_validation.py:46-48 | a window opens on its day and closes the grace days after the first workday on or after that day |
| SubmissionWindows.CollectMembers | apps/timesheets/services/upload_validation.py:42-62 | a month is in the window set exactly when it is one of the three probes and today falls in one of its windows |
| SubmissionWindows.OpenHalves | apps/timesheets/services/upload_validation.py:67-96 | a month outside 1..12 makes `_open_halves_for_today` raise |
| SubmissionWindows.OpenHalvesMeaning | apps/timesheets/services/upload_validation.py:78-94 | the first half is open from the 15th through the grace days after the first workday from the 15th; the second half from the 1st of the next month (January after December) likewise; both ends included |
| SubmissionWindows.OpenHalvesForToday | apps/timesheets/services/upload_validation.py:67-96 | the method computes both windows and returns exactly the halves whose window holds today |
| SubmissionWindows.WindowsMatchOpenHalves | apps/timesheets/services/upload_validation.py:22-96 | a probed month is among the submission windows exactly when it has an open half, and nothing but probed months is among them |
| SubmissionWindows.OpenHalvesAgree | apps/timesheets/services/upload_validation.py:59-62 | a month has an open half exactly when today falls in one of its two windows |
| UploadValidation.CheckSheets | apps/timesheets/services/upload_validation.py:101-112 | the missing-sheet loop appends the specified issues in required-sheet order |
| UploadValidation.MissingSheetsMeaning | apps/timesheets/services/upload_validation.py:101-112 | a structure issue is reported exactly for each required sheet that is absent, as an ERROR located at that sheet's name |
| UploadValidation.NameSet | apps/timesheets/services/upload_validation.py:101 | the set of present sheets has exactly the listed names |
| UploadValidation.CheckHeader | apps/timesheets/services/upload_validation.py:114-149 | the header checks append the specified issues, or return the error the window computation raises |
| UploadValidation.HeaderMeaning | apps/timesheets/services/upload_validation.py:118-149 | at most one header issue, always an ERROR at T1/V1: missing cell exactly when year or month is falsy; invalid period exactly when the month is outside 1..12 or the year is before 2000; outside window exactly when a valid period is not among today's windows |
| UploadValidation.TemplateIssues | apps/timesheets/services/upload_validation.py:151-160 | one WARN at A39 exactly when the template version is non-empty and lacks "Version" |
| UploadValidation.ParseDateStr | apps/timesheets/services/upload_validation.py:414-418 | an empty or malformed key gives no date; a date parsed from a key has that key as its ISO form |
| UploadValidation.CheckLine | apps/timesheets/services/upload_validation.py:188-233 | the line checks append the line rules' issues, then each hour cell's, against the 28-digit increment; they fail exactly when some hour cell's remainder raises |
| UploadValidation.CheckCells | apps/timesheets/services/upload_validation.py:215-233 | the cell loop appends each cell's negative-hours ERROR and odd-increment WARN in day order, or fails exactly when some cell's remainder raises |
| UploadValidation.CheckLines | apps/timesheets/services/upload_validation.py:188-233 | the line loop appends every line's issues in line order, or fails exactly when some line has a cell whose remainder raises |
| UploadValidation.NoneUpToMeaning | apps/timesheets/services/upload_validation.py:188-233 | a loop that stopped at no element has seen no element with the property |
| UploadValidation.CheckDays | apps/timesheets/services/upload_validation.py:235-260 | the daily-total loop appends each day's issues in day order |
| UploadValidation.CheckDay | apps/timesheets/services/upload_validation.py:235-260 | a key that is no date is skipped; otherwise the short-weekday and over-24 rules apply |
| UploadValidation.ValidateTimeHalf | apps/timesheets/services/upload_validation.py:175-260 | the method appends exactly the half's specified issues, the line and cell rules first and then the daily rules, with the increment `Decimal(str(m)) / Decimal("60")`; it fails exactly when an hour cell's remainder raises, a zero increment included |
| UploadValidation.LineRulesMeaning | apps/timesheets/services/upload_validation.py:188-213 | a missing-code issue at U<row>, with the half's minimum severity, is reported exactly when some client line of that row has hours and a blank stripped charge code; a category issue at A<row> exactly when some marketing line of that row has hours and a blank or "select category" category |
| UploadValidation.LineRuleFound | apps/timesheets/services/upload_validation.py:188-260 | a missing-code or missing-category issue of a half is an issue of one of its lines, never of the daily rules |
| UploadValidation.LineRuleOrigin | apps/timesheets/services/upload_validation.py:194-213 | such an issue of a line has the given severity, sits at that line's U or A cell, and the line meets the rule |
| UploadValidation.HalfSeverities | apps/timesheets/services/upload_validation.py:188-260 | every time issue has its rule's severity: minimum rules ERROR only while the window is open, negative hours and days over 24 always ERROR, odd increments always WARN |
| UploadValidation.DailyMinimumMeaning | apps/timesheets/services/upload_validation.py:235-260 | every weekday below the minimum is flagged when the half has hours, zero-hour days included; every dated day over 24 is an ERROR |
| UploadValidation.DailyIssueOrigin | apps/timesheets/services/upload_validation.py:235-260 | conversely every short-weekday or over-24 issue of a half comes from a daily total whose key is a date, at that key's cell, and that total meets the rule with the rule's severity |
| UploadValidation.NonDateKeySkipped | apps/timesheets/services/upload_validation.py:237-240 | a daily total whose key is no date contributes nothing: dropping it leaves the half's issues unchanged |
| UploadValidation.BuildClientCodes | apps/timesheets/services/upload_validation.py:383-388 | the loop collects exactly the non-empty client codes of both halves |
| UploadValidation.AddLeadAndOther | apps/timesheets/services/upload_validation.py:395-398 | each non-empty base code adds its "-LEAD" and "-OTHER" codes |
| UploadValidation.BuildMarketingCodes | apps/timesheets/services/upload_validation.py:391-399 | the marketing codes of both halves, built half by half |
| UploadValidation.BuildExpectedCodes | apps/timesheets/services/upload_validation.py:374-380 | client codes and the seven internal codes, plus the marketing codes when asked |
| UploadValidation.ExpectedCodesShape | apps/timesheets/services/upload_validation.py:374-403 | the expected codes are never empty; no internal code looks like a marketing code; a "-LEAD"/"-OTHER" code is expected without marketing only when it is a client code |
| UploadValidation.ItemIssues | apps/timesheets/services/upload_validation.py:269-310 | an item of amount 0 or less yields nothing; all item issues are WARNs; the unknown-code WARN fires exactly when the code is non-empty and outside the expected codes |
| UploadValidation.ValidateExpenses | apps/timesheets/services/upload_validation.py:263-310 | the item loop appends exactly the items' specified issues |
| UploadValidation.CheckItem | apps/timesheets/services/upload_validation.py:270-310 | items without a positive amount are skipped; otherwise a WARN for each missing code, date or description and for an unknown code |
| UploadValidation.ExpenseIssuesMeaning | apps/timesheets/services/upload_validation.py:263-310 | expense issues come only from positive items and are WARNs; "-LEAD"/"-OTHER" codes are flagged unless they are client codes |
| UploadValidation.SumCodes | apps/timesheets/services/upload_validation.py:406-411 | the loop sums the totals of the given codes in any order, an absent code adding nothing |
| UploadValidation.SumOverPresent | apps/timesheets/services/upload_validation.py:409 | codes absent from the totals contribute nothing to a sum |
| UploadValidation.Reconcile | apps/timesheets/services/upload_validation.py:328-371 | one reconciliation emits at most one WARN, exactly when the coded sum and the reported total differ by more than the tolerance (strict) |
| UploadValidation.ClientCheck | apps/timesheets/services/upload_validation.py:339-349 | the client check is skipped unless the client-billed total is positive |
| UploadValidation.ValidateCrossChecks | apps/timesheets/services/upload_validation.py:313-371 | the four checks append exactly the specified issues |
| UploadValidation.CrossCheckKinds | apps/timesheets/services/upload_validation.py:313-371 | every cross-check issue is a WARN at the expense sheets, of one of the four reconciliation codes |
| UploadValidation.ClientMismatchMeaning | apps/timesheets/services/upload_validation.py:339-349 | the client mismatch fires exactly when the client-billed total is positive and differs by more than the tolerance from the client codes' totals |
| UploadValidation.TotalMismatchMeaning | apps/timesheets/services/upload_validation.py:362-371 | the total mismatch fires exactly when all coded totals differ from total expenses by more than the tolerance |
| UploadValidation.ValidateParsedWorkbook | apps/timesheets/services/upload_validation.py:99-174 | the validator returns every issue in the specified order, or the error a window computation raises, or InvalidOperation when an hour cell's remainder raises in either half |
| Workbook.Worksheets | apps/timesheets/services/upload_parser.py:47 | the worksheet dictionary maps each sheet name to its sheet |
| Workbook.Lookup | apps/timesheets/services/upload_parser.py:49-51 | `worksheets.get(name)` finds a sheet exactly when it is present |
| Workbook.ParseMetadata | apps/timesheets/services/upload_parser.py:77-88 | no sheet gives no metadata; otherwise year is T1 and month V1 as integers, the template version A39 |
| Workbook.ParseTimesheetWorkbook | apps/timesheets/services/upload_parser.py:39-74 | the parser returns the specified parse of the workbook, or the error a bad header month raises |
| Workbook.ParsedHeader | apps/timesheets/services/upload_parser.py:46-62 | the sheet list is the workbook's; without the first time sheet there is no header and both halves are empty; a successful parse with a non-zero header has a real month and year |
| TimeParser.GetDayRange | apps/timesheets/services/upload_parser.py:356-362 | days 1..15 for FIRST, 16..last day for SECOND, all real dates; raises exactly for a month or year no date has |
| TimeParser.DayRangeConsecutive | apps/timesheets/services/upload_parser.py:356-362 | each day of a half is the day after the one before |
| TimeParser.DayRangeDistinct | apps/timesheets/services/upload_parser.py:356-362 | the days of a half are distinct |
| TimeParser.DayColumnsLetters | apps/timesheets/services/upload_parser.py:365-377 | different days go to different columns, and at most 16 days stay within B..Q |
| TimeParser.MapDayColumns | apps/timesheets/services/upload_parser.py:365-377 | the i-th day goes to letter chr(ord('B')+i), with distinct keys |
| TimeParser.ParseTimeRow | apps/timesheets/services/upload_parser.py:185-217 | the row takes its label and code from the named cells when given; its row total is the sum of its hours by day, keyed by distinct days |
| TimeParser.ReadHours | apps/timesheets/services/upload_parser.py:204-207 | the day loop reads each day's cell under its ISO key and sums them |
| TimeParser.ParseValidationsMap | apps/timesheets/services/upload_parser.py:90-99 | no sheet gives an empty map; otherwise the map built row by row |
| TimeParser.ValidationsLastWins | apps/timesheets/services/upload_parser.py:90-99 | a category is mapped exactly when some row has both cells non-blank, and then to the code on the last such row |
| TimeParser.AccumulateTimeTotals | apps/timesheets/services/upload_parser.py:220-226 | the line's hours are added to their days, and its row total to its key when the key is truthy |
| TimeParser.AddHoursPointwise | apps/timesheets/services/upload_parser.py:221-222 | adding a line raises each day's total by that day's hours and keeps the keys |
| TimeParser.BandTotalsMeaning | apps/timesheets/services/upload_parser.py:110-170 | a band's totals have exactly its lines' non-empty keys, each the sum of the row totals filed under it |
| TimeParser.MarketingBase | apps/timesheets/services/upload_parser.py:135-136 | a blank category gives "", a category absent from the Validations map gives no code |
| TimeParser.ExpectedLine | apps/timesheets/services/upload_parser.py:116-170 | line i sits on its band's row and is keyed by the half's days, its row total the sum of its hours |
| TimeParser.DailyTotalsMeaning | apps/timesheets/services/upload_parser.py:113-226 | starting from zero for every day, each day's total is the hours all lines record that day, and the sum of daily totals is the sum of row totals |
| TimeParser.HalfSpec | apps/timesheets/services/upload_parser.py:102-106 | no sheet or a falsy year or month gives the empty half; a header naming no real month raises |
| TimeParser.HalfTotals | apps/timesheets/services/upload_parser.py:109-182 | a parsed half has 29 lines, one daily total per day equal to all lines' hours that day, and total hours equal to both the sum of daily totals and the sum of row totals |
| TimeParser.ReadClientRows | apps/timesheets/services/upload_parser.py:115-131 | rows 6-13, code and label from columns U and A, totals by client code |
| TimeParser.ReadMarketingRows | apps/timesheets/services/upload_parser.py:133-152 | rows 16-29, the category naming the row and keying it through the Validations map |
| TimeParser.ReadInternalRows | apps/timesheets/services/upload_parser.py:154-170 | rows 30-36, code and label from columns U and A, totals by other hours |
| TimeParser.ParseTimeHalf | apps/timesheets/services/upload_parser.py:102-182 | the method returns the specified half: 29 lines in row order and their totals |
| ExpenseParser.BucketLabels | apps/timesheets/services/upload_parser.py:19-36 | sixteen bucket labels in column order |
| ExpenseParser.BucketLabelsDistinct | apps/timesheets/services/upload_parser.py:19-36 | the labels are distinct, so totals_by_bucket has one entry per bucket |
| ExpenseParser.MarketingLabelsMeaning | apps/timesheets/services/upload_parser.py:260 | a bucket label is a marketing label exactly when it starts with "Marketing" |
| ExpenseParser.BucketAmountsSum | apps/timesheets/services/upload_parser.py:253-261 | non-positive bucket cells are ignored: the row total is the sum of the positive cells |
| ExpenseParser.PositiveCellsEmitItems | apps/timesheets/services/upload_parser.py:249-283 | a row with a positive cell is active and emits exactly one item per positive cell, with that cell's bucket and amount |
| ExpenseParser.CodeTotalsMeaning | apps/timesheets/services/upload_parser.py:280-283 | totals_by_charge_code has exactly the items' non-empty codes, each the sum of its items' amounts |
| ExpenseParser.AddAmountsSums | apps/timesheets/services/upload_parser.py:257-261 | a row's amounts raise the bucket sum by the row total and the marketing sum by its marketing amounts |
| ExpenseParser.ExpenseTotalsAgree | apps/timesheets/services/upload_parser.py:229-297 | totals_by_bucket has all sixteen labels and sums to keystone_paid_total; its marketing entries sum to marketing_total; total_expenses is keystone-paid plus client-billed; every item is positive |
| ExpenseParser.ParsedTotalsAgree | apps/timesheets/services/upload_parser.py:229-297 | the totals the parser returns for any worksheets agree in the same way |
| ExpenseParser.FoldMeaning | apps/timesheets/services/upload_parser.py:238-285 | the running values are the rows' items, bucket totals, code totals, and keystone, marketing and client-billed sums, where client-billed sums every numeric D cell of any sign |
| ExpenseParser.ReadBucketCells | apps/timesheets/services/upload_parser.py:253-261 | the bucket loop records each positive cell with its label and adds it to its bucket, the row total and keystone |
| ExpenseParser.EmitRowItems | apps/timesheets/services/upload_parser.py:267-283 | one item per positive amount, each added to its code's total when the code is non-empty |
| ExpenseParser.ReadExpenseRow | apps/timesheets/services/upload_parser.py:243-285 | one pass of the row loop is one step of the running values |
| ExpenseParser.ReadExpenseSheet | apps/timesheets/services/upload_parser.py:242-285 | rows 5-38 of one sheet fold into the running values |
| ExpenseParser.ParseExpenses | apps/timesheets/services/upload_parser.py:229-297 | the parser returns the specified expenses for the sheets present, in sheet order |
| MileageParser.MilesDriven | apps/timesheets/services/upload_parser.py:318-320 | the odometer difference floored at zero when both readings are present, else zero |
| MileageParser.MileageRow | apps/timesheets/services/upload_parser.py:309-333 | a row with no date, destination, non-zero odometer or commute is skipped; otherwise net miles are miles driven less the commute |
| MileageParser.ParseMileage | apps/timesheets/services/upload_parser.py:300-341 | no sheet gives no entries and zero totals; otherwise the specified log of rows 7 to max_row |
| MileageParser.ReadMileageLog | apps/timesheets/services/upload_parser.py:304-341 | the row loop builds the specified log |
| MileageParser.ReadMileageRow | apps/timesheets/services/upload_parser.py:309-336 | a kept row's entry is appended and its miles added to both totals |
| MileageParser.MileageTotals | apps/timesheets/services/upload_parser.py:335-336 | the totals are the sums over the entries; miles driven is never negative; net is miles driven less commute |
| MileageParser.MileageEntryRows | apps/timesheets/services/upload_parser.py:308-333 | the entries come from rows 7 on, in row order, each row at most once |
| MileageParser.MileageRowKept | apps/timesheets/services/upload_parser.py:315-333 | every row that is not skipped has its entry in the log |
| MileageParser.NetMilesCanBeNegative | apps/timesheets/services/upload_parser.py:322 | net miles are not clamped: a long commute makes them negative |
| Cells.DecimalValue | apps/timesheets/services/upload_parser.py:406-416 | None, "" and dates give no decimal, a number its own value |
| Cells.TextCellValue | apps/timesheets/services/upload_parser.py:413-416 | a text cell reads as its text's decimal numeral, and only non-blank text reads as a number |
| Cells.IntTextCellValue | apps/timesheets/services/upload_parser.py:413-416 | the text `str` writes for an integer reads back as that integer |
| Cells.BlankTextCellValue | apps/timesheets/services/upload_parser.py:413-416 | whitespace-only text gives no decimal |
| Cells.DecimalCell | apps/timesheets/services/upload_parser.py:384-385 | the cell's decimal value, or 0 when it has none |
| Cells.ToStr | apps/timesheets/services/upload_parser.py:400-403 | None gives ""; anything else is its text, stripped |
| Cells.IntCell | apps/timesheets/services/upload_parser.py:392-397 | a number truncates toward zero; nothing and a date give nothing; text gives what `int()` reads from it (`Text.ParseInt`), or nothing where that raises |
| Cells.PaddedIntTextCell | apps/timesheets/services/upload_parser.py:392-397 | text holding `str(i)` for any integer, signed or not and padded with whitespace, reads as `i` |
| Cells.UnderscoreTextCell | apps/timesheets/services/upload_parser.py:392-397 | digits with an underscore between them ("2_025") read as the digits without it |
| Text.ParseIntIntStr | apps/timesheets/services/upload_parser.py:395 | `int(str(i)) == i` for every integer |
| Text.ParseIntUnderscore | apps/timesheets/services/upload_parser.py:395 | an underscore between two runs of digits leaves the value unchanged |
| Text.ParseIntDoubleUnderscore | apps/timesheets/services/upload_parser.py:395 | two underscores in a row make `int()` raise |
| Text.ParseIntLeadingUnderscore | apps/timesheets/services/upload_parser.py:395 | a leading underscore makes `int()` raise |
| Text.PaddedParseInt | apps/timesheets/services/upload_parser.py:395 | whitespace around `str(i)` does not change what `int()` reads |
| Text.StripPadded | apps/timesheets/services/upload_parser.py:395 | stripping removes exactly the whitespace around text with non-blank ends |
| Cells.ParseDate | apps/timesheets/services/upload_parser.py:423-435 | a date cell gives its date; nothing, "" and text give none |
| Cells.NumericTextCell | apps/timesheets/services/upload_parser.py:384-397 | text holding a whole number reads as that number |
| Review.Transition | apps/timesheets/models.py:204-228 | submit needs an editable record, approve and return need SUBMITTED |
| Review.ApprovedIsFinal | apps/timesheets/models.py:212-228 | no action leaves APPROVED |
| Review.LockedStaysPut | apps/timesheets/models.py:188-210 | while the period is locked, a DRAFT or RETURNED record keeps its status |
| Review.ApprovalNeedsSubmit | apps/timesheets/models.py:204-219 | a run from an editable status that ends APPROVED contains a submit |
| TimesheetModels.Timesheet.TotalHours | apps/timesheets/models.py:196-202 | the loop returns the sum of the line totals |
| TimesheetModels.TotalIsEveryEntry | apps/timesheets/models.py:196-202 | the sum of line totals is the sum of all entry hours |
| TimesheetModels.Timesheet.Submit | apps/timesheets/models.py:204-210 | raises unless editable; otherwise SUBMITTED with the time recorded, nothing else changed |
| TimesheetModels.Timesheet.Approve | apps/timesheets/models.py:212-219 | only SUBMITTED becomes APPROVED, recording approver and time |
| TimesheetModels.Timesheet.ReturnForRevision | apps/timesheets/models.py:221-228 | only SUBMITTED becomes RETURNED; notes overwrite only when non-empty |
| TimesheetModels.CleanLine | apps/timesheets/models.py:277-282 | an error exactly for a client-work code with an empty label |
| TimesheetModels.CleanEntry | apps/timesheets/models.py:320-336 | `hours % increment` raises exactly for increment 0 or a quotient of 28 digits or more; otherwise hours that are no whole multiple of the 28-digit increment are rejected first, then a date outside the period |
| TimesheetModels.QuarterHours | apps/timesheets/models.py:297-336 | a clean entry within the field bounds records 0 to 96 whole quarter hours |
| TimesheetModels.Extension | apps/timesheets/models.py:58 | the lowercased text after the last dot, or "xlsx" with no dot |
| TimesheetModels.UploadPath | apps/timesheets/models.py:57-61 | the path lies under "timesheet_uploads/" and ends with the extension |
| TimesheetModels.UploadPathSegments | apps/timesheets/models.py:57-61 | split on "/", the path is exactly timesheet_uploads, the year, the two-digit month, the user id and token.extension |
| Decimals.IncrementHours | apps/timesheets/models.py:323-324 | `Decimal(str(m)) / Decimal("60")`: zero exactly for m = 0, positive exactly for m > 0, within half a unit in the 28th significant digit of m/60 |
| Decimals.IncrementHoursExact | apps/timesheets/models.py:323-324 | the increment is exactly m/60 precisely when m is a multiple of three |
| Decimals.QuarterIncrement | apps/timesheets/models.py:323-324 | the 15-minute increment is exactly 0.25 |
| Decimals.TenMinuteIncrement | apps/timesheets/models.py:323-324 | the 10-minute increment is 0.1666666666666666666666666667 |
| Decimals.TenMinuteIncrementInexact | apps/timesheets/models.py:325 | one hour leaves a non-zero remainder against the 10-minute increment, so it is flagged |
| Decimals.RoundedSixtieth | apps/timesheets/models.py:324 | m/60 rounded half-even to 28 significant digits is positive and within half a unit in the last digit |
| Decimals.SixtiethShift | apps/timesheets/models.py:324 | the shift puts exactly 28 digits before the point of m/60 |
| Decimals.Trunc | apps/timesheets/models.py:325 | the integer part toward zero, never larger in magnitude |
| Decimals.Remainder | apps/timesheets/models.py:325 | `x % y` raises for y = 0 or a quotient of 28 digits or more; otherwise it is smaller than y and zero exactly when x/y is whole |
| Decimals.RemainderOfMultiple | apps/timesheets/models.py:325 | a whole number of increments leaves no remainder |
| Decimals.RemainderZero | apps/timesheets/models.py:325 | a zero remainder means x is that whole number of y's |
| ExpenseModels.ReceiptRequirementMet | apps/expenses/models.py:239-255 | met exactly when no receipt is required, or one is attached, or the paper receipt was delivered |
| ExpenseModels.ThresholdIsExclusive | apps/expenses/models.py:240-244 | an amount at the threshold needs no receipt |
| ExpenseModels.HigherThresholdStillMet | apps/expenses/models.py:240-255 | raising the threshold never breaks the rule |
| ExpenseModels.CleanItem | apps/expenses/models.py:257-272 | a date outside the month and a missing required client are each reported, together in one error set |
| ExpenseModels.CleanReportsBoth | apps/expenses/models.py:257-272 | when both fail, both are reported |
| ExpenseModels.Rate | apps/expenses/models.py:350-360 | a truthy override, else the profile rate, else 0.67 |
| ExpenseModels.ZeroOverrideFallsThrough | apps/expenses/models.py:353-354 | a zero override acts as no override |
| ExpenseModels.MileageAmountPositive | apps/expenses/models.py:350-364 | a valid entry with positive rates is reimbursed a positive amount |
| ExpenseModels.ItemsTotalAppend | apps/expenses/models.py:145-148 | the item total is additive over runs of items |
| ExpenseModels.ItemsTotalAtLeast | apps/expenses/models.py:203-208 | valid items add up to at least one cent each |
| ExpenseModels.MileageTotalNonNegative | apps/expenses/models.py:150-153 | positive mileage amounts add up to a non-negative total, zero only for none |
| ExpenseModels.ExpenseReport.Submit | apps/expenses/models.py:159-165 | raises unless editable; otherwise SUBMITTED with the time recorded |
| ExpenseModels.ExpenseReport.Approve | apps/expenses/models.py:167-174 | only SUBMITTED becomes APPROVED, recording approver and time |
| ExpenseModels.ExpenseReport.ReturnForRevision | apps/expenses/models.py:176-183 | only SUBMITTED becomes RETURNED; notes overwrite only when non-empty |
| ExpenseModels.GrandTotalAddItem | apps/expenses/models.py:144-157 | adding an item raises the grand total by its amount |
| ExpenseModels.SplitExtIsSuffix | apps/expenses/models.py:13-17 | the extension ends the file name |
| ExpenseModels.HiddenFileHasNoExtension | apps/expenses/models.py:13-17 | a leading-dot name has no extension |
| ExpenseModels.ReceiptUploadPath | apps/expenses/models.py:13-17 | the path lies under "receipts/" and ends with the token and the extension |
| ExpenseModels.ReceiptUploadPathSegments | apps/expenses/models.py:13-17 | split on "/", the path is exactly receipts, the year, the two-digit month and the token followed by the extension |
| Periods.CurrentHalf | apps/periods/models.py:104-105 | FIRST exactly when the day is at most 15 |
| Periods.FirstHalfDates | apps/periods/models.py:117-126 | the intended first half is a half row of its month |
| Periods.FirstHalfShape | apps/periods/models.py:117-126 | the intended first half runs 1-15, due `due_offset` days after the 15th (into the next month past month end), reminded on 15+due-reminder |
| Periods.FirstDueNeverRolls | apps/periods/models.py:119-126 | as written, a successful due date is always 15+due_offset of the same month; 2025-02 with offset 14 raises |
| Periods.FirstHalfCorrectionAgrees | apps/periods/models.py:117-126 | where the code does not raise, the intended dates are the ones it computes |
| Periods.SecondHalfShape | apps/periods/models.py:140-147 | 16 to the last day, due on day due_offset and reminded on max(1, due_offset - reminder_offset) of the next month |
| Periods.ExpenseMonthShape | apps/periods/models.py:261-270 | the whole month, due on day due_offset+2 and reminded on max(1, due_offset) of the next month |
| Periods.HalvesTileMonth | apps/periods/models.py:117-147 | the halves tile the expense month |
| Periods.TimesheetPeriod.Lock | apps/periods/models.py:86-91 | sets the flag, time and user, nothing else |
| Periods.TimesheetPeriod.Unlock | apps/periods/models.py:93-98 | clears the three lock fields, nothing else |
| Periods.ExpenseMonth.Lock | apps/periods/models.py:235-240 | sets the flag, time and user, nothing else |
| Periods.ExpenseMonth.Unlock | apps/periods/models.py:242-247 | clears the three lock fields, nothing else |
| Periods.PeriodStore.GetOrCreateHalf | apps/periods/models.py:128-138 | an existing row is left untouched, a missing one is created |
| Periods.PeriodStore.GetOrCreateMonth | apps/periods/models.py:272-281 | an existing row is left untouched, a missing one is created |
| Periods.PeriodStore.EnsureMonth | apps/periods/models.py:110-161 | existing rows are unchanged; the first half's dates are the ones the code computes, so an offset past month end raises before any row is written; each row created holds its computed dates; rows before a raising date stay written |
| Periods.PeriodStore.GetCurrentPeriod | apps/periods/models.py:101-107 | Ok exactly when today's month with offsets 3 and 2 has all three date sets; old rows kept; the month's missing rows created with the computed dates; the row returned is today's half and holds today |
| Periods.WithinRow | apps/periods/models.py:100-107 | the half row chosen for today has start <= today <= end |
| CreatePeriods.UpdateOrCreateHalf | apps/periods/management/commands/create_periods.py:54-64 | the row gets the dates whether or not it existed |
| CreatePeriods.UpdateOrCreateMonth | apps/periods/management/commands/create_periods.py:106-115 | the row gets the dates whether or not it existed |
| CreatePeriods.Handle | apps/periods/management/commands/create_periods.py:28-124 | a month outside 1..12 writes nothing; otherwise the three rows are overwritten with the computed dates, the first half as the code computes it, and a raising date leaves exactly the rows before it written |
| SeedRoster.Stem | apps/accounts/management/commands/seed_roster.py:116-120 | the uppercase first letters, or "NA" when empty |
| SeedRoster.CandidateInjective | apps/accounts/management/commands/seed_roster.py:121-125 | the candidates base, base2, base3, … are pairwise different |
| SeedRoster.UniqueInitials | apps/accounts/management/commands/seed_roster.py:115-126 | the first candidate not taken: never taken, non-empty, every earlier candidate taken |
| SeedRoster.GroupFor | apps/accounts/management/commands/seed_roster.py:105-110 | the mapped group when present, else "employees" |
| SeedRoster.RoleTitle | apps/accounts/management/commands/seed_roster.py:98 | "_" replaced by " " and title-cased |
| SeedRoster.RoleTitleExample | apps/accounts/management/commands/seed_roster.py:98 | "managing_partner" becomes "Managing Partner" |
| SeedRoster.InitialsTaken | apps/accounts/management/commands/seed_roster.py:75-77 | exactly the non-empty initials of the profiles |
| SeedRoster.SeedOne | apps/accounts/management/commands/seed_roster.py:79-110 | the user gets the entry's names and is active and grouped; the profile gets the title and keeps its initials, or, when it had none, gets the first candidate from the entry's names that no profile had |
| SeedRoster.Handle | apps/accounts/management/commands/seed_roster.py:68-112 | every roster email is seeded with the values of its latest entry; rows off the roster untouched; existing initials kept; new ones distinct from each other and from old ones, each a candidate from its first entry's names whose earlier candidates are all taken when the run ends |
| SeedRoster.LatestOfDistinct | apps/accounts/management/commands/seed_roster.py:79-81 | with one entry per email each entry is the one that stays |
| Adapters.FirstTruthy | apps/accounts/adapters.py:99-102 | the value of the first key whose claim is non-empty |
| Adapters.ExtractEmail | apps/accounts/adapters.py:92-106 | the first truthy of email, mail, userPrincipalName, preferred_username, else the login user's email |
| Adapters.EmailClaimFirst | apps/accounts/adapters.py:99-102 | an email claim wins |
| Adapters.ExtractTenantId | apps/accounts/adapters.py:109-118 | the first truthy of tid, tenantId, tenant_id, stripped |
| Adapters.DisplayNameSplit | apps/accounts/adapters.py:121-135 | without name claims, first word and remaining words joined by single spaces |
| Adapters.NameClaimsWin | apps/accounts/adapters.py:123-126 | a given or family name means the display name is not read |
| Adapters.DomainAllowlist | apps/accounts/adapters.py:35 | stripped lower-case non-blank domains |
| Adapters.TenantAllowlist | apps/accounts/adapters.py:44 | stripped non-blank tenant ids |
| Adapters.Decide | apps/accounts/adapters.py:23-54 | admitted exactly when an email is found and passes the domain, tenant and roster checks in order; the admitted email is stripped and lower-cased |
| Adapters.BlankDomainListDeniesAll | apps/accounts/adapters.py:32-38 | an all-blank domain allowlist refuses everyone |
| Adapters.BlankTidDenies | apps/accounts/adapters.py:40-47 | a whitespace tid refuses the login even if a later claim would pass |
| Adapters.NoAllowlistsRosterOnly | apps/accounts/adapters.py:49-54 | without allowlists exactly the active roster addresses get in |
| Adapters.FillBlank | apps/accounts/adapters.py:147-152 | a value replaces only an empty field, and only with a non-empty value |
| Adapters.FillBlankIdempotent | apps/accounts/adapters.py:143-162 | a second sync changes nothing |
| Adapters.SyncProfileDetails | apps/accounts/adapters.py:143-162 | only blank names and title are filled; non-empty values are never overwritten |
| Adapters.Admit | apps/accounts/adapters.py:57-66 | the admitted branch stores the email on the login, fills only the user's blank names, leaves email, active flag and groups alone, and connects and redirects exactly a new social account |
| Adapters.PreSocialLogin | apps/accounts/adapters.py:23-66 | a refused login changes no login field and no user; otherwise the normalized email is stored, only the matching roster user's blank names are filled, and a new login is connected and redirected |
| Accounts.FullNameMeaning | apps/accounts/models.py:69-71 | the email exactly when both names are blank, else the stripped non-empty name |
| Accounts.ShortName | apps/accounts/models.py:73-74 | the first name, or the email text before the first "@" |
| Accounts.InactiveFromTermination | apps/accounts/models.py:149-156 | active exactly while today is before the termination date |
| Accounts.NormalizeEmail | apps/accounts/models.py:12 | without "@" the address is unchanged; with one, the stripped address keeps its length and everything up to the last "@", and the domain after it is lower-cased |
| Accounts.CreateUser | apps/accounts/models.py:9-16 | raises exactly on an empty email; stored email is lowercase; flags default |
| Accounts.StoredEmailIgnoresCase | apps/accounts/models.py:12 | addresses differing only in case store the same email |
| Accounts.CreateSuperuser | apps/accounts/models.py:18-28 | staff, superuser and active default true; an explicit false staff, then superuser, raises |
| Accounts.SuperuserEmailAsUser | apps/accounts/models.py:28 | a superuser stores the same email as a plain user |
| TimesheetTags.GetItem | apps/timesheets/templatetags/timesheet_tags.py:8-13 | nothing for no dictionary, else the key's value if present |
| TimesheetTags.GetEntryHours | apps/timesheets/templatetags/timesheet_tags.py:16-21 | the line's entries, or an empty map |
| TimesheetTags.EntryHoursDefault | apps/timesheets/templatetags/timesheet_tags.py:16-21 | missing data and a missing line both give an empty map |
| Decimals.RoundHalfEven | apps/timesheets/templatetags/timesheet_tags.py:35 | within one half of the value; even on a tie |
| Decimals.RoundHalfEvenUnique | apps/timesheets/templatetags/timesheet_tags.py:35 | the only integer closer than a half, or the even one at a half |
| TimesheetTags.GroupedValue | apps/timesheets/templatetags/timesheet_tags.py:35 | removing the commas reads back the number |
| TimesheetTags.Format | apps/timesheets/templatetags/timesheet_tags.py:35 | starts with "-" exactly for negatives |
| TimesheetTags.ShownIsNearest | apps/timesheets/templatetags/timesheet_tags.py:35 | the shown integer is the nearest, ties to even |
| TimesheetTags.FormatReadsBack | apps/timesheets/templatetags/timesheet_tags.py:35 | the formatted text, commas removed, parses to the shown integer |
| TimesheetTags.ZeroDash | apps/timesheets/templatetags/timesheet_tags.py:24-35 | "-" for None, "" and zero; an unparsable value unchanged; otherwise the formatted number |
| TimesheetTags.ZeroDashNonZero | apps/timesheets/templatetags/timesheet_tags.py:24-35 | a non-zero number never shows as "-" and reads back as its rounding |

## Left out

- Workbook loading (openpyxl `load_workbook`, `wb[name]`): the model starts from a cell map.
- Formula cells are not followed; their text coerces like any other text.
- Numeric serial dates (openpyxl `from_excel`) are not converted: `Cells.ParseDate` gives no date for a number.
- Float serialisation of the parsed data is treated as the identity on exact decimals.
- Messages and hints of issues are left out; an issue is its severity, code and location.
- The clock and the settings are parameters: `today`, the grace days, the minimum hours, the increment and the tolerance.
- `SubmissionWindows.SubmissionWindows`: one `today` is shared by both window computations, where the source reads the clock twice.
- Database effects (`save`, `get_or_create`, `update_or_create`, querysets) are maps or class fields; `sha256` hashing, uuid tokens and password hashing are left out or passed in.
- `get_current_month` and `display_name` are not modelled: they are a query and a formatting helper.
- The command-line parsing and stdout output of `create_periods` and `seed_roster` are left out.
- allauth calls (`perform_login`, `sociallogin.connect`, the redirect) become the outcome of `Adapters.PreSocialLogin`.
- Claim values are strings; non-string `extra_data` values are not modelled.
- Case mapping (`lower`, `upper`, `title`) is ASCII only.
- `TimesheetTags.ZeroDash`: `Decimal` text with exponents, underscores, NaN or Infinity is treated as unparsable, and float values are not modelled.
- Decimal arithmetic other than the increment division and `%` is exact: sums and differences past 28 significant digits are not rounded.
- `Cells.DecimalValue`: text in `Decimal`'s exponent ("1e2"), underscore ("1_000"), NaN and Infinity forms gives no decimal, where the source reads a number (or, for NaN, raises at the next comparison); boolean cells, for which `Decimal(str(True))` raises, are not a cell kind of the model. Its text case is stated by `Cells.TextCellValue`, `Cells.IntTextCellValue` and `Cells.BlankTextCellValue`.
- `SeedRoster.Handle`: for initials assigned during the run it says that every earlier candidate is taken when the run ends, not that it was taken at the moment of the choice; `SeedRoster.SeedOne` states the latter for each entry.
- `Cells.IntCell`: text with non-ASCII decimal digits ("２０２５"), which `int()` reads, gives no integer, because the model's digits are '0' to '9'; boolean cells, for which `int()` gives 0 or 1, are not a cell kind of the model. Underscores between digits are modelled.
- `TimesheetModels.CleanEntry`: the `if self.line and self.line.timesheet` guard is taken as true: the period's dates are parameters.
- `TimesheetModels.UploadPathSegments`: the five segments are stated for a file name without "/", a base name as uploads carry; `UploadPath` itself takes any name.
- `ExpenseModels.CleanItem`: the `if self.report` / `if self.category` guards are taken as always true.
- Views, exports, notifications, admin, migrations and payroll summaries are outside the model.

## Findings

| source | as written | input that shows it | evidently intended | confidence | as-written member | corrected member |
|---|---|---|---|---|---|---|
| apps/periods/models.py:119-126 | the first-half due date is built as `date(year, month, 15 + due_offset)` before the month-end rollover test (likewise in `create_periods`), so the rollover never runs and an offset past month end raises | year 2025, month 2, due_offset 14 | due `due_offset` days after the 15th, rolling into the next month; the operations keep the code's behaviour and `Periods.FirstHalfCorrectionAgrees` ties the two together | high; not executed | Periods.FirstDueNeverRolls | Periods.FirstHalfShape |
