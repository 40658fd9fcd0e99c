/**
 * `parse_timesheet_workbook`: a whole workbook read into the nested
 * structure the validator checks.  A workbook is its sheets in tab order,
 * each an abstract cell grid; loading the file is not part of the model.
 */
module Workbook {
  import opened Wrappers
  import opened Cells
  import opened Dicts
  import opened TimeParser
  import opened ExpenseParser
  import opened MileageParser

  const FirstHalfSheet := "Time-1st half of month"
  const SecondHalfSheet := "Time-2nd half of month"
  const MileageSheet := "Auto Log 655"
  const ValidationsSheet := "Validations"

  /** `REQUIRED_SHEETS`, in the order the validator reports them. */
  const RequiredSheets: seq<string> :=
    [FirstHalfSheet, SecondHalfSheet, "Expenses-Main", "Expenses-Additional", MileageSheet, ValidationsSheet]

  /** A loaded workbook: its sheet names in tab order, each with its cells. */
  datatype Workbook = Workbook(sheets: seq<(string, Sheet)>)

  /** `{name: wb[name] for name in wb.sheetnames}`. */
  function Worksheets(sheets: seq<(string, Sheet)>): (m: map<string, Sheet>)
    ensures forall name :: name in m <==> name in Keys(sheets)
    decreases |sheets|
  {
    if sheets == [] then map[]
    else
      var init := sheets[..|sheets| - 1];
      assert Keys(sheets) == Keys(init) + [sheets[|sheets| - 1].0];
      Worksheets(init)[sheets[|sheets| - 1].0 := sheets[|sheets| - 1].1]
  }

  /** `worksheets.get(name)`. */
  function Lookup(worksheets: map<string, Sheet>, name: string): (r: Option<Sheet>)
    ensures r.Some? <==> name in worksheets
  {
    if name in worksheets then Some(worksheets[name]) else None
  }

  /** The header cells of the first time sheet. */
  datatype Metadata = Metadata(
    company: string,
    employeeName: string,
    year: Option<int>,
    month: Option<int>,
    midMarker: Option<int>,
    templateVersion: string)

  /** `_parse_metadata`: the header cells A1, L1, T1, V1, X1 and A39; no sheet gives `{}`, here `None`. */
  function ParseMetadata(ws: Option<Sheet>): (r: Option<Metadata>)
    ensures r.None? <==> ws.None?
    ensures r.Some? ==> r.value.year == IntCell(ws.value, 'T', 1) && r.value.month == IntCell(ws.value, 'V', 1)
    ensures r.Some? ==> r.value.templateVersion == StringCell(ws.value, 'A', 39)
  {
    match ws
    case None => None
    case Some(sheet) =>
      Some(Metadata(StringCell(sheet, 'A', 1), StringCell(sheet, 'L', 1), IntCell(sheet, 'T', 1),
                    IntCell(sheet, 'V', 1), IntCell(sheet, 'X', 1), StringCell(sheet, 'A', 39)))
  }

  /** `metadata.get("year")` and `metadata.get("month")`. */
  function MetaYear(m: Option<Metadata>): Option<int> {
    if m.None? then None else m.value.year
  }

  function MetaMonth(m: Option<Metadata>): Option<int> {
    if m.None? then None else m.value.month
  }

  /** What `parse_timesheet_workbook` returns. */
  datatype ParsedWorkbook = ParsedWorkbook(
    sheetsPresent: seq<string>,
    metadata: Option<Metadata>,
    year: Option<int>,
    month: Option<int>,
    firstHalf: TimeHalf,
    secondHalf: TimeHalf,
    expenses: Expenses,
    mileage: Mileage)

  /** What `_parse_validations_map` returns for a present or missing Validations sheet. */
  function ValidationsOf(ws: Option<Sheet>): map<string, string> {
    if ws.None? then map[] else ValidationsUpTo(ws.value, ws.value.maxRow)
  }

  /**
   * `parse_timesheet_workbook`: the header of the first time sheet, the
   * Validations map, both halves, the expenses and the mileage log; a
   * header naming no real month makes the half parser raise.
   */
  function ParsedOf(wb: Workbook): Result<ParsedWorkbook, ParseError> {
    var worksheets := Worksheets(wb.sheets);
    var first := Lookup(worksheets, FirstHalfSheet);
    var metadata := ParseMetadata(first);
    var year, month := MetaYear(metadata), MetaMonth(metadata);
    var vmap := ValidationsOf(Lookup(worksheets, ValidationsSheet));
    match HalfSpec(first, First, year, month, vmap)
    case Err(e) => Err(e)
    case Ok(firstHalf) =>
      match HalfSpec(Lookup(worksheets, SecondHalfSheet), Second, year, month, vmap)
      case Err(e) => Err(e)
      case Ok(secondHalf) =>
        Ok(ParsedWorkbook(Keys(wb.sheets), metadata, year, month, firstHalf, secondHalf,
                          ExpensesOf(RowsOfSheets(worksheets, |ExpenseSheets|)),
                          MileageOf(Lookup(worksheets, MileageSheet))))
  }

  /** `parse_timesheet_workbook`, calling each part's parser in turn. */
  method ParseTimesheetWorkbook(wb: Workbook) returns (r: Result<ParsedWorkbook, ParseError>)
    ensures r == ParsedOf(wb)
  {
    var worksheets := Worksheets(wb.sheets);
    var timeFirst := Lookup(worksheets, FirstHalfSheet);
    var timeSecond := Lookup(worksheets, SecondHalfSheet);
    var validations := Lookup(worksheets, ValidationsSheet);
    var metadata := ParseMetadata(timeFirst);
    var year, month := MetaYear(metadata), MetaMonth(metadata);
    var vmap := ParseValidationsMap(validations);
    var firstHalf := ParseTimeHalf(timeFirst, First, year, month, vmap);
    if firstHalf.Err? {
      return Err(firstHalf.error);
    }
    var secondHalf := ParseTimeHalf(timeSecond, Second, year, month, vmap);
    if secondHalf.Err? {
      return Err(secondHalf.error);
    }
    var expenses := ParseExpenses(worksheets);
    var mileage := ParseMileage(Lookup(worksheets, MileageSheet));
    r := Ok(ParsedWorkbook(Keys(wb.sheets), metadata, year, month, firstHalf.value, secondHalf.value,
                           expenses, mileage));
  }

  /**
   * What the validator can rely on from the parser: the sheet list is the
   * workbook's; without the first time sheet there is no header and both
   * halves are empty; and a parse that succeeds with a non-zero header year
   * and month has a month in 1..12 and a year in 1..9999, since any other
   * header makes the half parser raise.
   */
  lemma ParsedHeader(wb: Workbook)
    requires ParsedOf(wb).Ok?
    ensures var p := ParsedOf(wb).value;
      && p.sheetsPresent == Keys(wb.sheets)
      && (FirstHalfSheet !in Keys(wb.sheets) ==> p.metadata.None? && p.year.None? && p.month.None?
                                                  && p.firstHalf == EmptyHalf && p.secondHalf == EmptyHalf)
      && (IntTruthy(p.year) && IntTruthy(p.month) ==> 1 <= p.month.value <= 12 && 1 <= p.year.value <= 9999)
  {
  }
}
