/**
 * The mileage log of an uploaded workbook (`_parse_mileage`, sheet
 * "Auto Log 655"): from row 7 to the sheet's last row, each row with a date
 * (A), a destination (C), odometer readings (E, F) and commute miles (I).
 */
module MileageParser {
  import opened Wrappers
  import opened Calendar
  import opened Cells

  const FirstMileageRow := 7

  /** One mileage entry. */
  datatype MileageEntry = MileageEntry(
    row: int,
    date: Option<string>,
    destination: string,
    odometerStart: Option<real>,
    odometerEnd: Option<real>,
    commuteMiles: real,
    milesDriven: real,
    netMiles: real)

  /** What `_parse_mileage` returns: the entries and the two totals. */
  datatype Mileage = Mileage(entries: seq<MileageEntry>, milesDriven: real, netMiles: real)

  /** A decimal that Python treats as true: present and non-zero. */
  predicate Truthy(x: Option<real>) {
    x.Some? && x.value != 0.0
  }

  /**
   * The miles driven on one row: the odometer difference when both readings
   * are present, never below zero, and zero otherwise.
   */
  function MilesDriven(start: Option<real>, end: Option<real>): (miles: real)
    ensures miles >= 0.0
    ensures start.Some? && end.Some? && end.value >= start.value ==> miles == end.value - start.value
    ensures start.None? || end.None? || end.value <= start.value ==> miles == 0.0
  {
    if start.Some? && end.Some? then
      var diff := end.value - start.value;
      if diff > 0.0 then diff else 0.0
    else
      0.0
  }

  /** The five cells of a mileage row, coerced the way `_parse_mileage` coerces them. */
  datatype MileageCells = MileageCells(
    date: Option<ValidDate>,
    destination: string,
    odometerStart: Option<real>,
    odometerEnd: Option<real>,
    commute: real)

  function ReadMileageCells(ws: Sheet, row: int): MileageCells {
    MileageCells(ParseDate(At(ws, 'A', row)), ToStr(At(ws, 'C', row)), DecimalValue(At(ws, 'E', row)),
                 DecimalValue(At(ws, 'F', row)), DecimalCell(ws, 'I', row))
  }

  /**
   * The entry for a row with cells `c`: `None` when the row has no date, no
   * destination, no non-zero odometer reading and no non-zero commute.
   */
  function MileageRow(row: int, c: MileageCells): (r: Option<MileageEntry>)
    ensures r.None? <==>
      c.date.None? && c.destination == "" && !Truthy(c.odometerStart) && !Truthy(c.odometerEnd) && c.commute == 0.0
    ensures r.Some? ==>
      && r.value.row == row
      && r.value.odometerStart == c.odometerStart && r.value.odometerEnd == c.odometerEnd
      && r.value.commuteMiles == c.commute
      && r.value.milesDriven == MilesDriven(c.odometerStart, c.odometerEnd) >= 0.0
      && r.value.netMiles == r.value.milesDriven - r.value.commuteMiles
  {
    if c.date.None? && c.destination == "" && !Truthy(c.odometerStart) && !Truthy(c.odometerEnd) && c.commute == 0.0 then
      None
    else
      var miles := MilesDriven(c.odometerStart, c.odometerEnd);
      var net := if c.commute != 0.0 then miles - c.commute else miles;
      Some(MileageEntry(row, if c.date.Some? then Some(IsoFormat(c.date.value)) else None, c.destination,
                        c.odometerStart, c.odometerEnd, c.commute, miles, net))
  }

  /** The entry each row gives, or `None` for a skipped row. */
  function RowEntries(ws: Sheet): int -> Option<MileageEntry> {
    row => MileageRow(row, ReadMileageCells(ws, row))
  }

  /**
   * The mileage log after rows 7 through `last`, each row giving the entry
   * `rowEntry` says: the entries of the rows that are not skipped, in row
   * order, with the running totals.
   */
  function MileageLog(rowEntry: int -> Option<MileageEntry>, last: int): Mileage
    decreases last - FirstMileageRow
  {
    if last < FirstMileageRow then Mileage([], 0.0, 0.0)
    else AddEntry(MileageLog(rowEntry, last - 1), rowEntry(last))
  }

  /** A kept row's entry appended to the log and added to both totals; a skipped row changes nothing. */
  function AddEntry(m: Mileage, entry: Option<MileageEntry>): Mileage {
    if entry.None? then m
    else Mileage(m.entries + [entry.value], m.milesDriven + entry.value.milesDriven, m.netMiles + entry.value.netMiles)
  }

  /** What `_parse_mileage` returns for the sheet, or for a missing sheet. */
  function MileageOf(ws: Option<Sheet>): Mileage {
    if ws.None? then Mileage([], 0.0, 0.0) else MileageLog(RowEntries(ws.value), ws.value.maxRow)
  }

  /** `_parse_mileage`: an absent sheet gives no entries; otherwise its rows 7 to `max_row` are read. */
  method ParseMileage(ws: Option<Sheet>) returns (m: Mileage)
    ensures m == MileageOf(ws)
  {
    if ws.None? {
      return Mileage([], 0.0, 0.0);
    }
    m := ReadMileageLog(ws.value);
  }

  /** The row loop of `_parse_mileage`, over rows 7 to `max_row`, skipping empty rows and totalling the miles. */
  method ReadMileageLog(sheet: Sheet) returns (m: Mileage)
    ensures m == MileageLog(RowEntries(sheet), sheet.maxRow)
  {
    var entries: seq<MileageEntry> := [];
    var totalMiles, totalNet := 0.0, 0.0;
    var row := FirstMileageRow;
    while row <= sheet.maxRow
      invariant FirstMileageRow <= row && (row <= sheet.maxRow + 1 || row == FirstMileageRow)
      invariant Mileage(entries, totalMiles, totalNet) == MileageLog(RowEntries(sheet), row - 1)
    {
      entries, totalMiles, totalNet := ReadMileageRow(sheet, row, entries, totalMiles, totalNet);
      row := row + 1;
    }
    LogEnd(RowEntries(sheet), sheet.maxRow, row - 1);
    m := Mileage(entries, totalMiles, totalNet);
  }

  /** Where the row loop stops: past the last row, or at row 7 when the sheet has no rows from 7 on. */
  lemma LogEnd(rowEntry: int -> Option<MileageEntry>, maxRow: int, last: int)
    requires last == maxRow || (last == FirstMileageRow - 1 && maxRow < FirstMileageRow)
    ensures MileageLog(rowEntry, last) == MileageLog(rowEntry, maxRow)
  {
  }

  /**
   * The body of the row loop of `_parse_mileage`: a row that is not skipped
   * has its entry appended and its miles added to both totals, so that the
   * log covers one more row.
   */
  method ReadMileageRow(ws: Sheet, row: int, entries: seq<MileageEntry>, totalMiles: real, totalNet: real)
    returns (entries': seq<MileageEntry>, totalMiles': real, totalNet': real)
    requires row >= FirstMileageRow
    requires Mileage(entries, totalMiles, totalNet) == MileageLog(RowEntries(ws), row - 1)
    ensures Mileage(entries', totalMiles', totalNet') == MileageLog(RowEntries(ws), row)
  {
    entries', totalMiles', totalNet' := entries, totalMiles, totalNet;
    var entry := MileageRow(row, ReadMileageCells(ws, row));
    if entry.Some? {
      entries' := entries + [entry.value];
      totalMiles' := totalMiles + entry.value.milesDriven;
      totalNet' := totalNet + entry.value.netMiles;
    }
    EntryAdded(Mileage(entries, totalMiles, totalNet), entry, entries', totalMiles', totalNet');
  }

  lemma EntryAdded(m: Mileage, entry: Option<MileageEntry>, entries: seq<MileageEntry>, miles: real, net: real)
    requires entry.None? ==> entries == m.entries && miles == m.milesDriven && net == m.netMiles
    requires entry.Some? ==> && entries == m.entries + [entry.value]
                             && miles == m.milesDriven + entry.value.milesDriven
                             && net == m.netMiles + entry.value.netMiles
    ensures Mileage(entries, miles, net) == AddEntry(m, entry)
  {
  }

  /**
   * Row results as `MileageRow` gives them: an entry carries its own row
   * number, its miles driven are never negative, and its net miles are the
   * miles driven less the commute.
   */
  ghost predicate ValidRows(rowEntry: int -> Option<MileageEntry>) {
    forall row :: rowEntry(row).Some? ==>
      && rowEntry(row).value.row == row
      && rowEntry(row).value.milesDriven >= 0.0
      && rowEntry(row).value.netMiles == rowEntry(row).value.milesDriven - rowEntry(row).value.commuteMiles
  }

  /** The rows of a worksheet give valid row results. */
  lemma SheetRowsValid(ws: Sheet)
    ensures ValidRows(RowEntries(ws))
  {
    forall row | RowEntries(ws)(row).Some?
      ensures RowEntries(ws)(row).value.netMiles
           == RowEntries(ws)(row).value.milesDriven - RowEntries(ws)(row).value.commuteMiles
    {
      var c := ReadMileageCells(ws, row);
      assert RowEntries(ws)(row) == MileageRow(row, c);
    }
  }

  function SumMiles(entries: seq<MileageEntry>): real
    decreases |entries|
  {
    if entries == [] then 0.0 else SumMiles(entries[..|entries| - 1]) + entries[|entries| - 1].milesDriven
  }

  function SumNet(entries: seq<MileageEntry>): real
    decreases |entries|
  {
    if entries == [] then 0.0 else SumNet(entries[..|entries| - 1]) + entries[|entries| - 1].netMiles
  }

  function SumCommute(entries: seq<MileageEntry>): real
    decreases |entries|
  {
    if entries == [] then 0.0 else SumCommute(entries[..|entries| - 1]) + entries[|entries| - 1].commuteMiles
  }

  /**
   * The log's totals are the sums over its entries: the miles-driven total is
   * never negative and the net total is the miles driven less the commute.
   */
  lemma {:induction false} MileageTotals(rowEntry: int -> Option<MileageEntry>, last: int)
    requires ValidRows(rowEntry)
    ensures var m := MileageLog(rowEntry, last);
      && m.milesDriven == SumMiles(m.entries) >= 0.0
      && m.netMiles == SumNet(m.entries) == SumMiles(m.entries) - SumCommute(m.entries)
    decreases last - FirstMileageRow
  {
    if last >= FirstMileageRow {
      MileageTotals(rowEntry, last - 1);
      var m := MileageLog(rowEntry, last);
      if rowEntry(last).Some? {
        assert m.entries[..|m.entries| - 1] == MileageLog(rowEntry, last - 1).entries;
      }
    }
  }

  /**
   * The entries come from rows 7 to `last`, in row order, each row at most
   * once, and each entry is the one its own row gives.
   */
  lemma {:induction false} MileageEntryRows(rowEntry: int -> Option<MileageEntry>, last: int)
    requires ValidRows(rowEntry)
    ensures forall i, j :: 0 <= i < j < |MileageLog(rowEntry, last).entries| ==>
      MileageLog(rowEntry, last).entries[i].row < MileageLog(rowEntry, last).entries[j].row
    ensures forall e :: e in MileageLog(rowEntry, last).entries ==>
      FirstMileageRow <= e.row <= last && rowEntry(e.row) == Some(e)
    decreases last - FirstMileageRow
  {
    if last >= FirstMileageRow {
      MileageEntryRows(rowEntry, last - 1);
      var prev := MileageLog(rowEntry, last - 1).entries;
      var entries := MileageLog(rowEntry, last).entries;
      if rowEntry(last).Some? {
        assert entries == prev + [rowEntry(last).value];
        forall i | 0 <= i < |prev| ensures prev[i].row < last {
          assert prev[i] in prev;
        }
      } else {
        assert entries == prev;
      }
    }
  }

  /** A row that is not skipped has its entry in the log. */
  lemma {:induction false} MileageRowKept(rowEntry: int -> Option<MileageEntry>, last: int, row: int)
    requires FirstMileageRow <= row <= last && rowEntry(row).Some?
    ensures rowEntry(row).value in MileageLog(rowEntry, last).entries
    decreases last - FirstMileageRow
  {
    var entries := MileageLog(rowEntry, last).entries;
    if row < last {
      MileageRowKept(rowEntry, last - 1, row);
      var prev := MileageLog(rowEntry, last - 1).entries;
      var j :| 0 <= j < |prev| && prev[j] == rowEntry(row).value;
      assert entries[j] == prev[j];
    } else {
      assert entries[|entries| - 1] == rowEntry(row).value;
    }
  }

  /** A commute longer than the trip makes `net_miles` negative: the net is not clamped at zero. */
  lemma NetMilesCanBeNegative()
    ensures MileageRow(7, MileageCells(None, "", None, None, 10.0))
         == Some(MileageEntry(7, None, "", None, None, 10.0, 0.0, -10.0))
  {
  }
}
