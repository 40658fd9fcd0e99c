/**
 * The timesheet records: a timesheet of one employee for one half-month
 * period with its review workflow, its lines (one charge code and label
 * each) and their daily time entries, the validation the line and entry
 * models run, and the storage path of an uploaded workbook.
 */
module TimesheetModels {
  import opened Wrappers
  import opened Text
  import opened Calendar
  import opened Cells
  import opened Decimals
  import opened Review
  import opened Periods

  /** `ChargeCode`, reduced to what the line validation reads. */
  datatype ChargeCode = ChargeCode(code: string, isClientWork: bool)

  /** `TimeEntry`: the hours of one line on one day. */
  datatype TimeEntry = TimeEntry(date: ValidDate, hours: real)

  /** `TimesheetLine`: a charge code with an optional label and its entries. */
  datatype TimesheetLine = TimesheetLine(chargeCode: ChargeCode, lineLabel: string, entries: seq<TimeEntry>)

  /** The sum of the hours of some entries. */
  function EntryHours(entries: seq<TimeEntry>): real
    decreases |entries|
  {
    if entries == [] then 0.0 else entries[0].hours + EntryHours(entries[1..])
  }

  /** Summing two runs of entries one after the other sums all of them. */
  lemma {:induction false} EntryHoursAppend(a: seq<TimeEntry>, b: seq<TimeEntry>)
    ensures EntryHours(a + b) == EntryHours(a) + EntryHours(b)
    decreases |a|
  {
    if a != [] {
      assert (a + b)[1..] == a[1..] + b;
      EntryHoursAppend(a[1..], b);
    } else {
      assert a + b == b;
    }
  }

  /** `TimesheetLine.total_hours`: the sum of the line's entry hours. */
  function LineTotal(line: TimesheetLine): real {
    EntryHours(line.entries)
  }

  /** The sum of the line totals, in line order. */
  function LinesTotal(lines: seq<TimesheetLine>): real
    decreases |lines|
  {
    if lines == [] then 0.0 else LinesTotal(lines[..|lines| - 1]) + LineTotal(lines[|lines| - 1])
  }

  /** Every entry of every line, line by line. */
  function AllEntries(lines: seq<TimesheetLine>): seq<TimeEntry>
    decreases |lines|
  {
    if lines == [] then [] else AllEntries(lines[..|lines| - 1]) + lines[|lines| - 1].entries
  }

  /** The timesheet total is the sum of all entry hours of the timesheet ("sum of all time entries"). */
  lemma {:induction false} TotalIsEveryEntry(lines: seq<TimesheetLine>)
    ensures LinesTotal(lines) == EntryHours(AllEntries(lines))
    decreases |lines|
  {
    if lines != [] {
      var init := lines[..|lines| - 1];
      TotalIsEveryEntry(init);
      EntryHoursAppend(AllEntries(init), lines[|lines| - 1].entries);
    }
  }

  /** `Timesheet`: one employee's timesheet for one period. */
  class Timesheet {
    const period: TimesheetPeriod
    var status: Status
    var submittedAt: Option<Instant>
    var approvedAt: Option<Instant>
    var approvedBy: Option<UserId>
    var employeeNotes: string
    var reviewerNotes: string
    var lines: seq<TimesheetLine>

    /** A new DRAFT timesheet for `period`. */
    constructor (period: TimesheetPeriod)
      ensures this.period == period && status == Draft
      ensures submittedAt.None? && approvedAt.None? && approvedBy.None?
      ensures employeeNotes == "" && reviewerNotes == "" && lines == []
    {
      this.period := period;
      status := Draft;
      submittedAt, approvedAt, approvedBy := None, None, None;
      employeeNotes, reviewerNotes := "", "";
      lines := [];
    }

    /** `is_editable`: DRAFT or RETURNED, and the period is not locked. */
    predicate Editable()
      reads this, period
    {
      IsEditable(status, period.isLocked)
    }

    /** `total_hours`: the line totals added up one line at a time. */
    method TotalHours() returns (total: real)
      ensures total == LinesTotal(lines)
    {
      total := 0.0;
      for i := 0 to |lines|
        invariant total == LinesTotal(lines[..i])
      {
        assert lines[..i + 1][..i] == lines[..i];
        total := total + LineTotal(lines[i]);
      }
      assert lines[..|lines|] == lines;
    }

    /**
     * `submit`: raises unless editable; otherwise the status becomes
     * SUBMITTED, the submission time is recorded and nothing else changes.
     */
    method Submit(now: Instant) returns (ok: bool)
      modifies this
      ensures ok <==> Transition(old(status), period.isLocked, Action.Submit).Some?
      ensures ok ==> status == Transition(old(status), period.isLocked, Action.Submit).value && submittedAt == Some(now)
      ensures !ok ==> status == old(status) && submittedAt == old(submittedAt)
      ensures approvedAt == old(approvedAt) && approvedBy == old(approvedBy)
      ensures employeeNotes == old(employeeNotes) && reviewerNotes == old(reviewerNotes) && lines == old(lines)
    {
      if !Editable() {
        return false;
      }
      status := Submitted;
      submittedAt := Some(now);
      ok := true;
    }

    /** `approve`: only a SUBMITTED timesheet becomes APPROVED, recording the approver and the time. */
    method Approve(now: Instant, approver: Option<UserId>) returns (ok: bool)
      modifies this
      ensures ok <==> Transition(old(status), period.isLocked, Action.Approve).Some?
      ensures ok ==> status == Transition(old(status), period.isLocked, Action.Approve).value
                     && approvedAt == Some(now) && approvedBy == approver
      ensures !ok ==> status == old(status) && approvedAt == old(approvedAt) && approvedBy == old(approvedBy)
      ensures submittedAt == old(submittedAt)
      ensures employeeNotes == old(employeeNotes) && reviewerNotes == old(reviewerNotes) && lines == old(lines)
    {
      if status != Submitted {
        return false;
      }
      status := Approved;
      approvedAt := Some(now);
      approvedBy := approver;
      ok := true;
    }

    /**
     * `return_for_revision`: only a SUBMITTED timesheet becomes RETURNED;
     * the reviewer notes are replaced only by non-empty notes.
     */
    method ReturnForRevision(notes: string) returns (ok: bool)
      modifies this
      ensures ok <==> Transition(old(status), period.isLocked, Action.ReturnForRevision).Some?
      ensures ok ==> status == Transition(old(status), period.isLocked, Action.ReturnForRevision).value
      ensures reviewerNotes == if ok && notes != "" then notes else old(reviewerNotes)
      ensures !ok ==> status == old(status)
      ensures submittedAt == old(submittedAt) && approvedAt == old(approvedAt) && approvedBy == old(approvedBy)
      ensures employeeNotes == old(employeeNotes) && lines == old(lines)
    {
      if status != Submitted {
        return false;
      }
      status := Returned;
      if notes != "" {
        reviewerNotes := notes;
      }
      ok := true;
    }
  }

  /** The field that `TimesheetLine.clean` and `TimeEntry.clean` report. */
  datatype CleanError = LabelRequired | HoursNotInIncrement | DateOutsidePeriod

  /** `TimesheetLine.clean`: a client-work charge code needs a label. */
  function CleanLine(line: TimesheetLine): (r: Option<CleanError>)
    ensures r.Some? <==> line.chargeCode.isClientWork && line.lineLabel == ""
    ensures r.Some? ==> r.value == LabelRequired
  {
    if line.chargeCode.isClientWork && line.lineLabel == "" then Some(LabelRequired) else None
  }

  /**
   * `TimeEntry.clean`: the hours must be a whole number of increments,
   * checked first, and the date must lie in the period.  The increment is
   * `Decimal(str(minutes)) / Decimal("60")`, rounded to 28 digits, and
   * `hours % increment` raises InvalidOperation for a zero increment or a
   * quotient of more than 28 digits.
   */
  function CleanEntry(entry: TimeEntry, incrementMinutes: int, start: ValidDate, end: ValidDate): (r: Result<Option<CleanError>, DecimalError>)
    ensures r.Err? <==>
      incrementMinutes == 0 || Abs(entry.hours / IncrementHours(incrementMinutes)) >= Limit as real
    ensures r == Ok(Some(HoursNotInIncrement)) <==>
      !r.Err? && !IsWhole(entry.hours / IncrementHours(incrementMinutes))
    ensures r == Ok(Some(DateOutsidePeriod)) <==>
      !r.Err? && IsWhole(entry.hours / IncrementHours(incrementMinutes)) && !Within(start, end, entry.date)
    ensures r.Ok? ==> r.value.None? || r.value == Some(HoursNotInIncrement) || r.value == Some(DateOutsidePeriod)
  {
    match Remainder(entry.hours, IncrementHours(incrementMinutes))
    case Err(e) => Err(e)
    case Ok(rest) =>
      if rest != 0.0 then Ok(Some(HoursNotInIncrement))
      else if !Within(start, end, entry.date) then Ok(Some(DateOutsidePeriod))
      else Ok(None)
  }

  /** The field validators on `hours`: between 0 and 24, with at most two decimal places. */
  predicate ValidHours(hours: real) {
    0.0 <= hours <= 24.0 && (hours * 100.0).Floor as real == hours * 100.0
  }

  /**
   * With the 15-minute increment, an entry that passes `clean` and the
   * field validators records a whole number of quarter hours, 0 to 96 of
   * them.
   */
  lemma QuarterHours(entry: TimeEntry, start: ValidDate, end: ValidDate)
    requires CleanEntry(entry, 15, start, end) == Ok(None) && ValidHours(entry.hours)
    ensures 0 <= (entry.hours * 4.0).Floor <= 96
    ensures entry.hours == (entry.hours * 4.0).Floor as real * 0.25
  {
    var inc := IncrementHours(15);
    assert IsWhole(entry.hours / inc);
    QuarterIncrement();
    QuarterCount(entry.hours, inc);
  }

  lemma QuarterCount(h: real, inc: real)
    requires inc == 0.25 && IsWhole(h / inc) && 0.0 <= h <= 24.0
    ensures 0 <= (h * 4.0).Floor <= 96
    ensures h == (h * 4.0).Floor as real * 0.25
  {
    assert h / inc == h * 4.0;
  }

  /** `filename.split(".")[-1].lower() if "." in filename else "xlsx"`. */
  function Extension(filename: string): (ext: string)
    ensures '.' !in ext
    ensures '.' !in filename ==> ext == "xlsx"
    ensures '.' in filename ==> ext == Lower(AfterLast(filename, '.'))
  {
    if '.' in filename then Lower(AfterLast(filename, '.')) else "xlsx"
  }

  /**
   * `timesheet_upload_path`: "timesheet_uploads/<year>/<month:02d>/<user>/<token>.<ext>",
   * where the random hex token is a parameter.
   */
  function UploadPath(year: nat, month: nat, userId: UserId, token: string, filename: string): (path: string)
    ensures StartsWith(path, "timesheet_uploads/")
    ensures EndsWith(path, "." + Extension(filename))
  {
    var name := "." + Extension(filename);
    var dirs := NatStr(year) + "/" + TwoDigits(month) + "/" + NatStr(userId) + "/" + token;
    var rest := dirs + name;
    ConcatEnds("timesheet_uploads/", rest);
    ConcatEnds(dirs, name);
    EndsWithTrans("timesheet_uploads/" + rest, rest, name);
    "timesheet_uploads/" + rest
  }

  /**
   * The stored path splits on '/' into the upload folder, the year, the
   * two-digit month, the user and the file name, provided neither the token
   * nor the uploaded file's base name holds a '/'.
   */
  lemma UploadPathSegments(year: nat, month: nat, userId: UserId, token: string, filename: string)
    requires '/' !in token && '/' !in filename
    ensures Split(UploadPath(year, month, userId, token, filename), '/')
         == ["timesheet_uploads", NatStr(year), TwoDigits(month), NatStr(userId), token + "." + Extension(filename)]
  {
    assert '/' !in "timesheet_uploads" && "timesheet_uploads/" == "timesheet_uploads" + ['/'];
    var ext := Extension(filename);
    if '.' in filename {
      LowerKeeps(AfterLast(filename, '.'), '/');
    }
    assert '/' !in token + ("." + ext);
    DigitsExclude(NatStr(year), '/');
    DigitsExclude(TwoDigits(month), '/');
    DigitsExclude(NatStr(userId), '/');
    SplitPathFive("timesheet_uploads/", "timesheet_uploads", NatStr(year), TwoDigits(month), NatStr(userId), token, "." + ext, '/');
    assert token + ("." + ext) == token + "." + ext;
  }
}
