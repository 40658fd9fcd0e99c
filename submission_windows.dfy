/**
 * The submission-window date rules of the upload validator: the first
 * workday on or after a date, the two half-month windows of a month, the
 * months whose window is open today, and the halves of one month that are
 * open today.  `today` and the grace period are parameters.
 */
module SubmissionWindows {
  import opened Wrappers
  import opened Calendar
  import opened Cells
  import opened Text

  /** The halves `_open_halves_for_today` reports: "first_half" and "second_half". */
  datatype HalfKey = FirstHalf | SecondHalf

  /** 31 December 9999 is a Friday, so every Saturday and Sunday has a following Monday. */
  lemma LastDayIsFriday()
    ensures Weekday(Date(MaxYear, 12, 31)) == 4
  {
  }

  /** The day after a weekend day, which always exists. */
  function DayAfterWeekend(d: ValidDate): (r: ValidDate)
    requires !IsWorkday(d)
    ensures Ordinal(r) == Ordinal(d) + 1 && Ordinal(r) <= MaxOrdinal
  {
    LastDayIsFriday();
    var next := NextDay(d).value;
    OrdinalRange(next);
    next
  }

  /** The day the loop of `_first_workday_on_or_after` stops on. */
  function FirstWorkday(d: ValidDate): ValidDate
    decreases MaxOrdinal - Ordinal(d)
  {
    if IsWorkday(d) then d else FirstWorkday(DayAfterWeekend(d))
  }

  /** How many days a loop starting on weekday `w` steps before it reaches a Monday-to-Friday day. */
  function WeekendGap(w: int): int {
    if w == 5 then 2 else if w == 6 then 1 else 0
  }

  /** The loop steps over exactly the Saturday and Sunday it starts on, onto a workday. */
  lemma FirstWorkdayGap(d: ValidDate)
    ensures IsWorkday(FirstWorkday(d))
    ensures Ordinal(FirstWorkday(d)) == Ordinal(d) + WeekendGap(Weekday(d))
  {
    if !IsWorkday(d) {
      var next := DayAfterWeekend(d);
      WeekdayAhead(d, next);
      if Weekday(d) == 5 {
        assert Weekday(next) == 6;
        var after := DayAfterWeekend(next);
        WeekdayAhead(next, after);
        assert Weekday(after) == 0;
        assert FirstWorkday(d) == after;
      } else {
        assert Weekday(next) == 0;
        assert FirstWorkday(d) == next;
      }
    }
  }

  /**
   * The first workday on or after `d` is a Monday-to-Friday date at most two
   * days later, every day before it from `d` on is a Saturday or Sunday, and
   * a workday is its own first workday.
   */
  lemma FirstWorkdayMeaning(d: ValidDate)
    ensures IsWorkday(FirstWorkday(d))
    ensures Ordinal(d) <= Ordinal(FirstWorkday(d)) <= Ordinal(d) + 2
    ensures IsWorkday(d) ==> FirstWorkday(d) == d
    ensures forall e: ValidDate :: Ordinal(d) <= Ordinal(e) < Ordinal(FirstWorkday(d)) ==> !IsWorkday(e)
  {
    FirstWorkdayGap(d);
    forall e: ValidDate | Ordinal(d) <= Ordinal(e) < Ordinal(FirstWorkday(d)) ensures !IsWorkday(e) {
      if Ordinal(e) == Ordinal(d) {
        OrdinalInjective(d, e);
      } else {
        var next := DayAfterWeekend(d);
        WeekdayAhead(d, next);
        OrdinalInjective(next, e);
      }
    }
  }

  /** The weekday of the day after a date is the next weekday, Sunday wrapping to Monday. */
  lemma WeekdayAhead(d: ValidDate, e: ValidDate)
    requires Ordinal(e) == Ordinal(d) + 1
    ensures Weekday(e) == if Weekday(d) == 6 then 0 else Weekday(d) + 1
  {
    WeekStep(Ordinal(d));
  }

  lemma WeekStep(n: int)
    ensures (n + 7) % 7 == if (n + 6) % 7 == 6 then 0 else (n + 6) % 7 + 1
  {
    var q, r := (n + 6) / 7, (n + 6) % 7;
    if r < 6 {
      ModUnique(n + 7, 7, q, r + 1);
    } else {
      ModUnique(n + 7, 7, q + 1, 0);
    }
  }

  /** `_first_workday_on_or_after`: step one day at a time while the day is a Saturday or Sunday. */
  method FirstWorkdayOnOrAfter(d: ValidDate) returns (r: ValidDate)
    ensures IsWorkday(r) && Ordinal(d) <= Ordinal(r) <= Ordinal(d) + 2
    ensures IsWorkday(d) ==> r == d
    ensures Ordinal(r) == Ordinal(d) + WeekendGap(Weekday(d))
  {
    r := d;
    while Weekday(r) >= 5
      invariant FirstWorkday(r) == FirstWorkday(d)
      decreases MaxOrdinal - Ordinal(r)
    {
      OrdinalRange(r);
      r := DayAfterWeekend(r);
    }
    FirstWorkdayMeaning(d);
    FirstWorkdayGap(d);
  }

  /**
   * One half's submission window, as the day counts of its first and last
   * days: it opens on a given day and closes the grace period after the
   * first workday on or after that day, both ends included.
   */
  datatype Window = Window(openDay: int, closeDay: int)

  predicate InWindow(w: Window, today: ValidDate) {
    w.openDay <= Ordinal(today) <= w.closeDay
  }

  /** The window opening on `open`; adding the grace days raises past either end of the calendar. */
  function HalfWindow(open: ValidDate, grace: int): Result<Window, DateError> {
    var close := Ordinal(open) + WeekendGap(Weekday(open)) + grace;
    if 1 <= close <= MaxOrdinal then Ok(Window(Ordinal(open), close)) else Err(DateOutOfRange)
  }

  /** The first day of the month after (`year`, `month`): 1 January of the next year after December. */
  function NextMonthStart(year: int, month: int): Result<ValidDate, DateError> {
    if month == 12 then MakeDate(year + 1, 1, 1) else MakeDate(year, month + 1, 1)
  }

  datatype MonthWindows = MonthWindows(first: Window, second: Window)

  /**
   * The windows of month (`year`, `month`): the first half opens on the
   * 15th, the second half on the first of the next month.
   */
  function WindowsOf(year: int, month: int, grace: int): Result<MonthWindows, DateError> {
    match MakeDate(year, month, 15)
    case Err(e) => Err(e)
    case Ok(mid) =>
      match HalfWindow(mid, grace)
      case Err(e) => Err(e)
      case Ok(first) =>
        match NextMonthStart(year, month)
        case Err(e) => Err(e)
        case Ok(start) =>
          match HalfWindow(start, grace)
          case Err(e) => Err(e)
          case Ok(second) => Ok(MonthWindows(first, second))
  }

  /**
   * `_open_halves_for_today`: the halves of (`year`, `month`) whose window
   * holds `today`.  A month outside 1..12, or a year outside the calendar,
   * raises.
   */
  function OpenHalves(year: int, month: int, today: ValidDate, grace: int): (r: Result<set<HalfKey>, DateError>)
    ensures !(1 <= month <= 12) ==> r.Err?
  {
    match WindowsOf(year, month, grace)
    case Err(e) => Err(e)
    case Ok(w) =>
      Ok((if InWindow(w.first, today) then {FirstHalf} else {}) + (if InWindow(w.second, today) then {SecondHalf} else {}))
  }

  /**
   * The first half of a month is open from its 15th to the grace period
   * after the first workday on or after the 15th; the second half from the
   * first of the next month to the grace period after the first workday on
   * or after it; both ends included.
   */
  lemma OpenHalvesMeaning(year: int, month: int, today: ValidDate, grace: int)
    requires OpenHalves(year, month, today, grace).Ok?
    ensures Exists(Date(year, month, 15)) && NextMonthStart(year, month).Ok?
    ensures FirstHalf in OpenHalves(year, month, today, grace).value <==>
      Ordinal(Date(year, month, 15)) <= Ordinal(today) <= Ordinal(FirstWorkday(Date(year, month, 15))) + grace
    ensures var start := NextMonthStart(year, month).value;
      SecondHalf in OpenHalves(year, month, today, grace).value <==>
        Ordinal(start) <= Ordinal(today) <= Ordinal(FirstWorkday(start)) + grace
  {
    FirstWorkdayGap(Date(year, month, 15));
    FirstWorkdayGap(NextMonthStart(year, month).value);
  }

  /**
   * The (year, month) `delta` months away from the month of `today`, the
   * year rolling over at either end: its month is in 1..12 and its month
   * count is `delta` away from that of `today`.
   */
  function Probe(today: Date, delta: int): (p: (int, int))
    ensures 1 <= p.1 <= 12
    ensures p.0 * 12 + p.1 == today.year * 12 + today.month + delta
  {
    (today.year + (today.month - 1 + delta) / 12, (today.month - 1 + delta) % 12 + 1)
  }

  /** Whether `today` falls in either window of (`year`, `month`), or the error computing them raises. */
  function MonthOpen(year: int, month: int, today: ValidDate, grace: int): Result<bool, DateError> {
    match WindowsOf(year, month, grace)
    case Err(e) => Err(e)
    case Ok(w) => Ok(InWindow(w.first, today) || InWindow(w.second, today))
  }

  /** The months the probe loop visits, by offset from the month of `today`. */
  function Probes(today: ValidDate): int -> (int, int) {
    delta => Probe(today, delta)
  }

  /** Whether the month at each offset has a window holding `today`. */
  function ProbesOpen(today: ValidDate, grace: int): int -> Result<bool, DateError> {
    delta => MonthOpen(Probe(today, delta).0, Probe(today, delta).1, today, grace)
  }

  /**
   * The probe loop up to and including offset `last`: each probed month is
   * kept when it is open, and the first month whose windows cannot be
   * computed ends the loop with its error.
   */
  function Collect(probe: int -> (int, int), open: int -> Result<bool, DateError>, last: int)
    : Result<set<(int, int)>, DateError>
    decreases last + 2
  {
    if last < -1 then Ok({})
    else
      match Collect(probe, open, last - 1)
      case Err(e) => Err(e)
      case Ok(valid) =>
        match open(last)
        case Err(e) => Err(e)
        case Ok(isOpen) => Ok(if isOpen then valid + {probe(last)} else valid)
  }

  /**
   * What `_submission_windows_for_today` returns: the months among last
   * month, this month and next month with a window holding `today`; an
   * error when any of the three months' windows cannot be computed.
   */
  function SubmissionWindowsOf(today: ValidDate, grace: int): Result<set<(int, int)>, DateError> {
    Collect(Probes(today), ProbesOpen(today, grace), 1)
  }

  /**
   * `_submission_windows_for_today`: for last month, this month and next
   * month, compute both windows and keep the month if `today` falls in
   * either.
   */
  method SubmissionWindows(today: ValidDate, grace: int) returns (r: Result<set<(int, int)>, DateError>)
    ensures r == SubmissionWindowsOf(today, grace)
  {
    var valid: set<(int, int)> := {};
    for delta := -1 to 2
      invariant Collect(Probes(today), ProbesOpen(today, grace), delta - 1) == Ok(valid)
    {
      var probe := Probe(today, delta);
      var open := ProbeWindows(probe.0, probe.1, today, grace);
      assert open == ProbesOpen(today, grace)(delta);
      CollectStep(Probes(today), ProbesOpen(today, grace), delta, valid);
      if open.Err? {
        CollectErrorStays(Probes(today), ProbesOpen(today, grace), delta, 1);
        return Err(open.error);
      }
      if open.value {
        valid := valid + {probe};
      }
    }
    r := Ok(valid);
  }

  /** Once a probe fails, the loop's outcome is that error. */
  lemma {:induction false} CollectErrorStays(probe: int -> (int, int), open: int -> Result<bool, DateError>, last: int,
                                             end: int)
    requires Collect(probe, open, last).Err? && last <= end
    ensures Collect(probe, open, end) == Collect(probe, open, last)
    decreases end - last
  {
    if last < end {
      CollectErrorStays(probe, open, last, end - 1);
    }
  }

  /** One more probe: an error ends the loop with that error, an open month is added. */
  lemma CollectStep(probe: int -> (int, int), open: int -> Result<bool, DateError>, last: int, valid: set<(int, int)>)
    requires last >= -1 && Collect(probe, open, last - 1) == Ok(valid)
    ensures open(last).Err? ==> Collect(probe, open, last) == Err(open(last).error)
    ensures open(last).Ok? ==>
      Collect(probe, open, last) == Ok(if open(last).value then valid + {probe(last)} else valid)
  {
  }

  /** The body of the probe loop: whether `today` falls in either window of (`year`, `month`). */
  method ProbeWindows(year: int, month: int, today: ValidDate, grace: int) returns (r: Result<bool, DateError>)
    ensures r == MonthOpen(year, month, today, grace)
  {
    var mid := MakeDate(year, month, 15);
    if mid.Err? {
      return Err(mid.error);
    }
    var first := ComputeHalfWindow(mid.value, grace);
    if first.Err? {
      return Err(first.error);
    }
    var nextStart := NextMonthStart(year, month);
    if nextStart.Err? {
      return Err(nextStart.error);
    }
    var second := ComputeHalfWindow(nextStart.value, grace);
    if second.Err? {
      return Err(second.error);
    }
    r := Ok(InWindow(first.value, today) || InWindow(second.value, today));
  }

  /** `_open_halves_for_today`: both windows of (`year`, `month`), then the halves whose window holds `today`. */
  method OpenHalvesForToday(year: int, month: int, today: ValidDate, grace: int)
    returns (r: Result<set<HalfKey>, DateError>)
    ensures r == OpenHalves(year, month, today, grace)
  {
    var mid := MakeDate(year, month, 15);
    if mid.Err? {
      return Err(mid.error);
    }
    var first := ComputeHalfWindow(mid.value, grace);
    if first.Err? {
      return Err(first.error);
    }
    var nextStart := NextMonthStart(year, month);
    if nextStart.Err? {
      return Err(nextStart.error);
    }
    var second := ComputeHalfWindow(nextStart.value, grace);
    if second.Err? {
      return Err(second.error);
    }
    assert WindowsOf(year, month, grace) == Ok(MonthWindows(first.value, second.value));
    var halves: set<HalfKey> := {};
    if InWindow(first.value, today) {
      halves := halves + {FirstHalf};
    }
    if InWindow(second.value, today) {
      halves := halves + {SecondHalf};
    }
    assert halves == (if InWindow(first.value, today) then {FirstHalf} else {})
                     + (if InWindow(second.value, today) then {SecondHalf} else {});
    r := Ok(halves);
  }

  /** One half's window as the loop computes it: the due day, then the grace days after it. */
  method ComputeHalfWindow(open: ValidDate, grace: int) returns (r: Result<Window, DateError>)
    ensures r == HalfWindow(open, grace)
  {
    var due := FirstWorkdayOnOrAfter(open);
    var close := Ordinal(due) + grace;
    if !(1 <= close <= MaxOrdinal) {
      return Err(DateOutOfRange);
    }
    r := Ok(Window(Ordinal(open), close));
  }

  /**
   * After the probes up to `last`, a month is kept exactly when it is one
   * of those probes and is open, and every probe up to `last` succeeded.
   */
  lemma {:induction false} CollectMembers(probe: int -> (int, int), open: int -> Result<bool, DateError>, last: int,
                                          ym: (int, int))
    requires Collect(probe, open, last).Ok?
    ensures forall d :: -1 <= d <= last ==> open(d).Ok?
    ensures ym in Collect(probe, open, last).value <==> exists d :: -1 <= d <= last && ym == probe(d) && open(d) == Ok(true)
    decreases last + 2
  {
    if last >= -1 {
      CollectMembers(probe, open, last - 1, ym);
    }
  }

  /**
   * The two window computations agree: a probed month is among the
   * submission windows exactly when it has an open half, and nothing else
   * is among them.
   */
  lemma WindowsMatchOpenHalves(today: ValidDate, grace: int, ym: (int, int))
    requires SubmissionWindowsOf(today, grace).Ok?
    ensures (exists delta :: -1 <= delta <= 1 && ym == Probe(today, delta)) ==> OpenHalves(ym.0, ym.1, today, grace).Ok?
    ensures ym in SubmissionWindowsOf(today, grace).value <==>
      (exists delta :: -1 <= delta <= 1 && ym == Probe(today, delta)) && OpenHalves(ym.0, ym.1, today, grace).value != {}
  {
    CollectMembers(Probes(today), ProbesOpen(today, grace), 1, ym);
    if exists delta :: -1 <= delta <= 1 && ym == Probe(today, delta) {
      var delta :| -1 <= delta <= 1 && ym == Probe(today, delta);
      assert ProbesOpen(today, grace)(delta) == MonthOpen(ym.0, ym.1, today, grace);
      OpenHalvesAgree(ym.0, ym.1, today, grace);
    }
  }

  /** A month has an open half exactly when `today` falls in one of its windows. */
  lemma OpenHalvesAgree(year: int, month: int, today: ValidDate, grace: int)
    ensures OpenHalves(year, month, today, grace).Ok? <==> MonthOpen(year, month, today, grace).Ok?
    ensures OpenHalves(year, month, today, grace).Ok? ==>
      (OpenHalves(year, month, today, grace).value != {} <==> MonthOpen(year, month, today, grace).value)
  {
  }
}
