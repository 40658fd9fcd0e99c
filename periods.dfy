/**
 * Half-month timesheet periods and monthly expense months: their lock
 * state, whether a day falls in them or after their due date, the half a
 * day belongs to, and the start, end, due and reminder dates `ensure_month`
 * computes for a month.  Dates compare by their day count, which orders them
 * as Python does (`Calendar.OrdinalMonotone`).
 */
module Periods {
  import opened Wrappers
  import opened Calendar
  import opened Cells
  import opened Review

  /** `TimesheetPeriod.Half`: FIRST is the 1st to the 15th, SECOND the 16th to the end. */
  datatype Half = First | Second

  /** The four dates of a period row. */
  datatype PeriodDates = PeriodDates(start: ValidDate, end: ValidDate, due: ValidDate, reminder: ValidDate)

  /** `start_date <= today <= end_date`. */
  predicate Within(start: ValidDate, end: ValidDate, today: ValidDate) {
    Ordinal(start) <= Ordinal(today) <= Ordinal(end)
  }

  /** `today > due_date`. */
  predicate PastDue(due: ValidDate, today: ValidDate) {
    Ordinal(today) > Ordinal(due)
  }

  /** `get_current_period`: FIRST exactly when the day of the month is at most 15. */
  function CurrentHalf(today: ValidDate): (h: Half)
    ensures h == First <==> today.day <= 15
  {
    if today.day <= 15 then First else Second
  }

  /** `max(a, b)`. */
  function Max(a: int, b: int): int {
    if a < b then b else a
  }

  /** The shape every half-month row the period code writes has: its half of its month. */
  predicate HalfRow(key: (int, int, Half), d: PeriodDates) {
    1 <= key.1 <= 12
    && d.start == Date(key.0, key.1, if key.2 == First then 1 else 16)
    && d.end == Date(key.0, key.1, if key.2 == First then 15 else DaysInMonth(key.0, key.1))
  }

  /** The shape every expense-month row the period code writes has: the whole month. */
  predicate MonthRow(key: (int, int), d: PeriodDates) {
    1 <= key.1 <= 12 && d.start == Date(key.0, key.1, 1) && d.end == Date(key.0, key.1, DaysInMonth(key.0, key.1))
  }

  /** `date(year, month + 1, day)`, or `date(year + 1, 1, day)` for December. */
  function NextMonthDate(year: int, month: int, day: int): Result<ValidDate, DateError> {
    if month == 12 then MakeDate(year + 1, 1, day) else MakeDate(year, month + 1, day)
  }

  /** A day of the next month lies that many days after the last day of this month. */
  lemma NextMonthOrdinal(year: int, month: int, day: int)
    requires 1 <= month <= 12 && Exists(Date(year, month, 1))
    requires NextMonthDate(year, month, day).Ok?
    ensures Ordinal(NextMonthDate(year, month, day).value)
            == Ordinal(Date(year, month, DaysInMonth(year, month))) + day
  {
    var last := Date(year, month, DaysInMonth(year, month));
    var next := NextDay(last);
    assert next.Some?;
    assert next.value.day == 1 && next.value.year == NextMonthDate(year, month, day).value.year
           && next.value.month == NextMonthDate(year, month, day).value.month;
  }

  /**
   * The first-half dates of `ensure_month` as the code computes them: the
   * due date is built with `date(year, month, 15 + due_offset)` before the
   * month-end test, so the rollover branch can never fire and an offset
   * past the end of the month raises instead.  `monthrange` raises for a
   * month outside 1..12.
   */
  function FirstHalfDatesAsWritten(year: int, month: int, dueOffset: int, reminderOffset: int)
    : Result<PeriodDates, DateError>
  {
    if !(1 <= month <= 12) then Err(DateOutOfRange)
    else
      var last := DaysInMonth(year, month);
      match MakeDate(year, month, 1)
      case Err(e) => Err(e)
      case Ok(start) =>
        match MakeDate(year, month, 15)
        case Err(e) => Err(e)
        case Ok(end) =>
          match MakeDate(year, month, 15 + dueOffset)
          case Err(e) => Err(e)
          case Ok(due) =>
            match MakeDate(year, month, 15 + dueOffset - reminderOffset)
            case Err(e) => Err(e)
            case Ok(reminder) =>
              var rolled := if due.day > last then NextMonthDate(year, month, due.day - last) else Ok(due);
              match rolled
              case Err(e) => Err(e)
              case Ok(due2) => Ok(PeriodDates(start, end, due2, reminder))
  }

  /**
   * The first-half dates as the rollover code intends them: the due date is
   * `due_offset` days after the 15th, rolling into the next month when that
   * passes the month end; the reminder is still built in this month.
   */
  function FirstHalfDates(year: int, month: int, dueOffset: int, reminderOffset: int)
    : (r: Result<PeriodDates, DateError>)
    ensures r.Ok? ==> HalfRow((year, month, First), r.value)
  {
    if !(1 <= month <= 12) then Err(DateOutOfRange)
    else
      var last := DaysInMonth(year, month);
      match MakeDate(year, month, 1)
      case Err(e) => Err(e)
      case Ok(start) =>
        match MakeDate(year, month, 15)
        case Err(e) => Err(e)
        case Ok(end) =>
          var due := if 15 + dueOffset > last then NextMonthDate(year, month, 15 + dueOffset - last)
                     else MakeDate(year, month, 15 + dueOffset);
          match due
          case Err(e) => Err(e)
          case Ok(due) =>
            match MakeDate(year, month, 15 + dueOffset - reminderOffset)
            case Err(e) => Err(e)
            case Ok(reminder) => Ok(PeriodDates(start, end, due, reminder))
  }

  /** The second-half dates of `ensure_month`: the 16th to the last day, due and reminder in the next month. */
  function SecondHalfDates(year: int, month: int, dueOffset: int, reminderOffset: int)
    : (r: Result<PeriodDates, DateError>)
    ensures r.Ok? ==> HalfRow((year, month, Second), r.value)
  {
    if !(1 <= month <= 12) then Err(DateOutOfRange)
    else
      match MakeDate(year, month, 16)
      case Err(e) => Err(e)
      case Ok(start) =>
        match MakeDate(year, month, DaysInMonth(year, month))
        case Err(e) => Err(e)
        case Ok(end) =>
          match NextMonthDate(year, month, dueOffset)
          case Err(e) => Err(e)
          case Ok(due) =>
            match NextMonthDate(year, month, Max(1, dueOffset - reminderOffset))
            case Err(e) => Err(e)
            case Ok(reminder) => Ok(PeriodDates(start, end, due, reminder))
  }

  /** `ExpenseMonth.ensure_month`: the whole month, due `due_offset + 2` and reminded `max(1, due_offset)` into the next. */
  function ExpenseMonthDates(year: int, month: int, dueOffset: int): (r: Result<PeriodDates, DateError>)
    ensures r.Ok? ==> MonthRow((year, month), r.value)
  {
    if !(1 <= month <= 12) then Err(DateOutOfRange)
    else
      match MakeDate(year, month, 1)
      case Err(e) => Err(e)
      case Ok(start) =>
        match MakeDate(year, month, DaysInMonth(year, month))
        case Err(e) => Err(e)
        case Ok(end) =>
          match NextMonthDate(year, month, dueOffset + 2)
          case Err(e) => Err(e)
          case Ok(due) =>
            match NextMonthDate(year, month, Max(1, dueOffset))
            case Err(e) => Err(e)
            case Ok(reminder) => Ok(PeriodDates(start, end, due, reminder))
  }

  /**
   * As written, a successful first half always has its due date in the
   * same month, 15 + `due_offset`: the rollover never happens.  With a
   * 14-day offset in February 2025 the code raises where the rollover meant
   * 1 March.
   */
  lemma FirstDueNeverRolls(year: int, month: int, dueOffset: int, reminderOffset: int)
    ensures FirstHalfDatesAsWritten(year, month, dueOffset, reminderOffset).Ok? ==>
      FirstHalfDatesAsWritten(year, month, dueOffset, reminderOffset).value.due == Date(year, month, 15 + dueOffset)
    ensures FirstHalfDatesAsWritten(2025, 2, 14, 2).Err?
    ensures FirstHalfDates(2025, 2, 14, 2).Ok? && FirstHalfDates(2025, 2, 14, 2).value.due == Date(2025, 3, 1)
  {
    assert DaysInMonth(2025, 2) == 28;
    assert Exists(Date(2025, 3, 1));
  }

  /** Wherever the code does not raise, the intended dates are the ones it computes. */
  lemma FirstHalfCorrectionAgrees(year: int, month: int, dueOffset: int, reminderOffset: int)
    requires FirstHalfDatesAsWritten(year, month, dueOffset, reminderOffset).Ok?
    ensures FirstHalfDates(year, month, dueOffset, reminderOffset) ==
            FirstHalfDatesAsWritten(year, month, dueOffset, reminderOffset)
  {
  }

  /**
   * The first half runs from the 1st to the 15th, is due `due_offset` days
   * after its end (in the next month when that passes the month end), and
   * is reminded on day 15 + `due_offset` - `reminder_offset`.
   */
  lemma FirstHalfShape(year: int, month: int, dueOffset: int, reminderOffset: int)
    requires FirstHalfDates(year, month, dueOffset, reminderOffset).Ok?
    ensures var d := FirstHalfDates(year, month, dueOffset, reminderOffset).value;
      && d.start == Date(year, month, 1) && d.end == Date(year, month, 15)
      && Ordinal(d.due) == Ordinal(d.end) + dueOffset
      && d.reminder == Date(year, month, 15 + dueOffset - reminderOffset)
  {
    var last := DaysInMonth(year, month);
    if 15 + dueOffset > last {
      NextMonthOrdinal(year, month, 15 + dueOffset - last);
    }
  }

  /**
   * The second half runs from the 16th to the last day of the month; its
   * due date is `due_offset` days after its end and its reminder
   * `max(1, due_offset - reminder_offset)` days after it.
   */
  lemma SecondHalfShape(year: int, month: int, dueOffset: int, reminderOffset: int)
    requires SecondHalfDates(year, month, dueOffset, reminderOffset).Ok?
    ensures var d := SecondHalfDates(year, month, dueOffset, reminderOffset).value;
      && 1 <= month <= 12
      && d.start == Date(year, month, 16) && d.end == Date(year, month, DaysInMonth(year, month))
      && Ordinal(d.due) == Ordinal(d.end) + dueOffset
      && Ordinal(d.reminder) == Ordinal(d.end) + Max(1, dueOffset - reminderOffset)
  {
    NextMonthOrdinal(year, month, dueOffset);
    NextMonthOrdinal(year, month, Max(1, dueOffset - reminderOffset));
  }

  /** The expense month is the whole month, due `due_offset + 2` days after it and reminded `max(1, due_offset)` days after it. */
  lemma ExpenseMonthShape(year: int, month: int, dueOffset: int)
    requires ExpenseMonthDates(year, month, dueOffset).Ok?
    ensures var d := ExpenseMonthDates(year, month, dueOffset).value;
      && 1 <= month <= 12
      && d.start == Date(year, month, 1) && d.end == Date(year, month, DaysInMonth(year, month))
      && Ordinal(d.due) == Ordinal(d.end) + dueOffset + 2
      && Ordinal(d.reminder) == Ordinal(d.end) + Max(1, dueOffset)
  {
    NextMonthOrdinal(year, month, dueOffset + 2);
    NextMonthOrdinal(year, month, Max(1, dueOffset));
  }

  /** The two halves tile the expense month: same first day, consecutive at the 15th/16th, same last day. */
  lemma HalvesTileMonth(year: int, month: int, dueOffset: int, reminderOffset: int)
    requires FirstHalfDates(year, month, dueOffset, reminderOffset).Ok?
    requires SecondHalfDates(year, month, dueOffset, reminderOffset).Ok?
    requires ExpenseMonthDates(year, month, dueOffset).Ok?
    ensures var f, s, e := FirstHalfDates(year, month, dueOffset, reminderOffset).value,
                           SecondHalfDates(year, month, dueOffset, reminderOffset).value,
                           ExpenseMonthDates(year, month, dueOffset).value;
      f.start == e.start && Ordinal(s.start) == Ordinal(f.end) + 1 && s.end == e.end
  {
    FirstHalfShape(year, month, dueOffset, reminderOffset);
    SecondHalfShape(year, month, dueOffset, reminderOffset);
    ExpenseMonthShape(year, month, dueOffset);
  }

  /** `TimesheetPeriod`: one half of a month, with its dates and lock state. */
  class TimesheetPeriod {
    const year: int
    const month: int
    const half: Half
    var startDate: ValidDate
    var endDate: ValidDate
    var dueDate: ValidDate
    var reminderDate: Option<ValidDate>
    var isLocked: bool
    var lockedAt: Option<Instant>
    var lockedBy: Option<UserId>

    /** A new, unlocked period with the given dates. */
    constructor (year: int, month: int, half: Half, dates: PeriodDates)
      ensures this.year == year && this.month == month && this.half == half
      ensures startDate == dates.start && endDate == dates.end && dueDate == dates.due
      ensures reminderDate == Some(dates.reminder)
      ensures !isLocked && lockedAt.None? && lockedBy.None?
    {
      this.year, this.month, this.half := year, month, half;
      startDate, endDate, dueDate, reminderDate := dates.start, dates.end, dates.due, Some(dates.reminder);
      isLocked, lockedAt, lockedBy := false, None, None;
    }

    /** `is_past_due`. */
    predicate IsPastDue(today: ValidDate)
      reads this
    {
      PastDue(dueDate, today)
    }

    /** `is_current`. */
    predicate IsCurrent(today: ValidDate)
      reads this
    {
      Within(startDate, endDate, today)
    }

    /** `lock`: sets the flag, the time and the user, and nothing else. */
    method Lock(now: Instant, user: Option<UserId>)
      modifies this
      ensures isLocked && lockedAt == Some(now) && lockedBy == user
      ensures startDate == old(startDate) && endDate == old(endDate)
      ensures dueDate == old(dueDate) && reminderDate == old(reminderDate)
    {
      isLocked := true;
      lockedAt := Some(now);
      lockedBy := user;
    }

    /** `unlock`: clears all three lock fields, and nothing else. */
    method Unlock()
      modifies this
      ensures !isLocked && lockedAt.None? && lockedBy.None?
      ensures startDate == old(startDate) && endDate == old(endDate)
      ensures dueDate == old(dueDate) && reminderDate == old(reminderDate)
    {
      isLocked := false;
      lockedAt := None;
      lockedBy := None;
    }
  }

  /** `ExpenseMonth`: one month of expense reporting, with its dates and lock state. */
  class ExpenseMonth {
    const year: int
    const month: int
    var startDate: ValidDate
    var endDate: ValidDate
    var dueDate: ValidDate
    var reminderDate: Option<ValidDate>
    var isLocked: bool
    var lockedAt: Option<Instant>
    var lockedBy: Option<UserId>

    /** A new, unlocked month with the given dates. */
    constructor (year: int, month: int, dates: PeriodDates)
      ensures this.year == year && this.month == month
      ensures startDate == dates.start && endDate == dates.end && dueDate == dates.due
      ensures reminderDate == Some(dates.reminder)
      ensures !isLocked && lockedAt.None? && lockedBy.None?
    {
      this.year, this.month := year, month;
      startDate, endDate, dueDate, reminderDate := dates.start, dates.end, dates.due, Some(dates.reminder);
      isLocked, lockedAt, lockedBy := false, None, None;
    }

    /** `is_past_due`. */
    predicate IsPastDue(today: ValidDate)
      reads this
    {
      PastDue(dueDate, today)
    }

    /** `is_current`. */
    predicate IsCurrent(today: ValidDate)
      reads this
    {
      Within(startDate, endDate, today)
    }

    /** `lock`: sets the flag, the time and the user, and nothing else. */
    method Lock(now: Instant, user: Option<UserId>)
      modifies this
      ensures isLocked && lockedAt == Some(now) && lockedBy == user
      ensures startDate == old(startDate) && endDate == old(endDate)
      ensures dueDate == old(dueDate) && reminderDate == old(reminderDate)
    {
      isLocked := true;
      lockedAt := Some(now);
      lockedBy := user;
    }

    /** `unlock`: clears all three lock fields, and nothing else. */
    method Unlock()
      modifies this
      ensures !isLocked && lockedAt.None? && lockedBy.None?
      ensures startDate == old(startDate) && endDate == old(endDate)
      ensures dueDate == old(dueDate) && reminderDate == old(reminderDate)
    {
      isLocked := false;
      lockedAt := None;
      lockedBy := None;
    }
  }

  /**
   * The period tables: the dates of each (year, month, half) and of each
   * (year, month).  Lock state is kept on the period objects and is not
   * touched by the code that fills these tables.
   */
  class PeriodStore {
    var halves: map<(int, int, Half), PeriodDates>
    var months: map<(int, int), PeriodDates>

    ghost predicate Valid()
      reads this
    {
      (forall key :: key in halves ==> HalfRow(key, halves[key]))
      && (forall key :: key in months ==> MonthRow(key, months[key]))
    }

    constructor ()
      ensures halves == map[] && months == map[] && Valid()
    {
      halves, months := map[], map[];
    }

    /**
     * `get_or_create` of one half-month row: an existing row is left as it
     * is, a missing one gets `dates`.
     */
    method GetOrCreateHalf(key: (int, int, Half), dates: PeriodDates)
      requires Valid() && HalfRow(key, dates)
      modifies this
      ensures Valid()
      ensures halves == if key in old(halves) then old(halves) else old(halves)[key := dates]
      ensures key in halves && halves.Keys == old(halves).Keys + {key}
      ensures forall k :: k in old(halves) ==> halves[k] == old(halves)[k]
      ensures months == old(months)
    {
      if key !in halves {
        halves := halves[key := dates];
      }
    }

    /** `get_or_create` of one expense-month row. */
    method GetOrCreateMonth(key: (int, int), dates: PeriodDates)
      requires Valid() && MonthRow(key, dates)
      modifies this
      ensures Valid()
      ensures months == if key in old(months) then old(months) else old(months)[key := dates]
      ensures key in months && months.Keys == old(months).Keys + {key}
      ensures forall k :: k in old(months) ==> months[k] == old(months)[k]
      ensures halves == old(halves)
    {
      if key !in months {
        months := months[key := dates];
      }
    }

    /**
     * `TimesheetPeriod.ensure_month`: creates whichever of the two halves
     * and the expense month are missing and leaves existing rows untouched.
     * A date that cannot be built raises, after the rows before it were
     * written.  The first half's dates are the ones the code computes
     * (`FirstHalfDatesAsWritten`), so an offset that carries the due date
     * past the month end raises before anything is written.
     */
    method EnsureMonth(year: int, month: int, dueOffset: int, reminderOffset: int)
      returns (r: Result<(), DateError>)
      requires Valid()
      modifies this
      ensures Valid()
      ensures forall key :: key in old(halves) ==> key in halves && halves[key] == old(halves)[key]
      ensures forall key :: key in old(months) ==> key in months && months[key] == old(months)[key]
      ensures var first := FirstHalfDatesAsWritten(year, month, dueOffset, reminderOffset);
        var second := SecondHalfDates(year, month, dueOffset, reminderOffset);
        var expense := ExpenseMonthDates(year, month, dueOffset);
        && (r.Ok? <==> first.Ok? && second.Ok? && expense.Ok?)
        && halves.Keys == old(halves).Keys + (if first.Ok? then {(year, month, First)} else {})
                          + (if first.Ok? && second.Ok? then {(year, month, Second)} else {})
        && months.Keys == old(months).Keys + (if first.Ok? && second.Ok? && expense.Ok? then {(year, month)} else {})
        && (first.Ok? && (year, month, First) !in old(halves) ==> halves[(year, month, First)] == first.value)
        && (first.Ok? && second.Ok? && (year, month, Second) !in old(halves) ==>
              halves[(year, month, Second)] == second.value)
        && (first.Ok? && second.Ok? && expense.Ok? && (year, month) !in old(months) ==>
              months[(year, month)] == expense.value)
    {
      var first := FirstHalfDatesAsWritten(year, month, dueOffset, reminderOffset);
      if first.Err? {
        return Err(first.error);
      }
      FirstHalfCorrectionAgrees(year, month, dueOffset, reminderOffset);
      GetOrCreateHalf((year, month, First), first.value);
      var second := SecondHalfDates(year, month, dueOffset, reminderOffset);
      if second.Err? {
        return Err(second.error);
      }
      GetOrCreateHalf((year, month, Second), second.value);
      var expense := ExpenseMonthDates(year, month, dueOffset);
      if expense.Err? {
        return Err(expense.error);
      }
      GetOrCreateMonth((year, month), expense.value);
      r := Ok(());
    }

    /**
     * `get_current_period`: ensures the month of `today` with the default
     * offsets, then returns the row of today's half, which holds today.
     * It fails exactly when `ensure_month` does, with the rows that call
     * wrote before raising.
     */
    method GetCurrentPeriod(today: ValidDate) returns (r: Result<PeriodDates, DateError>)
      requires Valid()
      modifies this
      ensures Valid()
      ensures forall key :: key in old(halves) ==> key in halves && halves[key] == old(halves)[key]
      ensures forall key :: key in old(months) ==> key in months && months[key] == old(months)[key]
      ensures var year, month := today.year, today.month;
        var first := FirstHalfDatesAsWritten(year, month, 3, 2);
        var second := SecondHalfDates(year, month, 3, 2);
        var expense := ExpenseMonthDates(year, month, 3);
        && (r.Ok? <==> first.Ok? && second.Ok? && expense.Ok?)
        && halves.Keys == old(halves).Keys + (if first.Ok? then {(year, month, First)} else {})
                          + (if first.Ok? && second.Ok? then {(year, month, Second)} else {})
        && months.Keys == old(months).Keys + (if first.Ok? && second.Ok? && expense.Ok? then {(year, month)} else {})
        && (first.Ok? && (year, month, First) !in old(halves) ==> halves[(year, month, First)] == first.value)
        && (first.Ok? && second.Ok? && (year, month, Second) !in old(halves) ==>
              halves[(year, month, Second)] == second.value)
        && (first.Ok? && second.Ok? && expense.Ok? && (year, month) !in old(months) ==>
              months[(year, month)] == expense.value)
      ensures r.Ok? ==> (today.year, today.month, CurrentHalf(today)) in halves
                        && r.value == halves[(today.year, today.month, CurrentHalf(today))]
                        && Within(r.value.start, r.value.end, today)
    {
      var ensured := EnsureMonth(today.year, today.month, 3, 2);
      if ensured.Err? {
        return Err(ensured.error);
      }
      var key := (today.year, today.month, CurrentHalf(today));
      r := Ok(halves[key]);
      WithinRow(key, r.value, today);
    }
  }

  /** Any half-month row of today's month and half holds today. */
  lemma WithinRow(key: (int, int, Half), d: PeriodDates, today: ValidDate)
    requires HalfRow(key, d) && key == (today.year, today.month, CurrentHalf(today))
    ensures Within(d.start, d.end, today)
  {
    if d.start != today {
      OrdinalMonotone(d.start, today);
    }
    if today != d.end {
      OrdinalMonotone(today, d.end);
    }
  }
}
