/**
 * The `create_periods` management command: for one year and month it
 * writes both half-month periods and the expense month with the same
 * dates `ensure_month` computes, but with `update_or_create`, so existing
 * rows get their dates overwritten.  Console output is left out; the
 * outcome says which message the command ends with.
 */
module CreatePeriods {
  import opened Wrappers
  import opened Cells
  import opened Periods

  /** How the command ends: the success message, the month error, or a raised `ValueError`. */
  datatype Outcome = Processed | BadMonth | Raised(error: DateError)

  /** `update_or_create` of one half-month row: the row gets `dates` whether or not it existed. */
  method UpdateOrCreateHalf(store: PeriodStore, key: (int, int, Half), dates: PeriodDates)
    requires store.Valid() && HalfRow(key, dates)
    modifies store
    ensures store.Valid()
    ensures store.halves == old(store.halves)[key := dates] && store.months == old(store.months)
  {
    store.halves := store.halves[key := dates];
  }

  /** `update_or_create` of one expense-month row. */
  method UpdateOrCreateMonth(store: PeriodStore, key: (int, int), dates: PeriodDates)
    requires store.Valid() && MonthRow(key, dates)
    modifies store
    ensures store.Valid()
    ensures store.months == old(store.months)[key := dates] && store.halves == old(store.halves)
  {
    store.months := store.months[key := dates];
  }

  /**
   * `Command.handle`: a month outside 1..12 writes nothing; otherwise the
   * first half, the second half and the expense month are written in turn,
   * each overwriting an existing row, until a date cannot be built.  The
   * first half's dates are the ones the code computes
   * (`FirstHalfDatesAsWritten`).
   */
  method Handle(store: PeriodStore, year: int, month: int, dueOffset: int, reminderOffset: int)
    returns (outcome: Outcome)
    requires store.Valid()
    modifies store
    ensures store.Valid()
    ensures !(1 <= month <= 12) ==> outcome == BadMonth
    ensures outcome == BadMonth ==> store.halves == old(store.halves) && store.months == old(store.months)
    ensures var first := FirstHalfDatesAsWritten(year, month, dueOffset, reminderOffset);
      1 <= month <= 12 && first.Err? ==>
        outcome == Raised(first.error) && store.halves == old(store.halves) && store.months == old(store.months)
    ensures var first := FirstHalfDatesAsWritten(year, month, dueOffset, reminderOffset);
      var second := SecondHalfDates(year, month, dueOffset, reminderOffset);
      first.Ok? && second.Err? ==>
        outcome == Raised(second.error)
        && store.halves == old(store.halves)[(year, month, First) := first.value]
        && store.months == old(store.months)
    ensures var first := FirstHalfDatesAsWritten(year, month, dueOffset, reminderOffset);
      var second := SecondHalfDates(year, month, dueOffset, reminderOffset);
      var expense := ExpenseMonthDates(year, month, dueOffset);
      first.Ok? && second.Ok? && expense.Err? ==>
        outcome == Raised(expense.error)
        && store.halves == old(store.halves)[(year, month, First) := first.value][(year, month, Second) := second.value]
        && store.months == old(store.months)
    ensures var first := FirstHalfDatesAsWritten(year, month, dueOffset, reminderOffset);
      var second := SecondHalfDates(year, month, dueOffset, reminderOffset);
      var expense := ExpenseMonthDates(year, month, dueOffset);
      (outcome == Processed <==> first.Ok? && second.Ok? && expense.Ok?)
      && (outcome == Processed ==>
            store.halves == old(store.halves)[(year, month, First) := first.value][(year, month, Second) := second.value]
            && store.months == old(store.months)[(year, month) := expense.value])
  {
    if !(1 <= month <= 12) {
      return BadMonth;
    }
    var first := FirstHalfDatesAsWritten(year, month, dueOffset, reminderOffset);
    if first.Err? {
      return Raised(first.error);
    }
    FirstHalfCorrectionAgrees(year, month, dueOffset, reminderOffset);
    UpdateOrCreateHalf(store, (year, month, First), first.value);
    var second := SecondHalfDates(year, month, dueOffset, reminderOffset);
    if second.Err? {
      return Raised(second.error);
    }
    UpdateOrCreateHalf(store, (year, month, Second), second.value);
    var expense := ExpenseMonthDates(year, month, dueOffset);
    if expense.Err? {
      return Raised(expense.error);
    }
    UpdateOrCreateMonth(store, (year, month), expense.value);
    outcome := Processed;
  }
}
