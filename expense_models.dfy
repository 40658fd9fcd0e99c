/**
 * The expense records: a monthly expense report with the review workflow
 * timesheets share, its expense items with their receipt rule and
 * validation, its mileage entries with the reimbursement rate, the totals
 * of the report, and the storage path of a receipt.
 */
module ExpenseModels {
  import opened Wrappers
  import opened Text
  import opened Cells
  import opened Review
  import opened Periods

  /** `ExpenseCategory`, reduced to the two validation rules it carries. */
  datatype ExpenseCategory = ExpenseCategory(name: string, requiresClient: bool, receiptRequiredThreshold: real)

  /** The category threshold a new category gets: 20.00. */
  const DefaultReceiptThreshold: real := 20.0

  /**
   * `ExpenseItem`; `receipts` counts the attached `ExpenseReceipt` rows,
   * which is all `has_receipt` reads.
   */
  datatype ExpenseItem = ExpenseItem(
    category: ExpenseCategory,
    date: ValidDate,
    amount: real,
    description: string,
    client: string,
    paperReceiptDelivered: bool,
    receipts: nat)

  /** `requires_receipt`: the amount is strictly above the category threshold. */
  predicate RequiresReceipt(item: ExpenseItem) {
    item.amount > item.category.receiptRequiredThreshold
  }

  /** `has_receipt`: at least one receipt is attached. */
  predicate HasReceipt(item: ExpenseItem) {
    item.receipts > 0
  }

  /**
   * `receipt_requirement_met`: met when no receipt is required, otherwise
   * when a receipt is attached or a paper receipt was delivered.
   */
  function ReceiptRequirementMet(item: ExpenseItem): (met: bool)
    ensures met <==> !RequiresReceipt(item) || HasReceipt(item) || item.paperReceiptDelivered
    ensures !met ==> item.amount > item.category.receiptRequiredThreshold && item.receipts == 0
  {
    if !RequiresReceipt(item) then true else HasReceipt(item) || item.paperReceiptDelivered
  }

  /** An amount exactly at the threshold never needs a receipt, whatever is attached. */
  lemma ThresholdIsExclusive(item: ExpenseItem)
    requires item.amount == item.category.receiptRequiredThreshold
    ensures ReceiptRequirementMet(item)
  {
  }

  /**
   * The rule is monotone in the threshold: an item that meets it under a
   * category meets it under any category with a higher threshold.
   */
  lemma HigherThresholdStillMet(item: ExpenseItem, threshold: real)
    requires ReceiptRequirementMet(item)
    requires threshold >= item.category.receiptRequiredThreshold
    ensures ReceiptRequirementMet(item.(category := item.category.(receiptRequiredThreshold := threshold)))
  {
  }

  /** The two fields `ExpenseItem.clean` can report. */
  datatype ItemField = DateField | ClientField

  /**
   * `ExpenseItem.clean`: the fields in error, collected together; the
   * model raises exactly when the set is non-empty.  The date must lie in
   * the report's month, and a category that requires a client needs a
   * non-empty client.
   */
  function CleanItem(item: ExpenseItem, monthStart: ValidDate, monthEnd: ValidDate): (errors: set<ItemField>)
    ensures DateField in errors <==> !Within(monthStart, monthEnd, item.date)
    ensures ClientField in errors <==> item.category.requiresClient && item.client == ""
    ensures errors <= {DateField, ClientField}
  {
    (if Within(monthStart, monthEnd, item.date) then {} else {DateField})
    + (if item.category.requiresClient && item.client == "" then {ClientField} else {})
  }

  /** Both problems of an item are reported by the same call, neither hiding the other. */
  lemma CleanReportsBoth(item: ExpenseItem, monthStart: ValidDate, monthEnd: ValidDate)
    requires !Within(monthStart, monthEnd, item.date)
    requires item.category.requiresClient && item.client == ""
    ensures CleanItem(item, monthStart, monthEnd) == {DateField, ClientField}
  {
  }

  /** The field validator on `amount`: at least 0.01. */
  predicate ValidAmount(item: ExpenseItem) {
    item.amount >= 0.01
  }

  /** `MileageEntry`; a blank rate override is `None`. */
  datatype MileageEntry = MileageEntry(date: ValidDate, miles: real, description: string, rateOverride: Option<real>)

  /** The rate used when the employee has no profile: 0.67 per mile. */
  const DefaultMileageRate: real := 0.67

  /** The field validator on `miles`: at least 0.1. */
  predicate ValidMiles(entry: MileageEntry) {
    entry.miles >= 0.1
  }

  /** `if self.rate_override:` — a Decimal is true when it is present and not zero. */
  predicate OverrideSet(entry: MileageEntry) {
    entry.rateOverride.Some? && entry.rateOverride.value != 0.0
  }

  /**
   * `MileageEntry.rate`: the override when it is truthy, else the rate of
   * the employee's profile (`profileRate`, `None` when the employee has no
   * profile and the lookup raises), else 0.67.
   */
  function Rate(entry: MileageEntry, profileRate: Option<real>): (rate: real)
    ensures OverrideSet(entry) ==> rate == entry.rateOverride.value
    ensures !OverrideSet(entry) && profileRate.Some? ==> rate == profileRate.value
    ensures !OverrideSet(entry) && profileRate.None? ==> rate == DefaultMileageRate
  {
    if OverrideSet(entry) then entry.rateOverride.value
    else if profileRate.Some? then profileRate.value
    else DefaultMileageRate
  }

  /** An override of zero is the same as no override: it falls through to the profile or default rate. */
  lemma ZeroOverrideFallsThrough(entry: MileageEntry, profileRate: Option<real>)
    requires entry.rateOverride == Some(0.0)
    ensures Rate(entry, profileRate) == Rate(entry.(rateOverride := None), profileRate)
  {
  }

  /** `total_amount`: miles times the applicable rate. */
  function MileageAmount(entry: MileageEntry, profileRate: Option<real>): real {
    entry.miles * Rate(entry, profileRate)
  }

  /**
   * A valid entry is reimbursed a positive amount whenever the override,
   * if set, and the profile rate, if any, are positive.
   */
  lemma MileageAmountPositive(entry: MileageEntry, profileRate: Option<real>)
    requires ValidMiles(entry)
    requires entry.rateOverride.Some? ==> entry.rateOverride.value >= 0.0
    requires profileRate.Some? ==> profileRate.value > 0.0
    ensures MileageAmount(entry, profileRate) > 0.0
  {
    var rate := Rate(entry, profileRate);
    assert rate > 0.0;
    assert entry.miles * rate > 0.0 * rate;
  }

  /** The sum of the item amounts. */
  function ItemsTotal(items: seq<ExpenseItem>): real
    decreases |items|
  {
    if items == [] then 0.0 else ItemsTotal(items[..|items| - 1]) + items[|items| - 1].amount
  }

  /** The sum of the mileage amounts at the given profile rate. */
  function MileageTotal(entries: seq<MileageEntry>, profileRate: Option<real>): real
    decreases |entries|
  {
    if entries == [] then 0.0
    else MileageTotal(entries[..|entries| - 1], profileRate) + MileageAmount(entries[|entries| - 1], profileRate)
  }

  /** The item total over two runs of items is the sum of their totals. */
  lemma {:induction false} ItemsTotalAppend(a: seq<ExpenseItem>, b: seq<ExpenseItem>)
    ensures ItemsTotal(a + b) == ItemsTotal(a) + ItemsTotal(b)
    decreases |b|
  {
    if b == [] {
      assert a + b == a;
    } else {
      assert (a + b)[..|a + b| - 1] == a + b[..|b| - 1];
      ItemsTotalAppend(a, b[..|b| - 1]);
    }
  }

  /** Items that pass the amount validator add up to at least one cent each. */
  lemma {:induction false} ItemsTotalAtLeast(items: seq<ExpenseItem>)
    requires forall i :: 0 <= i < |items| ==> ValidAmount(items[i])
    ensures ItemsTotal(items) >= 0.01 * |items| as real
    decreases |items|
  {
    if items != [] {
      ItemsTotalAtLeast(items[..|items| - 1]);
    }
  }

  /** Entries that are each reimbursed a positive amount add up to a non-negative total, zero only for none. */
  lemma {:induction false} MileageTotalNonNegative(entries: seq<MileageEntry>, profileRate: Option<real>)
    requires forall i :: 0 <= i < |entries| ==> MileageAmount(entries[i], profileRate) > 0.0
    ensures MileageTotal(entries, profileRate) >= 0.0
    ensures MileageTotal(entries, profileRate) == 0.0 <==> entries == []
    decreases |entries|
  {
    if entries != [] {
      MileageTotalNonNegative(entries[..|entries| - 1], profileRate);
    }
  }

  /** `ExpenseReport`: one employee's expense report for one month. */
  class ExpenseReport {
    const month: ExpenseMonth
    var status: Status
    var submittedAt: Option<Instant>
    var approvedAt: Option<Instant>
    var approvedBy: Option<UserId>
    var employeeNotes: string
    var reviewerNotes: string
    var items: seq<ExpenseItem>
    var mileageEntries: seq<MileageEntry>
    /** The mileage rate of the employee's profile, `None` when there is no profile. */
    var profileRate: Option<real>

    /** A new DRAFT report for `month`, with no items and no mileage. */
    constructor (month: ExpenseMonth, profileRate: Option<real>)
      ensures this.month == month && this.profileRate == profileRate && status == Draft
      ensures submittedAt.None? && approvedAt.None? && approvedBy.None?
      ensures employeeNotes == "" && reviewerNotes == "" && items == [] && mileageEntries == []
    {
      this.month := month;
      this.profileRate := profileRate;
      status := Draft;
      submittedAt, approvedAt, approvedBy := None, None, None;
      employeeNotes, reviewerNotes := "", "";
      items, mileageEntries := [], [];
    }

    /** `is_editable`: DRAFT or RETURNED, and the month is not locked. */
    predicate Editable()
      reads this, month
    {
      IsEditable(status, month.isLocked)
    }

    /** `total_expenses`. */
    function TotalExpenses(): real
      reads this
    {
      ItemsTotal(items)
    }

    /** `total_mileage_amount`. */
    function TotalMileageAmount(): real
      reads this
    {
      MileageTotal(mileageEntries, profileRate)
    }

    /** `grand_total`: the item total plus the mileage total. */
    function GrandTotal(): real
      reads this
    {
      TotalExpenses() + TotalMileageAmount()
    }

    /**
     * `submit`: raises unless editable; otherwise the status becomes
     * SUBMITTED and the submission time is recorded.
     */
    method Submit(now: Instant) returns (ok: bool)
      modifies this
      ensures ok <==> Transition(old(status), month.isLocked, Action.Submit).Some?
      ensures ok ==> status == Transition(old(status), month.isLocked, Action.Submit).value && submittedAt == Some(now)
      ensures !ok ==> status == old(status) && submittedAt == old(submittedAt)
      ensures approvedAt == old(approvedAt) && approvedBy == old(approvedBy)
      ensures employeeNotes == old(employeeNotes) && reviewerNotes == old(reviewerNotes)
      ensures items == old(items) && mileageEntries == old(mileageEntries) && profileRate == old(profileRate)
    {
      if !Editable() {
        return false;
      }
      status := Submitted;
      submittedAt := Some(now);
      ok := true;
    }

    /** `approve`: only a SUBMITTED report becomes APPROVED, recording the approver and the time. */
    method Approve(now: Instant, approver: Option<UserId>) returns (ok: bool)
      modifies this
      ensures ok <==> Transition(old(status), month.isLocked, Action.Approve).Some?
      ensures ok ==> status == Transition(old(status), month.isLocked, Action.Approve).value
                     && approvedAt == Some(now) && approvedBy == approver
      ensures !ok ==> status == old(status) && approvedAt == old(approvedAt) && approvedBy == old(approvedBy)
      ensures submittedAt == old(submittedAt)
      ensures employeeNotes == old(employeeNotes) && reviewerNotes == old(reviewerNotes)
      ensures items == old(items) && mileageEntries == old(mileageEntries) && profileRate == old(profileRate)
    {
      if status != Submitted {
        return false;
      }
      status := Approved;
      approvedAt := Some(now);
      approvedBy := approver;
      ok := true;
    }

    /**
     * `return_for_revision`: only a SUBMITTED report becomes RETURNED; the
     * reviewer notes are replaced only by non-empty notes.
     */
    method ReturnForRevision(notes: string) returns (ok: bool)
      modifies this
      ensures ok <==> Transition(old(status), month.isLocked, Action.ReturnForRevision).Some?
      ensures ok ==> status == Transition(old(status), month.isLocked, Action.ReturnForRevision).value
      ensures reviewerNotes == if ok && notes != "" then notes else old(reviewerNotes)
      ensures !ok ==> status == old(status)
      ensures submittedAt == old(submittedAt) && approvedAt == old(approvedAt) && approvedBy == old(approvedBy)
      ensures employeeNotes == old(employeeNotes)
      ensures items == old(items) && mileageEntries == old(mileageEntries) && profileRate == old(profileRate)
    {
      if status != Submitted {
        return false;
      }
      status := Returned;
      if notes != "" {
        reviewerNotes := notes;
      }
      ok := true;
    }
  }

  /** Adding an item raises the grand total by exactly its amount. */
  lemma GrandTotalAddItem(items: seq<ExpenseItem>, entries: seq<MileageEntry>, profileRate: Option<real>, item: ExpenseItem)
    ensures ItemsTotal(items + [item]) + MileageTotal(entries, profileRate)
         == ItemsTotal(items) + MileageTotal(entries, profileRate) + item.amount
  {
    assert (items + [item])[..|items|] == items;
  }

  /** Every character is a dot. */
  predicate AllDots(s: string)
    decreases |s|
  {
    s == [] || (s[0] == '.' && AllDots(s[1..]))
  }

  /**
   * `os.path.splitext(filename)[1]`: the extension of the final path
   * component.
   */
  function SplitExt(filename: string): (ext: string)
    ensures ext == [] || (ext[0] == '.' && '.' !in ext[1..] && '/' !in ext[1..])
  {
    NameExt(AfterLast(filename, '/'))
  }

  /**
   * The extension of a name without '/': its last dot and what follows,
   * or "" when it has no dot or only dots before its last dot.
   */
  function NameExt(name: string): (ext: string)
    ensures ext == [] || (ext[0] == '.' && '.' !in ext[1..] && (forall c :: c in ext[1..] ==> c in name))
  {
    var tail := AfterLast(name, '.');
    if |tail| == |name| || AllDots(name[..|name| - |tail| - 1]) then "" else "." + tail
  }

  /** The extension of a name ends the name. */
  lemma NameExtIsSuffix(name: string)
    ensures EndsWith(name, NameExt(name))
  {
    var tail := AfterLast(name, '.');
    if |tail| == |name| || AllDots(name[..|name| - |tail| - 1]) {
      assert name[|name|..] == [];
    } else {
      var k := |name| - |tail| - 1;
      assert name[k..] == "." + tail by {
        assert name[k..] == [name[k]] + name[k + 1..];
      }
    }
  }

  /** The extension ends the file name. */
  lemma SplitExtIsSuffix(filename: string)
    ensures EndsWith(filename, SplitExt(filename))
  {
    var base := AfterLast(filename, '/');
    var ext := NameExt(base);
    NameExtIsSuffix(base);
    assert EndsWith(filename, base);
    EndsWithTrans(filename, base, ext);
  }

  /** A leading-dot name such as ".bashrc" has no extension. */
  lemma HiddenFileHasNoExtension(name: string)
    requires '.' !in name && '/' !in name
    ensures SplitExt("." + name) == ""
  {
    assert AfterLast("." + name, '/') == "." + name;
  }

  /**
   * `receipt_upload_path`: "receipts/<year>/<month:02d>/<token><ext>",
   * where the random hex token is a parameter.
   */
  function ReceiptUploadPath(year: nat, month: nat, token: string, filename: string): (path: string)
    ensures StartsWith(path, "receipts/")
    ensures EndsWith(path, token + SplitExt(filename))
  {
    var name := token + SplitExt(filename);
    var rest := NatStr(year) + "/" + TwoDigits(month) + "/" + name;
    ConcatEnds("receipts/", rest);
    ConcatEnds(NatStr(year) + "/" + TwoDigits(month) + "/", name);
    EndsWithTrans("receipts/" + rest, rest, name);
    "receipts/" + rest
  }

  /**
   * The stored path splits on '/' into the receipts folder, the year, the
   * two-digit month and the file name, provided the token holds no '/'.
   */
  lemma ReceiptUploadPathSegments(year: nat, month: nat, token: string, filename: string)
    requires '/' !in token
    ensures Split(ReceiptUploadPath(year, month, token, filename), '/')
         == ["receipts", NatStr(year), TwoDigits(month), token + SplitExt(filename)]
  {
    assert '/' !in "receipts" && "receipts/" == "receipts" + ['/'];
    var ext := SplitExt(filename);
    if ext != [] {
      assert ext == [ext[0]] + ext[1..];
    }
    assert '/' !in token + ext;
    DigitsExclude(NatStr(year), '/');
    DigitsExclude(TwoDigits(month), '/');
    SplitPathFour("receipts/", "receipts", NatStr(year), TwoDigits(month), token + ext, '/');
  }
}
