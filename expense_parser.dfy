/**
 * The expense sheets of an uploaded workbook (`_parse_expenses`): rows 5-38
 * of "Expenses-Main" and "Expenses-Additional", each with a date (A), a
 * description (B), a misc note (C), a client-billed amount (D), sixteen
 * bucket amounts (E-T) and a charge code (V).  Every positive bucket cell is
 * keystone-paid; column D is billed to the client.
 */
module ExpenseParser {
  import opened Wrappers
  import opened Text
  import opened Calendar
  import opened Cells
  import opened Dicts

  /** `EXPENSE_BUCKET_COLUMNS`: bucket columns E-T and their labels. */
  const BucketColumns: seq<(char, string)> := [
    ('E', "Marketing - Meals"),
    ('F', "Marketing - Entertainment"),
    ('G', "Marketing - General"),
    ('H', "Recruiting - Meals"),
    ('I', "Recruiting - Entertainment"),
    ('J', "Recruiting - General"),
    ('K', "Keystone - Meals"),
    ('L', "Keystone - Entertainment"),
    ('M', "Keystone - General"),
    ('N', "Travel"),
    ('O', "Office - Supplies"),
    ('P', "Computer - Expenses"),
    ('Q', "Training"),
    ('R', "Dues & Subscriptions"),
    ('S', "Telecom - Phone"),
    ('T', "Other")
  ]

  /** The bucket labels, in column order. */
  function BucketLabels(): (labels: seq<string>)
    ensures |labels| == |BucketColumns| && forall i :: 0 <= i < |labels| ==> labels[i] == BucketColumns[i].1
  {
    seq(|BucketColumns|, i requires 0 <= i < |BucketColumns| => BucketColumns[i].1)
  }

  /** The expense sheets, in the order they are read. */
  const ExpenseSheets: seq<string> := ["Expenses-Main", "Expenses-Additional"]

  const FirstExpenseRow := 5
  const ExpenseRowCount := 34

  /** A bucket whose label starts with "Marketing" also counts toward the marketing total. */
  predicate IsMarketing(bucket: string) {
    StartsWith(bucket, "Marketing")
  }

  /** One emitted expense item. */
  datatype ExpenseItem = ExpenseItem(
    sheet: string,
    row: int,
    date: Option<string>,
    description: string,
    chargeCode: string,
    bucket: string,
    amount: real,
    misc: string,
    clientBilled: Option<real>)

  /** What `_parse_expenses` returns. */
  datatype Expenses = Expenses(
    items: seq<ExpenseItem>,
    totalsByBucket: map<string, real>,
    totalsByChargeCode: map<string, real>,
    marketingTotal: real,
    keystonePaidTotal: real,
    clientBilledTotal: real,
    totalExpenses: real)

  /** One expense row as read: its cells and its positive bucket amounts in column order. */
  datatype ExpenseRow = ExpenseRow(
    sheet: string,
    row: int,
    date: Option<ValidDate>,
    description: string,
    misc: string,
    clientBilled: Option<real>,
    chargeCode: string,
    amounts: seq<(string, real)>)

  /** The positive amounts among the first `k` bucket cells of a row, with their labels. */
  function BucketAmounts(ws: Sheet, row: int, k: int): (amounts: seq<(string, real)>)
    requires 0 <= k <= |BucketColumns|
    ensures forall i :: 0 <= i < |amounts| ==> amounts[i].1 > 0.0 && amounts[i].0 in BucketLabels()
    decreases k
  {
    if k == 0 then []
    else
      var amount := DecimalCell(ws, BucketColumns[k - 1].0, row);
      assert BucketLabels()[k - 1] == BucketColumns[k - 1].1;
      BucketAmounts(ws, row, k - 1) + (if amount > 0.0 then [(BucketColumns[k - 1].1, amount)] else [])
  }

  /** The positive part of each of the first `k` bucket cells of a row, summed. */
  function PositiveCellSum(ws: Sheet, row: int, k: int): real
    requires 0 <= k <= |BucketColumns|
    decreases k
  {
    if k == 0 then 0.0
    else
      var amount := DecimalCell(ws, BucketColumns[k - 1].0, row);
      PositiveCellSum(ws, row, k - 1) + (if amount > 0.0 then amount else 0.0)
  }

  /** Non-positive bucket cells are ignored: the row total is the sum of the positive cells. */
  lemma {:induction false} BucketAmountsSum(ws: Sheet, row: int, k: int)
    requires 0 <= k <= |BucketColumns|
    ensures SumValues(BucketAmounts(ws, row, k)) == PositiveCellSum(ws, row, k)
    decreases k
  {
    if k > 0 {
      BucketAmountsSum(ws, row, k - 1);
      var prev := BucketAmounts(ws, row, k - 1);
      var amount := DecimalCell(ws, BucketColumns[k - 1].0, row);
      if amount > 0.0 {
        assert (prev + [(BucketColumns[k - 1].1, amount)])[..|prev|] == prev;
      } else {
        assert prev + [] == prev;
      }
    }
  }

  /** The sum of the amounts of marketing buckets. */
  function MarketingSum(amounts: seq<(string, real)>): real
    decreases |amounts|
  {
    if amounts == [] then 0.0
    else
      var last := amounts[|amounts| - 1];
      MarketingSum(amounts[..|amounts| - 1]) + (if IsMarketing(last.0) then last.1 else 0.0)
  }

  /** Row `row` of expense sheet `name`, read the way `_parse_expenses` reads it. */
  function ReadRow(name: string, ws: Sheet, row: int): ExpenseRow {
    ExpenseRow(name, row, ParseDate(At(ws, 'A', row)), ToStr(At(ws, 'B', row)), ToStr(At(ws, 'C', row)),
               DecimalValue(At(ws, 'D', row)), StringCell(ws, 'V', row), BucketAmounts(ws, row, |BucketColumns|))
  }

  /** `_row_is_active`: a date, a description, a positive amount or a charge code. */
  predicate RowIsActive(date: Option<ValidDate>, description: string, rowAmountTotal: real, chargeCode: string) {
    date.Some? || description != "" || rowAmountTotal > 0.0 || chargeCode != ""
  }

  predicate Active(r: ExpenseRow) {
    RowIsActive(r.date, r.description, SumValues(r.amounts), r.chargeCode)
  }

  /** The item emitted for the `i`-th positive bucket amount of a row. */
  function RowItem(r: ExpenseRow, i: int): (item: ExpenseItem)
    requires 0 <= i < |r.amounts|
    ensures item.bucket == r.amounts[i].0 && item.amount == r.amounts[i].1
  {
    ExpenseItem(r.sheet, r.row, if r.date.Some? then Some(IsoFormat(r.date.value)) else None, r.description,
                r.chargeCode, r.amounts[i].0, r.amounts[i].1, r.misc, r.clientBilled)
  }

  /** The items an active row emits: one per positive bucket amount, in column order. */
  function RowItems(r: ExpenseRow): (items: seq<ExpenseItem>)
    ensures |items| == |r.amounts| && forall i :: 0 <= i < |items| ==> items[i] == RowItem(r, i)
  {
    seq(|r.amounts|, i requires 0 <= i < |r.amounts| => RowItem(r, i))
  }

  /** The items a row contributes: its items when active, none otherwise. */
  function EmittedItems(r: ExpenseRow): seq<ExpenseItem> {
    if Active(r) then RowItems(r) else []
  }

  /** Rows whose amounts are positive and carry bucket labels, as `BucketAmounts` produces them. */
  predicate WellFormedRow(r: ExpenseRow) {
    forall i :: 0 <= i < |r.amounts| ==> r.amounts[i].1 > 0.0 && r.amounts[i].0 in BucketLabels()
  }

  lemma {:induction false} SumPositive(amounts: seq<(string, real)>)
    requires forall i :: 0 <= i < |amounts| ==> amounts[i].1 > 0.0
    ensures amounts != [] ==> SumValues(amounts) > 0.0
    ensures SumValues(amounts) >= 0.0
    decreases |amounts|
  {
    if amounts != [] {
      SumPositive(amounts[..|amounts| - 1]);
    }
  }

  /**
   * Every positive bucket cell emits exactly one item: a row with a positive
   * cell is active, and it emits one item per positive cell, carrying that
   * cell's bucket and amount.
   */
  lemma PositiveCellsEmitItems(r: ExpenseRow)
    requires WellFormedRow(r)
    ensures r.amounts != [] ==> Active(r)
    ensures |EmittedItems(r)| == |r.amounts|
    ensures forall i :: 0 <= i < |r.amounts| ==>
      EmittedItems(r)[i].bucket == r.amounts[i].0 && EmittedItems(r)[i].amount == r.amounts[i].1 > 0.0
  {
    SumPositive(r.amounts);
  }

  /** Item amounts filed under their non-empty charge codes, starting from `totals`. */
  function AddCodes(totals: map<string, real>, items: seq<ExpenseItem>): map<string, real>
    decreases |items|
  {
    if items == [] then totals
    else
      var prev := AddCodes(totals, items[..|items| - 1]);
      var last := items[|items| - 1];
      if last.chargeCode != "" then AddTo(prev, last.chargeCode, last.amount) else prev
  }

  lemma {:induction false} AddCodesAppend(totals: map<string, real>, a: seq<ExpenseItem>, b: seq<ExpenseItem>)
    ensures AddCodes(totals, a + b) == AddCodes(AddCodes(totals, a), b)
    decreases |b|
  {
    if b == [] {
      assert a + b == a;
    } else {
      AddCodesAppend(totals, a, b[..|b| - 1]);
      assert (a + b)[..|a + b| - 1] == a + b[..|b| - 1];
    }
  }

  /** The sum of the amounts of the items with charge code `k`. */
  function CodeSum(items: seq<ExpenseItem>, k: string): real
    decreases |items|
  {
    if items == [] then 0.0
    else
      var last := items[|items| - 1];
      CodeSum(items[..|items| - 1], k) + (if last.chargeCode == k then last.amount else 0.0)
  }

  /**
   * `totals_by_charge_code` has exactly the non-empty codes of the items, and
   * each code's total is the sum of the amounts of the items carrying it.
   */
  lemma {:induction false} CodeTotalsMeaning(items: seq<ExpenseItem>, k: string)
    ensures k in AddCodes(map[], items) <==> k != "" && exists i :: 0 <= i < |items| && items[i].chargeCode == k
    ensures k in AddCodes(map[], items) ==> AddCodes(map[], items)[k] == CodeSum(items, k)
    decreases |items|
  {
    if items != [] {
      var init := items[..|items| - 1];
      CodeTotalsMeaning(init, k);
      if k != "" && k !in AddCodes(map[], init) {
        CodeSumZero(init, k);
      }
      if k != "" && exists i :: 0 <= i < |items| && items[i].chargeCode == k {
        var i :| 0 <= i < |items| && items[i].chargeCode == k;
        if i < |init| {
          assert init[i] == items[i];
        }
      }
    }
  }

  lemma {:induction false} CodeSumZero(items: seq<ExpenseItem>, k: string)
    requires forall i :: 0 <= i < |items| ==> items[i].chargeCode != k
    ensures CodeSum(items, k) == 0.0
    decreases |items|
  {
    if items != [] {
      CodeSumZero(items[..|items| - 1], k);
    }
  }

  /** The sixteen labels are distinct, so `totals_by_bucket` has one entry per bucket. */
  lemma BucketLabelsDistinct()
    ensures Distinct(BucketLabels())
  {
    var labels := BucketLabels();
    forall i, j | 0 <= i < j < |labels| ensures labels[i] != labels[j] {
      assert BucketColumns[i].1 != BucketColumns[j].1;
    }
  }

  /** The marketing buckets are exactly the first three. */
  lemma MarketingBuckets(i: int)
    requires 0 <= i < |BucketColumns|
    ensures IsMarketing(BucketColumns[i].1) <==> i < 3
  {
    var bucket := BucketColumns[i].1;
    if i < 3 {
      assert bucket[..9] == "Marketing";
    } else {
      assert bucket[0] != 'M';
    }
  }

  /** The marketing bucket labels. */
  function MarketingLabels(): seq<string> {
    BucketLabels()[..3]
  }

  /** A bucket label is a marketing label exactly when it starts with "Marketing". */
  lemma MarketingLabelsMeaning(bucket: string)
    requires bucket in BucketLabels()
    ensures bucket in MarketingLabels() <==> IsMarketing(bucket)
  {
    BucketLabelsDistinct();
    var j :| 0 <= j < |BucketLabels()| && BucketLabels()[j] == bucket;
    MarketingBuckets(j);
    if bucket in MarketingLabels() {
      var i :| 0 <= i < 3 && MarketingLabels()[i] == bucket;
      assert BucketLabels()[i] == BucketLabels()[j];
    }
  }

  /** `{label: Decimal("0") for _, label in EXPENSE_BUCKET_COLUMNS}`. */
  function ZeroBuckets(): (totals: map<string, real>)
    ensures forall b :: b in totals <==> b in BucketLabels()
    ensures forall b :: b in totals ==> totals[b] == 0.0
  {
    map b | b in BucketLabels() :: 0.0
  }

  /** `totals_by_bucket[label] += amount` for each positive amount of a row. */
  function AddAmounts(totals: map<string, real>, amounts: seq<(string, real)>): map<string, real>
    decreases |amounts|
  {
    if amounts == [] then totals
    else
      var last := amounts[|amounts| - 1];
      AddTo(AddAmounts(totals, amounts[..|amounts| - 1]), last.0, last.1)
  }

  /** The sum of the entries of `totals` under `labels`, a missing label counting 0. */
  function SumLabels(totals: map<string, real>, labels: seq<string>): real
    decreases |labels|
  {
    if labels == [] then 0.0
    else
      var last := labels[|labels| - 1];
      SumLabels(totals, labels[..|labels| - 1]) + (if last in totals then totals[last] else 0.0)
  }

  lemma {:induction false} SumLabelsAddTo(totals: map<string, real>, labels: seq<string>, bucket: string, x: real)
    requires Distinct(labels)
    ensures SumLabels(AddTo(totals, bucket, x), labels) == SumLabels(totals, labels) + (if bucket in labels then x else 0.0)
    decreases |labels|
  {
    if labels != [] {
      var init := labels[..|labels| - 1];
      SumLabelsAddTo(totals, init, bucket, x);
      if bucket in init {
        var i :| 0 <= i < |init| && init[i] == bucket;
        assert labels[i] != labels[|labels| - 1];
      }
    }
  }

  lemma {:induction false} SumLabelsZero(labels: seq<string>)
    ensures SumLabels(ZeroBuckets(), labels) == 0.0
    decreases |labels|
  {
    if labels != [] {
      SumLabelsZero(labels[..|labels| - 1]);
    }
  }

  /**
   * Adding a row's amounts keeps the bucket labels as the keys, raises the
   * sum over all buckets by the row total and the sum over the marketing
   * buckets by the row's marketing total.
   */
  lemma {:induction false} AddAmountsSums(totals: map<string, real>, amounts: seq<(string, real)>)
    requires forall b :: b in totals <==> b in BucketLabels()
    requires forall i :: 0 <= i < |amounts| ==> amounts[i].0 in BucketLabels()
    ensures forall b :: b in AddAmounts(totals, amounts) <==> b in BucketLabels()
    ensures SumLabels(AddAmounts(totals, amounts), BucketLabels()) == SumLabels(totals, BucketLabels()) + SumValues(amounts)
    ensures SumLabels(AddAmounts(totals, amounts), MarketingLabels())
         == SumLabels(totals, MarketingLabels()) + MarketingSum(amounts)
    decreases |amounts|
  {
    if amounts != [] {
      var init := amounts[..|amounts| - 1];
      var last := amounts[|amounts| - 1];
      AddAmountsSums(totals, init);
      BucketLabelsDistinct();
      assert Distinct(MarketingLabels());
      var prev := AddAmounts(totals, init);
      SumLabelsAddTo(prev, BucketLabels(), last.0, last.1);
      SumLabelsAddTo(prev, MarketingLabels(), last.0, last.1);
      MarketingLabelsMeaning(last.0);
    }
  }

  /** Per-row sums over the rows read so far. */
  function KeystoneOf(rows: seq<ExpenseRow>): real
    decreases |rows|
  {
    if rows == [] then 0.0 else KeystoneOf(rows[..|rows| - 1]) + SumValues(rows[|rows| - 1].amounts)
  }

  function MarketingOf(rows: seq<ExpenseRow>): real
    decreases |rows|
  {
    if rows == [] then 0.0 else MarketingOf(rows[..|rows| - 1]) + MarketingSum(rows[|rows| - 1].amounts)
  }

  /** Every numeric column-D value, whatever its sign and whether or not the row is active. */
  function ClientBilledOf(rows: seq<ExpenseRow>): real
    decreases |rows|
  {
    if rows == [] then 0.0 else ClientBilledOf(rows[..|rows| - 1]) + rows[|rows| - 1].clientBilled.GetOr(0.0)
  }

  function BucketTotalsOf(rows: seq<ExpenseRow>): map<string, real>
    decreases |rows|
  {
    if rows == [] then ZeroBuckets() else AddAmounts(BucketTotalsOf(rows[..|rows| - 1]), rows[|rows| - 1].amounts)
  }

  function ItemsOf(rows: seq<ExpenseRow>): seq<ExpenseItem>
    decreases |rows|
  {
    if rows == [] then [] else ItemsOf(rows[..|rows| - 1]) + EmittedItems(rows[|rows| - 1])
  }

  /** What `_parse_expenses` returns after reading `rows`. */
  function ExpensesOf(rows: seq<ExpenseRow>): Expenses {
    var items := ItemsOf(rows);
    Expenses(items, BucketTotalsOf(rows), AddCodes(map[], items), MarketingOf(rows), KeystoneOf(rows),
             ClientBilledOf(rows), KeystoneOf(rows) + ClientBilledOf(rows))
  }

  /**
   * Over well-formed rows, `totals_by_bucket` always has all sixteen labels;
   * the bucket totals add up to `keystone_paid_total`; and the three
   * marketing bucket totals add up to `marketing_total`.
   */
  lemma {:induction false} BucketTotalsAgree(rows: seq<ExpenseRow>)
    requires forall i :: 0 <= i < |rows| ==> WellFormedRow(rows[i])
    ensures forall b :: b in BucketTotalsOf(rows) <==> b in BucketLabels()
    ensures SumLabels(BucketTotalsOf(rows), BucketLabels()) == KeystoneOf(rows)
    ensures SumLabels(BucketTotalsOf(rows), MarketingLabels()) == MarketingOf(rows)
    decreases |rows|
  {
    if rows == [] {
      SumLabelsZero(BucketLabels());
      SumLabelsZero(MarketingLabels());
    } else {
      var init := rows[..|rows| - 1];
      forall i | 0 <= i < |init| ensures WellFormedRow(init[i]) {
        assert init[i] == rows[i];
      }
      BucketTotalsAgree(init);
      AddAmountsSums(BucketTotalsOf(init), rows[|rows| - 1].amounts);
    }
  }

  /** Every item emitted from well-formed rows has a positive amount. */
  lemma {:induction false} ItemsPositive(rows: seq<ExpenseRow>)
    requires forall i :: 0 <= i < |rows| ==> WellFormedRow(rows[i])
    ensures forall i :: 0 <= i < |ItemsOf(rows)| ==> ItemsOf(rows)[i].amount > 0.0
    decreases |rows|
  {
    if rows != [] {
      var init := rows[..|rows| - 1];
      var last := rows[|rows| - 1];
      forall i | 0 <= i < |init| ensures WellFormedRow(init[i]) {
        assert init[i] == rows[i];
      }
      ItemsPositive(init);
      PositiveCellsEmitItems(last);
      var items := ItemsOf(rows);
      var prev := ItemsOf(init);
      assert items == prev + EmittedItems(last);
      forall i | 0 <= i < |items| ensures items[i].amount > 0.0 {
        if i >= |prev| {
          assert items[i] == EmittedItems(last)[i - |prev|];
        } else {
          assert items[i] == prev[i];
        }
      }
    }
  }

  /**
   * What `_parse_expenses` returns over well-formed rows: `totals_by_bucket`
   * has exactly the sixteen labels, its entries add up to
   * `keystone_paid_total`, its marketing entries add up to `marketing_total`,
   * every item is positive, and `total_expenses` is the keystone-paid plus
   * the client-billed total.
   */
  lemma ExpenseTotalsAgree(rows: seq<ExpenseRow>)
    requires forall i :: 0 <= i < |rows| ==> WellFormedRow(rows[i])
    ensures var e := ExpensesOf(rows);
      && (forall b :: b in e.totalsByBucket <==> b in BucketLabels())
      && SumLabels(e.totalsByBucket, BucketLabels()) == e.keystonePaidTotal
      && SumLabels(e.totalsByBucket, MarketingLabels()) == e.marketingTotal
      && (forall i :: 0 <= i < |e.items| ==> e.items[i].amount > 0.0)
      && e.totalExpenses == e.keystonePaidTotal + e.clientBilledTotal
  {
    BucketTotalsAgree(rows);
    ItemsPositive(rows);
  }

  /** The state of the bucket loop after the first `k` bucket cells of a row. */
  ghost predicate BucketState(ws: Sheet, row: int, k: int, totals: map<string, real>, keystone: real,
                              amounts: seq<(string, real)>, totals': map<string, real>, rowTotal: real,
                              keystone': real, rowMarketing: real)
    requires 0 <= k <= |BucketColumns|
  {
    && amounts == BucketAmounts(ws, row, k)
    && totals' == AddAmounts(totals, amounts)
    && rowTotal == SumValues(amounts) && keystone' == keystone + rowTotal
    && rowMarketing == MarketingSum(amounts)
  }

  lemma BucketStep(ws: Sheet, row: int, k: int, totals: map<string, real>, keystone: real,
                   amounts: seq<(string, real)>, totals': map<string, real>, rowTotal: real,
                   keystone': real, rowMarketing: real)
    requires 0 <= k < |BucketColumns|
    requires BucketState(ws, row, k, totals, keystone, amounts, totals', rowTotal, keystone', rowMarketing)
    ensures var bucket := BucketColumns[k].1;
      var amount := DecimalCell(ws, BucketColumns[k].0, row);
      && if amount > 0.0 then
           BucketState(ws, row, k + 1, totals, keystone, amounts + [(bucket, amount)],
                       AddTo(totals', bucket, amount), rowTotal + amount, keystone' + amount,
                       rowMarketing + (if StartsWith(bucket, "Marketing") then amount else 0.0))
         else
           BucketState(ws, row, k + 1, totals, keystone, amounts, totals', rowTotal, keystone', rowMarketing)
  {
    var bucket := BucketColumns[k].1;
    var amount := DecimalCell(ws, BucketColumns[k].0, row);
    BucketAmountsNext(ws, row, k);
    if amount > 0.0 {
      AmountsSnoc(totals, amounts, (bucket, amount));
    } else {
      assert amounts + [] == amounts;
    }
  }

  /** The first `k + 1` bucket amounts of a row are the first `k` and the next cell's amount, when positive. */
  lemma BucketAmountsNext(ws: Sheet, row: int, k: int)
    requires 0 <= k < |BucketColumns|
    ensures var amount := DecimalCell(ws, BucketColumns[k].0, row);
      BucketAmounts(ws, row, k + 1)
        == BucketAmounts(ws, row, k) + (if amount > 0.0 then [(BucketColumns[k].1, amount)] else [])
  {
  }

  /** One more amount: it goes into its bucket's total, the amounts' sum and, for a marketing bucket, the marketing sum. */
  lemma AmountsSnoc(totals: map<string, real>, amounts: seq<(string, real)>, x: (string, real))
    ensures AddAmounts(totals, amounts + [x]) == AddTo(AddAmounts(totals, amounts), x.0, x.1)
    ensures SumValues(amounts + [x]) == SumValues(amounts) + x.1
    ensures MarketingSum(amounts + [x]) == MarketingSum(amounts) + (if IsMarketing(x.0) then x.1 else 0.0)
  {
    assert (amounts + [x])[..|amounts|] == amounts;
  }

  /**
   * The bucket loop of `_parse_expenses` for one row: each positive cell is
   * recorded with its label and added to its bucket total, the row total,
   * the keystone-paid total and, for marketing buckets, the row's marketing
   * total.
   */
  method ReadBucketCells(ws: Sheet, row: int, totals: map<string, real>, keystone: real)
    returns (amounts: seq<(string, real)>, totals': map<string, real>, rowTotal: real, keystone': real,
             rowMarketing: real)
    ensures amounts == BucketAmounts(ws, row, |BucketColumns|)
    ensures totals' == AddAmounts(totals, amounts)
    ensures rowTotal == SumValues(amounts) && keystone' == keystone + rowTotal
    ensures rowMarketing == MarketingSum(amounts)
  {
    amounts, totals', rowTotal, keystone', rowMarketing := [], totals, 0.0, keystone, 0.0;
    var k := 0;
    while k < |BucketColumns|
      invariant 0 <= k <= |BucketColumns|
      invariant BucketState(ws, row, k, totals, keystone, amounts, totals', rowTotal, keystone', rowMarketing)
    {
      amounts, totals', rowTotal, keystone', rowMarketing :=
        ReadBucketCell(ws, row, k, totals, keystone, amounts, totals', rowTotal, keystone', rowMarketing);
      k := k + 1;
    }
  }

  /** The body of the bucket loop for the cell in bucket column `k`. */
  method ReadBucketCell(ws: Sheet, row: int, k: int, ghost totals: map<string, real>, ghost keystone: real,
                        amounts: seq<(string, real)>, totals': map<string, real>, rowTotal: real,
                        keystone': real, rowMarketing: real)
    returns (amounts'': seq<(string, real)>, totals'': map<string, real>, rowTotal': real,
             keystone'': real, rowMarketing': real)
    requires 0 <= k < |BucketColumns|
    requires BucketState(ws, row, k, totals, keystone, amounts, totals', rowTotal, keystone', rowMarketing)
    ensures BucketState(ws, row, k + 1, totals, keystone, amounts'', totals'', rowTotal', keystone'', rowMarketing')
  {
    BucketStep(ws, row, k, totals, keystone, amounts, totals', rowTotal, keystone', rowMarketing);
    amounts'', totals'', rowTotal', keystone'', rowMarketing' := amounts, totals', rowTotal, keystone', rowMarketing;
    var (column, bucket) := BucketColumns[k];
    var amount := DecimalCell(ws, column, row);
    if amount > 0.0 {
      amounts'' := amounts + [(bucket, amount)];
      totals'' := AddTo(totals', bucket, amount);
      rowTotal' := rowTotal + amount;
      keystone'' := keystone' + amount;
      if StartsWith(bucket, "Marketing") {
        rowMarketing' := rowMarketing + amount;
      }
    }
  }

  lemma ItemStep(r: ExpenseRow, i: int, items: seq<ExpenseItem>, codes: map<string, real>,
                 items': seq<ExpenseItem>, codes': map<string, real>)
    requires 0 <= i < |r.amounts|
    requires items' == items + RowItems(r)[..i] && codes' == AddCodes(codes, RowItems(r)[..i])
    ensures var item := RowItem(r, i);
      && items' + [item] == items + RowItems(r)[..i + 1]
      && (if r.chargeCode != "" then AddTo(codes', r.chargeCode, item.amount) else codes')
         == AddCodes(codes, RowItems(r)[..i + 1])
  {
    var all := RowItems(r);
    assert all[..i + 1] == all[..i] + [all[i]];
    assert all[..i + 1][..i] == all[..i];
  }

  /**
   * The item loop of `_parse_expenses` for an active row: one item per
   * positive amount, each added to its charge code's total when the code is
   * non-empty.
   */
  method EmitRowItems(r: ExpenseRow, items: seq<ExpenseItem>, codes: map<string, real>)
    returns (items': seq<ExpenseItem>, codes': map<string, real>)
    ensures items' == items + RowItems(r)
    ensures codes' == AddCodes(codes, RowItems(r))
  {
    items', codes' := items, codes;
    var i := 0;
    while i < |r.amounts|
      invariant 0 <= i <= |r.amounts|
      invariant items' == items + RowItems(r)[..i]
      invariant codes' == AddCodes(codes, RowItems(r)[..i])
    {
      ItemStep(r, i, items, codes, items', codes');
      var (bucket, amount) := r.amounts[i];
      var item := ExpenseItem(r.sheet, r.row, if r.date.Some? then Some(IsoFormat(r.date.value)) else None,
                              r.description, r.chargeCode, bucket, amount, r.misc, r.clientBilled);
      items' := items' + [item];
      if r.chargeCode != "" {
        codes' := AddTo(codes', r.chargeCode, amount);
      }
      i := i + 1;
    }
    assert RowItems(r)[..i] == RowItems(r);
  }

  /** The first `n` rows (from row 5) of expense sheet `name`. */
  function SheetRows(name: string, ws: Sheet, n: nat): (rows: seq<ExpenseRow>)
    ensures |rows| == n && forall i :: 0 <= i < n ==> WellFormedRow(rows[i])
  {
    if n == 0 then [] else SheetRows(name, ws, n - 1) + [ReadRow(name, ws, FirstExpenseRow + n - 1)]
  }

  /** The rows of the first `s` expense sheets; a missing sheet contributes none. */
  function RowsOfSheets(worksheets: map<string, Sheet>, s: int): seq<ExpenseRow>
    requires 0 <= s <= |ExpenseSheets|
    decreases s
  {
    if s == 0 then []
    else
      var name := ExpenseSheets[s - 1];
      if name in worksheets then RowsOfSheets(worksheets, s - 1) + SheetRows(name, worksheets[name], ExpenseRowCount)
      else RowsOfSheets(worksheets, s - 1)
  }

  /** Every row read from the expense sheets is well formed. */
  lemma {:induction false} RowsOfSheetsWellFormed(worksheets: map<string, Sheet>, s: int)
    requires 0 <= s <= |ExpenseSheets|
    ensures forall i :: 0 <= i < |RowsOfSheets(worksheets, s)| ==> WellFormedRow(RowsOfSheets(worksheets, s)[i])
    decreases s
  {
    if s > 0 {
      RowsOfSheetsWellFormed(worksheets, s - 1);
      var prev := RowsOfSheets(worksheets, s - 1);
      var rows := RowsOfSheets(worksheets, s);
      forall i | 0 <= i < |rows| ensures WellFormedRow(rows[i]) {
        if i < |prev| {
          assert rows[i] == prev[i];
        }
      }
    }
  }

  /**
   * The totals `_parse_expenses` returns agree with each other: see
   * `ExpenseTotalsAgree`.
   */
  lemma ParsedTotalsAgree(worksheets: map<string, Sheet>)
    ensures var e := ExpensesOf(RowsOfSheets(worksheets, |ExpenseSheets|));
      && (forall b :: b in e.totalsByBucket <==> b in BucketLabels())
      && SumLabels(e.totalsByBucket, BucketLabels()) == e.keystonePaidTotal
      && SumLabels(e.totalsByBucket, MarketingLabels()) == e.marketingTotal
      && (forall i :: 0 <= i < |e.items| ==> e.items[i].amount > 0.0)
      && e.totalExpenses == e.keystonePaidTotal + e.clientBilledTotal
  {
    RowsOfSheetsWellFormed(worksheets, |ExpenseSheets|);
    ExpenseTotalsAgree(RowsOfSheets(worksheets, |ExpenseSheets|));
  }

  /**
   * The running values of `_parse_expenses`: the items, the bucket and
   * charge-code totals, and the marketing, keystone-paid and client-billed
   * totals.
   */
  datatype Tally = Tally(items: seq<ExpenseItem>, buckets: map<string, real>, codes: map<string, real>,
                         marketing: real, keystone: real, client: real)

  /** The running values before the first row. */
  function StartTally(): Tally {
    Tally([], ZeroBuckets(), map[], 0.0, 0.0, 0.0)
  }

  /** What one pass of the row loop does to the running values. */
  function Step(t: Tally, r: ExpenseRow): Tally {
    Tally(t.items + EmittedItems(r), AddAmounts(t.buckets, r.amounts), AddCodes(t.codes, EmittedItems(r)),
          t.marketing + MarketingSum(r.amounts), t.keystone + SumValues(r.amounts),
          t.client + r.clientBilled.GetOr(0.0))
  }

  /** The running values after reading `rows`, starting from `t`. */
  function Fold(t: Tally, rows: seq<ExpenseRow>): Tally
    decreases |rows|
  {
    if rows == [] then t else Step(Fold(t, rows[..|rows| - 1]), rows[|rows| - 1])
  }

  lemma FoldSnoc(t: Tally, rows: seq<ExpenseRow>, r: ExpenseRow)
    ensures Fold(t, rows + [r]) == Step(Fold(t, rows), r)
  {
    assert (rows + [r])[..|rows|] == rows;
  }

  /** Reading `a` and then `b` is reading `a + b`: the sheets are read one after another into the same totals. */
  lemma {:induction false} FoldAppend(t: Tally, a: seq<ExpenseRow>, b: seq<ExpenseRow>)
    ensures Fold(t, a + b) == Fold(Fold(t, a), b)
    decreases |b|
  {
    if b == [] {
      assert a + b == a;
    } else {
      FoldAppend(t, a, b[..|b| - 1]);
      assert (a + b)[..|a + b| - 1] == a + b[..|b| - 1];
    }
  }

  /**
   * From the start, the running values are the items of the rows, their
   * bucket totals, the charge-code totals of the items, and the per-row sums.
   */
  lemma {:induction false} FoldMeaning(rows: seq<ExpenseRow>)
    ensures Fold(StartTally(), rows)
         == Tally(ItemsOf(rows), BucketTotalsOf(rows), AddCodes(map[], ItemsOf(rows)), MarketingOf(rows),
                  KeystoneOf(rows), ClientBilledOf(rows))
    decreases |rows|
  {
    if rows != [] {
      var init := rows[..|rows| - 1];
      FoldMeaning(init);
      AddCodesAppend(map[], ItemsOf(init), EmittedItems(rows[|rows| - 1]));
    }
  }

  /**
   * The body of the row loop of `_parse_expenses`: reads one row, adds its
   * positive cells to the bucket, keystone-paid and marketing totals, its
   * column D value to the client-billed total and, when the row is active,
   * emits its items.
   */
  method ReadExpenseRow(name: string, ws: Sheet, row: int, items: seq<ExpenseItem>, buckets: map<string, real>,
                        codes: map<string, real>, marketing: real, keystone: real, client: real)
    returns (items': seq<ExpenseItem>, buckets': map<string, real>, codes': map<string, real>, marketing': real,
             keystone': real, client': real)
    ensures Tally(items', buckets', codes', marketing', keystone', client')
         == Step(Tally(items, buckets, codes, marketing, keystone, client), ReadRow(name, ws, row))
  {
    var dateVal := ParseDate(At(ws, 'A', row));
    var description := ToStr(At(ws, 'B', row));
    var miscValue := At(ws, 'C', row);
    var dValue := At(ws, 'D', row);
    var chargeCode := StringCell(ws, 'V', row);

    var amounts, rowTotal, rowMarketing;
    amounts, buckets', rowTotal, keystone', rowMarketing := ReadBucketCells(ws, row, buckets, keystone);

    var numericD := DecimalValue(dValue);
    client' := client;
    if numericD.Some? {
      client' := client + numericD.value;
    }

    var r := ExpenseRow(name, row, dateVal, description, ToStr(miscValue), numericD, chargeCode, amounts);
    assert r == ReadRow(name, ws, row);
    items', codes' := items, codes;
    if RowIsActive(dateVal, description, rowTotal, chargeCode) {
      items', codes' := EmitRowItems(r, items, codes);
    } else {
      assert items + EmittedItems(r) == items;
    }
    marketing' := marketing + rowMarketing;
    StepFields(Tally(items, buckets, codes, marketing, keystone, client), r,
               Tally(items', buckets', codes', marketing', keystone', client'));
  }

  lemma StepFields(t: Tally, r: ExpenseRow, t': Tally)
    requires t'.items == t.items + EmittedItems(r) && t'.buckets == AddAmounts(t.buckets, r.amounts)
    requires t'.codes == AddCodes(t.codes, EmittedItems(r)) && t'.marketing == t.marketing + MarketingSum(r.amounts)
    requires t'.keystone == t.keystone + SumValues(r.amounts) && t'.client == t.client + r.clientBilled.GetOr(0.0)
    ensures t' == Step(t, r)
  {
  }

  /** The row loop of `_parse_expenses` over rows 5-38 of one expense sheet. */
  method ReadExpenseSheet(name: string, ws: Sheet, items: seq<ExpenseItem>, buckets: map<string, real>,
                          codes: map<string, real>, marketing: real, keystone: real, client: real)
    returns (items': seq<ExpenseItem>, buckets': map<string, real>, codes': map<string, real>, marketing': real,
             keystone': real, client': real)
    ensures Tally(items', buckets', codes', marketing', keystone', client')
         == Fold(Tally(items, buckets, codes, marketing, keystone, client), SheetRows(name, ws, ExpenseRowCount))
  {
    items', buckets', codes', marketing', keystone', client' := items, buckets, codes, marketing, keystone, client;
    ghost var start := Tally(items, buckets, codes, marketing, keystone, client);
    var row := FirstExpenseRow;
    while row < FirstExpenseRow + ExpenseRowCount
      invariant FirstExpenseRow <= row <= FirstExpenseRow + ExpenseRowCount
      invariant Tally(items', buckets', codes', marketing', keystone', client')
             == Fold(start, SheetRows(name, ws, row - FirstExpenseRow))
    {
      FoldSnoc(start, SheetRows(name, ws, row - FirstExpenseRow), ReadRow(name, ws, row));
      items', buckets', codes', marketing', keystone', client' :=
        ReadExpenseRow(name, ws, row, items', buckets', codes', marketing', keystone', client');
      row := row + 1;
    }
  }

  lemma SheetsStep(worksheets: map<string, Sheet>, s: int, before: Tally, after: Tally)
    requires 0 <= s < |ExpenseSheets| && ExpenseSheets[s] in worksheets
    requires before == Fold(StartTally(), RowsOfSheets(worksheets, s))
    requires after == Fold(before, SheetRows(ExpenseSheets[s], worksheets[ExpenseSheets[s]], ExpenseRowCount))
    ensures after == Fold(StartTally(), RowsOfSheets(worksheets, s + 1))
  {
    var name := ExpenseSheets[s];
    FoldAppend(StartTally(), RowsOfSheets(worksheets, s), SheetRows(name, worksheets[name], ExpenseRowCount));
  }

  /**
   * `_parse_expenses`: reads rows 5-38 of each expense sheet that is present,
   * in order, and returns the items and totals.
   */
  method ParseExpenses(worksheets: map<string, Sheet>) returns (e: Expenses)
    ensures e == ExpensesOf(RowsOfSheets(worksheets, |ExpenseSheets|))
  {
    var buckets := ZeroBuckets();
    var codes: map<string, real> := map[];
    var items: seq<ExpenseItem> := [];
    var marketing, keystone, client := 0.0, 0.0, 0.0;
    var s := 0;
    while s < |ExpenseSheets|
      invariant 0 <= s <= |ExpenseSheets|
      invariant Tally(items, buckets, codes, marketing, keystone, client)
             == Fold(StartTally(), RowsOfSheets(worksheets, s))
    {
      var name := ExpenseSheets[s];
      if name in worksheets {
        ghost var before := Tally(items, buckets, codes, marketing, keystone, client);
        items, buckets, codes, marketing, keystone, client :=
          ReadExpenseSheet(name, worksheets[name], items, buckets, codes, marketing, keystone, client);
        SheetsStep(worksheets, s, before, Tally(items, buckets, codes, marketing, keystone, client));
      }
      s := s + 1;
    }
    FoldMeaning(RowsOfSheets(worksheets, |ExpenseSheets|));
    e := Expenses(items, buckets, codes, marketing, keystone, client, keystone + client);
  }
}
