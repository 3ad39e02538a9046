/** The financial rules of src/lib/financial.ts: the record a new
    transaction is stored as, and the totals of `getFinancialStats`.
    Amounts are in cents. */
module Financial {
  import opened Wrappers
  import opened Seqs
  import opened Text
  import opened Grouping

  datatype TransactionType = Revenue | Expense

  /** The `data` argument of `createFinancialTransaction`; an absent
      optional field is `None`. */
  datatype TransactionInput = TransactionInput(
    kind: TransactionType,
    description: string,
    amount: int,
    category: Option<string>,
    referenceId: Option<string>,
    supplierId: Option<string>,
    userId: string,
    transactionDate: Option<string>)

  /** The row inserted into `financial_transactions`. */
  datatype TransactionRecord = TransactionRecord(
    restaurantId: string,
    kind: TransactionType,
    description: string,
    amount: int,
    category: Option<string>,
    referenceId: Option<string>,
    supplierId: Option<string>,
    userId: string,
    transactionDate: string)

  /** `x || null` for an optional text: absent and empty both become
      `null`. */
  function OrNull(x: Option<string>): (r: Option<string>)
    ensures r.Some? <==> x.Some? && x.value != ""
    ensures r.Some? ==> r == x
  {
    if x.Some? && x.value != "" then x else None
  }

  /** The row `createFinancialTransaction` inserts: the optional texts
      stored as `null` when absent or empty, the date defaulting to `now`. */
  function NewTransactionRecord(restaurantId: string, data: TransactionInput, now: string): (r: TransactionRecord)
    ensures r.restaurantId == restaurantId && r.kind == data.kind
    ensures r.description == data.description && r.amount == data.amount && r.userId == data.userId
    ensures r.category == OrNull(data.category)
    ensures r.referenceId == OrNull(data.referenceId)
    ensures r.supplierId == OrNull(data.supplierId)
    ensures data.transactionDate.Some? && data.transactionDate.value != "" ==>
      r.transactionDate == data.transactionDate.value
    ensures data.transactionDate.None? || data.transactionDate.value == "" ==> r.transactionDate == now
  {
    TransactionRecord(
      restaurantId, data.kind, data.description, data.amount,
      OrNull(data.category), OrNull(data.referenceId), OrNull(data.supplierId),
      data.userId,
      if data.transactionDate.Some? && data.transactionDate.value != "" then data.transactionDate.value else now)
  }

  // -----------------------------------------------------------------------
  // getFinancialStats
  // -----------------------------------------------------------------------

  /** A transaction as `getFinancialStats` reads it; `date` is the day
      `YYYY-MM-DD` of its `transaction_date`. */
  datatype Transaction = Transaction(kind: TransactionType, amount: int, date: string)

  /** What a transaction adds to the revenue total. */
  function RevenueAmount(t: Transaction): int
  {
    if t.kind == Revenue then t.amount else 0
  }

  /** What a transaction adds to the expense total: every transaction that
      is not revenue. */
  function ExpenseAmount(t: Transaction): int
  {
    if t.kind == Revenue then 0 else t.amount
  }

  function RevenueAmountFn(): Transaction -> int
  {
    (t: Transaction) => RevenueAmount(t)
  }

  function ExpenseAmountFn(): Transaction -> int
  {
    (t: Transaction) => ExpenseAmount(t)
  }

  function AmountFn(): Transaction -> int
  {
    (t: Transaction) => t.amount
  }

  /** Every transaction counts once, as revenue or as expense. */
  lemma {:induction false} TotalsSplitAmounts(txs: seq<Transaction>)
    ensures SumOfInt(txs, RevenueAmountFn()) + SumOfInt(txs, ExpenseAmountFn()) == SumOfInt(txs, AmountFn())
  {
    if txs != [] {
      TotalsSplitAmounts(txs[..|txs| - 1]);
    }
  }

  /** The day of a transaction: the key of the `Map` `revenueByDate`,
      whose keys in insertion order are `Keys(txs, DateFn())`. */
  function DateFn(): Transaction -> string
  {
    (t: Transaction) => t.date
  }

  /** One entry of `revenueLast30Days`. */
  datatype DayRow = DayRow(date: string, revenue: int, expenses: int)

  /** The entry of day `d`. */
  function RowFor(txs: seq<Transaction>): string -> DayRow
  {
    (d: string) => DayRow(d, KeySum(txs, DateFn(), d, RevenueAmountFn()), KeySum(txs, DateFn(), d, ExpenseAmountFn()))
  }

  function RowRevenueFn(): DayRow -> int
  {
    (r: DayRow) => r.revenue
  }

  function RowExpensesFn(): DayRow -> int
  {
    (r: DayRow) => r.expenses
  }

  /** `a.date.localeCompare(b.date) < 0`. */
  predicate DateBefore(a: DayRow, b: DayRow)
  {
    StringLess(a.date, b.date)
  }

  lemma DateBeforeIsStrictWeakOrder()
    ensures StrictWeakOrder(DateBefore)
  {
    StringLessStrictTotal();
  }

  datatype Stats = Stats(totalRevenue: int, totalExpenses: int, netProfit: int, revenueLast30Days: seq<DayRow>)

  /** The statistics of a list of transactions: the two totals, their
      difference, and one entry per day sorted by date. */
  function FinancialStats(txs: seq<Transaction>): Stats
  {
    DateBeforeIsStrictWeakOrder();
    var totalRevenue := SumOfInt(txs, RevenueAmountFn());
    var totalExpenses := SumOfInt(txs, ExpenseAmountFn());
    Stats(totalRevenue, totalExpenses, totalRevenue - totalExpenses,
      SortBy(Map(Keys(txs, DateFn()), RowFor(txs)), DateBefore))
  }

  /** `getFinancialStats` over the transactions fetched for the period: one
      pass accumulating the totals and the per-day buckets, then the
      entries of the buckets sorted by date. */
  method GetFinancialStats(transactions: seq<Transaction>) returns (stats: Stats)
    ensures stats == FinancialStats(transactions)
  {
    var totalRevenue, totalExpenses, dates, revenueByDate := Accumulate(transactions);
    var entries := seq(|dates|, k requires 0 <= k < |dates| =>
      DayRow(dates[k], revenueByDate[dates[k]].0, revenueByDate[dates[k]].1));
    assert entries == Map(dates, RowFor(transactions));
    DateBeforeIsStrictWeakOrder();
    var revenueLast30Days := SortBy(entries, DateBefore);
    stats := Stats(totalRevenue, totalExpenses, totalRevenue - totalExpenses, revenueLast30Days);
  }

  /** The loop of `getFinancialStats`: the two totals and the `Map` from
      day to (revenue, expenses), with its keys in insertion order. */
  method Accumulate(transactions: seq<Transaction>)
    returns (totalRevenue: int, totalExpenses: int, dates: seq<string>, revenueByDate: map<string, (int, int)>)
    ensures totalRevenue == SumOfInt(transactions, RevenueAmountFn())
    ensures totalExpenses == SumOfInt(transactions, ExpenseAmountFn())
    ensures dates == Keys(transactions, DateFn())
    ensures forall d :: d in revenueByDate <==> d in dates
    ensures forall d :: d in revenueByDate ==>
      revenueByDate[d] == (KeySum(transactions, DateFn(), d, RevenueAmountFn()), KeySum(transactions, DateFn(), d, ExpenseAmountFn()))
  {
    totalRevenue, totalExpenses := 0, 0;
    dates, revenueByDate := [], map[];
    for i := 0 to |transactions|
      invariant Ledger(transactions[..i], totalRevenue, totalExpenses, dates, revenueByDate)
    {
      totalRevenue, totalExpenses, dates, revenueByDate :=
        AddTransaction(transactions[..i], transactions[i], totalRevenue, totalExpenses, dates, revenueByDate);
      PrefixSnoc(transactions, i);
    }
    assert transactions[..|transactions|] == transactions;
  }

  /** What the loop of `getFinancialStats` holds after the transactions `p`. */
  ghost predicate Ledger(p: seq<Transaction>, totalRevenue: int, totalExpenses: int,
                         dates: seq<string>, revenueByDate: map<string, (int, int)>)
  {
    totalRevenue == SumOfInt(p, RevenueAmountFn()) &&
    totalExpenses == SumOfInt(p, ExpenseAmountFn()) &&
    dates == Keys(p, DateFn()) &&
    (forall d :: d in revenueByDate <==> d in dates) &&
    forall d :: d in revenueByDate ==>
      revenueByDate[d] == (KeySum(p, DateFn(), d, RevenueAmountFn()), KeySum(p, DateFn(), d, ExpenseAmountFn()))
  }

  /** One turn of the loop of `getFinancialStats`. */
  method AddTransaction(ghost p: seq<Transaction>, transaction: Transaction, totalRevenue: int, totalExpenses: int,
                        dates: seq<string>, revenueByDate: map<string, (int, int)>)
    returns (totalRevenue': int, totalExpenses': int, dates': seq<string>, revenueByDate': map<string, (int, int)>)
    requires Ledger(p, totalRevenue, totalExpenses, dates, revenueByDate)
    ensures Ledger(p + [transaction], totalRevenue', totalExpenses', dates', revenueByDate')
  {
    assert (p + [transaction])[..|p|] == p;
    totalRevenue', totalExpenses' := totalRevenue, totalExpenses;
    if transaction.kind == Revenue {
      totalRevenue' := totalRevenue + transaction.amount;
    } else {
      totalExpenses' := totalExpenses + transaction.amount;
    }
    var date := transaction.date;
    var current := (0, 0);
    dates' := dates;
    if date in revenueByDate {
      current := revenueByDate[date];
    } else {
      KeySumAbsent(p, DateFn(), date, RevenueAmountFn());
      KeySumAbsent(p, DateFn(), date, ExpenseAmountFn());
      dates' := dates + [date];
    }
    revenueByDate' := revenueByDate[date := (
      current.0 + (if transaction.kind == Revenue then transaction.amount else 0),
      current.1 + (if transaction.kind == Expense then transaction.amount else 0))];
    BucketStep(p, transaction, revenueByDate, revenueByDate');
    KeysSnoc(p, transaction, DateFn());
  }

  /** One step of the loop keeps every bucket equal to its day's sums. */
  lemma BucketStep(p: seq<Transaction>, t: Transaction, before: map<string, (int, int)>, after: map<string, (int, int)>)
    requires forall d :: d in before ==> before[d] == (KeySum(p, DateFn(), d, RevenueAmountFn()), KeySum(p, DateFn(), d, ExpenseAmountFn()))
    requires t.date !in before ==> KeySum(p, DateFn(), t.date, RevenueAmountFn()) == 0 && KeySum(p, DateFn(), t.date, ExpenseAmountFn()) == 0
    requires var current := if t.date in before then before[t.date] else (0, 0);
      after == before[t.date := (current.0 + RevenueAmount(t), current.1 + ExpenseAmount(t))]
    ensures forall d :: d in after ==>
      after[d] == (KeySum(p + [t], DateFn(), d, RevenueAmountFn()), KeySum(p + [t], DateFn(), d, ExpenseAmountFn()))
  {
    forall d | d in after
      ensures after[d] == (KeySum(p + [t], DateFn(), d, RevenueAmountFn()), KeySum(p + [t], DateFn(), d, ExpenseAmountFn()))
    {
      KeySumSnoc(p, t, DateFn(), d, RevenueAmountFn());
      KeySumSnoc(p, t, DateFn(), d, ExpenseAmountFn());
    }
  }

  /** The day entries add up to the totals, the net profit is revenue minus
      expenses, and revenue and expenses together account for every amount. */
  lemma FinancialStatsTotals(txs: seq<Transaction>)
    ensures var s := FinancialStats(txs);
      SumOfInt(s.revenueLast30Days, RowRevenueFn()) == s.totalRevenue &&
      SumOfInt(s.revenueLast30Days, RowExpensesFn()) == s.totalExpenses &&
      s.netProfit == s.totalRevenue - s.totalExpenses &&
      s.totalRevenue + s.totalExpenses == SumOfInt(txs, AmountFn())
  {
    var rows := Map(Keys(txs, DateFn()), RowFor(txs));
    var s := FinancialStats(txs);
    RowsSum(Keys(txs, DateFn()), txs, DateFn(), RevenueAmountFn(), RowFor(txs), RowRevenueFn());
    RowsSum(Keys(txs, DateFn()), txs, DateFn(), ExpenseAmountFn(), RowFor(txs), RowExpensesFn());
    KeysSumTotal(txs, DateFn(), RevenueAmountFn());
    KeysSumTotal(txs, DateFn(), ExpenseAmountFn());
    SumOfIntPermutation(rows, s.revenueLast30Days, RowRevenueFn());
    SumOfIntPermutation(rows, s.revenueLast30Days, RowExpensesFn());
    TotalsSplitAmounts(txs);
  }

  /** Every entry is the row of a day that has a transaction, holding that
      day's revenue and expenses. */
  lemma FinancialStatsRows(txs: seq<Transaction>)
    ensures var r := FinancialStats(txs).revenueLast30Days;
      (forall k :: 0 <= k < |r| ==> exists t :: t in txs && t.date == r[k].date) &&
      (forall k :: 0 <= k < |r| ==>
        r[k].revenue == KeySum(txs, DateFn(), r[k].date, RevenueAmountFn()) &&
        r[k].expenses == KeySum(txs, DateFn(), r[k].date, ExpenseAmountFn()))
  {
    var ds := Keys(txs, DateFn());
    var rows := Map(ds, RowFor(txs));
    var r := FinancialStats(txs).revenueLast30Days;
    KeysMembers(txs, DateFn());
    forall k | 0 <= k < |r|
      ensures r[k] == RowFor(txs)(r[k].date) && r[k].date in ds
    {
      assert r[k] in multiset(rows);
    }
  }

  /** Every day that has a transaction has an entry. */
  lemma FinancialStatsCoverDays(txs: seq<Transaction>)
    ensures var r := FinancialStats(txs).revenueLast30Days;
      forall t :: t in txs ==> exists k :: 0 <= k < |r| && r[k].date == t.date
  {
    var ds := Keys(txs, DateFn());
    var rows := Map(ds, RowFor(txs));
    var r := FinancialStats(txs).revenueLast30Days;
    forall t | t in txs
      ensures exists k :: 0 <= k < |r| && r[k].date == t.date
    {
      KeysMembers(txs, DateFn());
      var j :| 0 <= j < |ds| && ds[j] == t.date;
      assert rows[j] in multiset(r);
      var k :| 0 <= k < |r| && r[k] == rows[j];
    }
  }

  /** The entries are in strictly ascending date order, so no day has two. */
  lemma FinancialStatsAscending(txs: seq<Transaction>)
    ensures var r := FinancialStats(txs).revenueLast30Days;
      forall i, j :: 0 <= i < j < |r| ==> StringLess(r[i].date, r[j].date)
  {
    var ds := Keys(txs, DateFn());
    var rows := Map(ds, RowFor(txs));
    var r := FinancialStats(txs).revenueLast30Days;
    assert NoDuplicates(rows) by {
      forall i, j | 0 <= i < j < |rows| ensures rows[i] != rows[j] {
        assert rows[i].date == ds[i] && rows[j].date == ds[j];
      }
    }
    NoDuplicatesPermutation(rows, r);
    StringLessStrictTotal();
    forall i, j | 0 <= i < j < |r| ensures StringLess(r[i].date, r[j].date) {
      assert r[i] in multiset(rows) && r[j] in multiset(rows);
      assert r[i] == RowFor(txs)(r[i].date) && r[j] == RowFor(txs)(r[j].date);
    }
  }
}
