/** `getRecentTransactions`: the live transactions, newest first (ties by
    larger absolute amount), cut to the limit, with per-record defaults and
    inflow, outflow and net totals over what is shown. The transactions and
    the budget are what `getTransactions` and `getBudget` returned, or the
    message of their failure. */
module RecentTransactions {
  import opened Wrappers
  import opened Js
  import opened Seqs
  import opened Money
  import opened YnabTypes

  const FailurePrefix := "Failed to get recent transactions: "
  const DefaultLimit := 20

  datatype TransactionLine = TransactionLine(
    id: string,
    date: string,
    amount: int,
    amountFormatted: Display,
    payee: string,
    category: string,
    account: string,
    memo: Option<string>,
    cleared: string,
    approved: bool,
    flagColor: Option<string>,
    isTransfer: bool,
    transferAccount: Option<string>,
    hasSubtransactions: Option<bool>,
    subtransactionCount: nat)

  datatype ReportSummary = ReportSummary(
    transactionCount: nat,
    totalShown: nat,
    totalAvailable: nat,
    sinceDate: string,
    limit: int,
    totalInflow: int,
    totalInflowFormatted: Display,
    totalOutflow: int,
    totalOutflowFormatted: Display,
    netAmount: int,
    netAmountFormatted: Display)

  datatype Report = Report(summary: ReportSummary, transactions: seq<TransactionLine>)

  predicate Live(t: Transaction) { !t.deleted }
  predicate Inflow(t: Transaction) { t.amount > 0 }
  predicate Outflow(t: Transaction) { t.amount < 0 }
  function Amount(t: Transaction): int { t.amount }
  function AbsAmount(t: Transaction): int { Abs(t.amount) }

  /** The comparator `(a, b) => b.date.localeCompare(a.date) ||
      |b.amount| - |a.amount|` is at most 0. */
  predicate Before(a: Transaction, b: Transaction) {
    StrLt(b.date, a.date) || (a.date == b.date && Abs(a.amount) >= Abs(b.amount))
  }

  lemma BeforeIsTotalPreorder()
    ensures TotalPreorder(Before)
  {
    forall a: Transaction, b: Transaction ensures Before(a, b) || Before(b, a) {
      StrLeTotal(a.date, b.date);
    }
    forall a: Transaction, b: Transaction, c: Transaction | Before(a, b) && Before(b, c) ensures Before(a, c) {
      if a.date != b.date && b.date != c.date {
        StrLeTransitive(c.date, b.date, a.date);
        if c.date == a.date {
          StrLeAntisymmetric(a.date, b.date);
        }
      }
    }
  }

  /** `limit || 20`: a missing or zero limit means 20. */
  function EffectiveLimit(limit: Option<int>): (n: int)
    ensures limit.None? || limit.value == 0 ==> n == DefaultLimit
    ensures limit.Some? && limit.value != 0 ==> n == limit.value
  {
    if limit.None? || limit.value == 0 then DefaultLimit else limit.value
  }

  /** The transactions shown: the live ones, sorted, then `slice(0, limit)`.
      They are a prefix of the sorted live transactions, as many as the limit
      allows. */
  function Selected(transactions: seq<Transaction>, limit: Option<int>): (r: seq<Transaction>)
    ensures var live := Filter(transactions, Live);
      && r <= SortBy(live, Before)
      && (EffectiveLimit(limit) >= 0 ==> |r| == (if EffectiveLimit(limit) < |live| then EffectiveLimit(limit) else |live|))
      && (EffectiveLimit(limit) < 0 ==> |r| == (if -EffectiveLimit(limit) < |live| then |live| + EffectiveLimit(limit) else 0))
  {
    SliceTo(SortBy(Filter(transactions, Live), Before), EffectiveLimit(limit))
  }

  /** What is shown is live, and in date-descending order with larger
      absolute amounts first on the same date. */
  lemma SelectedOrder(transactions: seq<Transaction>, limit: Option<int>)
    ensures var r := Selected(transactions, limit);
      && (forall i :: 0 <= i < |r| ==> !r[i].deleted)
      && (forall i, j :: 0 <= i < j < |r| ==> StrLe(r[j].date, r[i].date))
      && (forall i, j :: 0 <= i < j < |r| && r[i].date == r[j].date ==> Abs(r[i].amount) >= Abs(r[j].amount))
  {
    var live := Filter(transactions, Live);
    var sorted := SortBy(live, Before);
    var r := Selected(transactions, limit);
    SortedByDate(live);
    forall i | 0 <= i < |r| ensures !r[i].deleted {
      assert r[i] == sorted[i];
      assert sorted[i] in multiset(live);
    }
    forall i, j | 0 <= i < j < |r|
      ensures StrLe(r[j].date, r[i].date)
      ensures r[i].date == r[j].date ==> Abs(r[i].amount) >= Abs(r[j].amount)
    {
      assert r[i] == sorted[i] && r[j] == sorted[j];
      assert Before(r[i], r[j]);
      StrLeTotal(r[j].date, r[i].date);
    }
  }

  lemma SortedByDate(s: seq<Transaction>)
    ensures SortedBy(SortBy(s, Before), Before)
  {
    BeforeIsTotalPreorder();
    SortBySorted(s, Before);
  }

  /** A shown record: a missing payee is "Unknown", a missing category
      "Uncategorized"; a record is a transfer exactly when it names a
      transfer account. */
  function LineOf(t: Transaction, symbol: string): (l: TransactionLine)
    ensures l.id == t.id && l.date == t.date && l.amount == t.amount
    ensures l.payee == (if Truthy(t.payeeName) then t.payeeName.value else "Unknown")
    ensures l.category == (if Truthy(t.categoryName) then t.categoryName.value else "Uncategorized")
    ensures l.isTransfer <==> t.transferAccountId.Some?
    ensures l.subtransactionCount == (if t.subtransactions.Some? then |t.subtransactions.value| else 0)
    ensures l.hasSubtransactions.Some? <==> t.subtransactions.Some?
    ensures l.hasSubtransactions == Some(true) <==> l.subtransactionCount > 0
    ensures ReadBack(l.amountFormatted, symbol, true) == t.amount
  {
    TransactionLine(
      t.id, t.date, t.amount, SignFirst(t.amount, symbol),
      OrElse(t.payeeName, "Unknown"), OrElse(t.categoryName, "Uncategorized"),
      t.accountName, t.memo, t.cleared, t.approved, t.flagColor,
      t.transferAccountId.Some?, t.transferAccountId,
      if t.subtransactions.Some? then Some(|t.subtransactions.value| > 0) else None,
      if t.subtransactions.Some? then |t.subtransactions.value| else 0)
  }

  function Lines(ts: seq<Transaction>, symbol: string): (r: seq<TransactionLine>)
    ensures |r| == |ts|
    ensures forall i :: 0 <= i < |ts| ==> r[i] == LineOf(ts[i], symbol)
  {
    seq(|ts|, i requires 0 <= i < |ts| => LineOf(ts[i], symbol))
  }

  /** Inflow minus outflow is the sum of the amounts: zero amounts count
      in neither, and both totals are non-negative. */
  lemma {:induction false} NetIsSum(ts: seq<Transaction>)
    ensures SumBy(Filter(ts, Inflow), Amount) >= 0 && SumBy(Filter(ts, Outflow), AbsAmount) >= 0
    ensures SumBy(Filter(ts, Inflow), Amount) - SumBy(Filter(ts, Outflow), AbsAmount) == SumBy(ts, Amount)
  {
    if ts != [] {
      NetIsSum(ts[1..]);
      SumByAppend(if Inflow(ts[0]) then [ts[0]] else [], Filter(ts[1..], Inflow), Amount);
      SumByAppend(if Outflow(ts[0]) then [ts[0]] else [], Filter(ts[1..], Outflow), AbsAmount);
    }
  }

  /** `getRecentTransactions`. The transactions are fetched first; a
      failure of either call is reported with the tool's prefix. */
  function GetRecentTransactions(
    fetched: Result<TransactionsResponse, string>,
    budgetFetched: Result<BudgetDetail, string>,
    sinceDate: Option<string>,
    limit: Option<int>): (r: Result<Report, string>)
    ensures fetched.Failure? ==> r == Failure(FailurePrefix + fetched.error)
    ensures fetched.Success? && budgetFetched.Failure? ==> r == Failure(FailurePrefix + budgetFetched.error)
    ensures fetched.Success? && budgetFetched.Success? ==> r.Success?
    ensures fetched.Success? && budgetFetched.Success? ==>
      var shown := Selected(fetched.value.transactions, limit);
      var symbol := budgetFetched.value.budget.currencyFormat.currencySymbol;
      && r.value.transactions == Lines(shown, symbol)
      && r.value.summary.transactionCount == r.value.summary.totalShown == |shown|
      && r.value.summary.totalAvailable == |Filter(fetched.value.transactions, Live)|
      && r.value.summary.sinceDate == (if Truthy(sinceDate) then sinceDate.value else "all time")
      && r.value.summary.limit == EffectiveLimit(limit)
      && r.value.summary.totalInflow == SumBy(Filter(shown, Inflow), Amount) >= 0
      && r.value.summary.totalOutflow == SumBy(Filter(shown, Outflow), AbsAmount) >= 0
      && r.value.summary.netAmount == SumBy(shown, Amount)
  {
    if fetched.Failure? then Failure(FailurePrefix + fetched.error)
    else if budgetFetched.Failure? then Failure(FailurePrefix + budgetFetched.error)
    else
      var symbol := budgetFetched.value.budget.currencyFormat.currencySymbol;
      var shown := Selected(fetched.value.transactions, limit);
      var lines := Lines(shown, symbol);
      var inflow := SumBy(Filter(shown, Inflow), Amount);
      var outflow := SumBy(Filter(shown, Outflow), AbsAmount);
      NetIsSum(shown);
      Success(Report(
        ReportSummary(
          |lines|, |lines|, |Filter(fetched.value.transactions, Live)|,
          OrElse(sinceDate, "all time"), EffectiveLimit(limit),
          inflow, SignFirst(inflow, symbol),
          outflow, SignFirst(outflow, symbol),
          inflow - outflow, SignFirst(inflow - outflow, symbol)),
        lines))
  }
}
