/** `getBudgetSummary`: the accounts of a budget split into on-budget and
    off-budget lists with their totals and the net worth, and the visible
    category groups with their budgeted, activity and balance sums. The
    budget is what `getBudget` returned, or the message of its failure. */
module BudgetSummary {
  import opened Wrappers
  import opened Seqs
  import opened Money
  import opened YnabTypes

  const FailurePrefix := "Failed to get budget summary: "

  /** An account as listed; the cleared and uncleared balances are only
      given for on-budget accounts. */
  datatype AccountLine = AccountLine(
    id: string,
    name: string,
    kind: string,
    balance: int,
    balanceFormatted: Display,
    clearedBalance: Option<int>,
    unclearedBalance: Option<int>)

  datatype AccountList = AccountList(
    count: nat,
    totalBalance: int,
    totalBalanceFormatted: Display,
    accounts: seq<AccountLine>)

  datatype AccountsSummary = AccountsSummary(
    onBudget: AccountList,
    offBudget: AccountList,
    netWorth: int,
    netWorthFormatted: Display)

  datatype GroupSummary = GroupSummary(
    name: string,
    budgeted: int,
    activity: int,
    balance: int,
    categoryCount: nat,
    budgetedFormatted: Display,
    activityFormatted: Display,
    balanceFormatted: Display)

  datatype CategoryTotals = CategoryTotals(
    totalBudgeted: int,
    totalBudgetedFormatted: Display,
    totalActivity: int,
    totalActivityFormatted: Display,
    totalAvailable: int,
    totalAvailableFormatted: Display,
    groups: seq<GroupSummary>)

  datatype BudgetInfo = BudgetInfo(id: string, name: string, currency: string, currencySymbol: string, lastModified: string)

  datatype Summary = Summary(budget: BudgetInfo, accounts: AccountsSummary, categoryGroups: CategoryTotals)

  // ---------------------------------------------------------------------
  // Accounts.

  predicate Open(a: Account) { !a.closed }
  predicate IsOnBudget(a: Account) { a.onBudget }
  predicate IsOffBudget(a: Account) { !a.onBudget }
  predicate OnBudgetOpen(a: Account) { a.onBudget && !a.closed }
  predicate OffBudgetOpen(a: Account) { !a.onBudget && !a.closed }
  function Balance(a: Account): int { a.balance }

  function OnBudgetLines(accounts: seq<Account>, symbol: string): (r: seq<AccountLine>)
    ensures |r| == |accounts|
    ensures forall i :: 0 <= i < |r| ==>
              var a := accounts[i];
              r[i] == AccountLine(a.id, a.name, a.kind, a.balance, SymbolFirst(a.balance, symbol),
                                  Some(a.clearedBalance), Some(a.unclearedBalance))
  {
    if accounts == [] then []
    else
      var a := accounts[0];
      [AccountLine(a.id, a.name, a.kind, a.balance, SymbolFirst(a.balance, symbol),
                   Some(a.clearedBalance), Some(a.unclearedBalance))]
      + OnBudgetLines(accounts[1..], symbol)
  }

  function OffBudgetLines(accounts: seq<Account>, symbol: string): (r: seq<AccountLine>)
    ensures |r| == |accounts|
    ensures forall i :: 0 <= i < |r| ==>
              var a := accounts[i];
              r[i] == AccountLine(a.id, a.name, a.kind, a.balance, SymbolFirst(a.balance, symbol), None, None)
  {
    if accounts == [] then []
    else
      var a := accounts[0];
      [AccountLine(a.id, a.name, a.kind, a.balance, SymbolFirst(a.balance, symbol), None, None)]
      + OffBudgetLines(accounts[1..], symbol)
  }

  /** The account half of the summary. Closed accounts are in neither list;
      every open account is in exactly one, so the net worth is the total
      balance of the open accounts. */
  function AccountsOf(accounts: seq<Account>, symbol: string): (r: AccountsSummary)
    ensures r.onBudget.count == |Filter(accounts, OnBudgetOpen)| == |r.onBudget.accounts|
    ensures r.offBudget.count == |Filter(accounts, OffBudgetOpen)| == |r.offBudget.accounts|
    ensures r.onBudget.totalBalance == SumBy(Filter(accounts, OnBudgetOpen), Balance)
    ensures r.offBudget.totalBalance == SumBy(Filter(accounts, OffBudgetOpen), Balance)
    ensures r.netWorth == r.onBudget.totalBalance + r.offBudget.totalBalance
    ensures r.netWorth == SumBy(Filter(accounts, Open), Balance)
    ensures r.onBudget.accounts == OnBudgetLines(Filter(accounts, OnBudgetOpen), symbol)
    ensures r.offBudget.accounts == OffBudgetLines(Filter(accounts, OffBudgetOpen), symbol)
  {
    var on := Filter(accounts, OnBudgetOpen);
    var off := Filter(accounts, OffBudgetOpen);
    var totalOn := SumBy(on, Balance);
    var totalOff := SumBy(off, Balance);
    OpenAccountsPartition(accounts);
    AccountsSummary(
      AccountList(|on|, totalOn, SymbolFirst(totalOn, symbol), OnBudgetLines(on, symbol)),
      AccountList(|off|, totalOff, SymbolFirst(totalOff, symbol), OffBudgetLines(off, symbol)),
      totalOn + totalOff,
      SymbolFirst(totalOn + totalOff, symbol))
  }

  /** The on-budget and off-budget lists split the open accounts, so their
      totals add up to the total of the open accounts. */
  lemma OpenAccountsPartition(accounts: seq<Account>)
    ensures Filter(Filter(accounts, Open), IsOnBudget) == Filter(accounts, OnBudgetOpen)
    ensures Filter(Filter(accounts, Open), IsOffBudget) == Filter(accounts, OffBudgetOpen)
    ensures SumBy(Filter(accounts, OnBudgetOpen), Balance) + SumBy(Filter(accounts, OffBudgetOpen), Balance)
         == SumBy(Filter(accounts, Open), Balance)
  {
    FilterFilter(accounts, Open, IsOnBudget, OnBudgetOpen);
    FilterFilter(accounts, Open, IsOffBudget, OffBudgetOpen);
    SumByPartition(Filter(accounts, Open), IsOnBudget, IsOffBudget, Balance);
  }

  // ---------------------------------------------------------------------
  // Category groups.

  predicate VisibleGroup(g: CategoryGroup) { !g.hidden && !g.deleted }
  predicate VisibleCategory(c: Category) { !c.hidden && !c.deleted }
  function CategoryBudgeted(c: Category): int { c.budgeted }
  function CategoryActivity(c: Category): int { c.activity }
  function CategoryBalance(c: Category): int { c.balance }
  function GroupBudgeted(g: GroupSummary): int { g.budgeted }
  function GroupActivity(g: GroupSummary): int { g.activity }
  function GroupBalance(g: GroupSummary): int { g.balance }

  /** The visible categories of a group; a missing list is empty. */
  function VisibleCategories(g: CategoryGroup): seq<Category> {
    Filter(g.categories.GetOr([]), VisibleCategory)
  }

  function GroupSummaryOf(g: CategoryGroup, symbol: string): (r: GroupSummary)
    ensures r.name == g.name && r.categoryCount == |VisibleCategories(g)|
    ensures r.budgeted == SumBy(VisibleCategories(g), CategoryBudgeted)
    ensures r.activity == SumBy(VisibleCategories(g), CategoryActivity)
    ensures r.balance == SumBy(VisibleCategories(g), CategoryBalance)
  {
    var visible := VisibleCategories(g);
    var budgeted := SumBy(visible, CategoryBudgeted);
    var activity := SumBy(visible, CategoryActivity);
    var balance := SumBy(visible, CategoryBalance);
    GroupSummary(g.name, budgeted, activity, balance, |visible|,
                 SymbolFirst(budgeted, symbol), SymbolFirst(activity, symbol), SymbolFirst(balance, symbol))
  }

  /** The group summaries, one per group and in the groups' order. */
  function Summaries(groups: seq<CategoryGroup>, symbol: string): (r: seq<GroupSummary>)
    ensures |r| == |groups|
    ensures forall i :: 0 <= i < |groups| ==> r[i] == GroupSummaryOf(groups[i], symbol)
  {
    if groups == [] then []
    else Summaries(groups[..|groups| - 1], symbol) + [GroupSummaryOf(groups[|groups| - 1], symbol)]
  }

  /** The visible categories of the given groups, group after group. */
  function AllVisibleCategories(groups: seq<CategoryGroup>): seq<Category> {
    if groups == [] then []
    else AllVisibleCategories(groups[..|groups| - 1]) + VisibleCategories(groups[|groups| - 1])
  }

  /** Summing the group figures is summing over every visible category of
      the summarised groups. */
  lemma {:induction false} GroupTotalsAreCategoryTotals(groups: seq<CategoryGroup>, symbol: string)
    ensures SumBy(Summaries(groups, symbol), GroupBudgeted) == SumBy(AllVisibleCategories(groups), CategoryBudgeted)
    ensures SumBy(Summaries(groups, symbol), GroupActivity) == SumBy(AllVisibleCategories(groups), CategoryActivity)
    ensures SumBy(Summaries(groups, symbol), GroupBalance) == SumBy(AllVisibleCategories(groups), CategoryBalance)
  {
    if groups != [] {
      var init, last := groups[..|groups| - 1], groups[|groups| - 1];
      GroupTotalsAreCategoryTotals(init, symbol);
      var g := GroupSummaryOf(last, symbol);
      assert Summaries(groups, symbol) == Summaries(init, symbol) + [g];
      SumByAppend(Summaries(init, symbol), [g], GroupBudgeted);
      SumByAppend(Summaries(init, symbol), [g], GroupActivity);
      SumByAppend(Summaries(init, symbol), [g], GroupBalance);
      SumByAppend(AllVisibleCategories(init), VisibleCategories(last), CategoryBudgeted);
      SumByAppend(AllVisibleCategories(init), VisibleCategories(last), CategoryActivity);
      SumByAppend(AllVisibleCategories(init), VisibleCategories(last), CategoryBalance);
    }
  }

  // ---------------------------------------------------------------------
  // The tool.

  /** The groups that are summarised: the visible ones, a missing list
      being empty. */
  function VisibleGroups(b: Budget): seq<CategoryGroup> {
    Filter(b.categoryGroups.GetOr([]), VisibleGroup)
  }

  /** Summarises the groups in order, accumulating the three category
      totals as it goes. */
  method SummarizeGroups(visible: seq<CategoryGroup>, symbol: string)
    returns (groups: seq<GroupSummary>, totalBudgeted: int, totalActivity: int, totalAvailable: int)
    ensures groups == Summaries(visible, symbol)
    ensures totalBudgeted == SumBy(groups, GroupBudgeted)
    ensures totalActivity == SumBy(groups, GroupActivity)
    ensures totalAvailable == SumBy(groups, GroupBalance)
  {
    totalBudgeted, totalActivity, totalAvailable := 0, 0, 0;
    groups := [];
    for i := 0 to |visible|
      invariant groups == Summaries(visible[..i], symbol)
      invariant totalBudgeted == SumBy(groups, GroupBudgeted)
      invariant totalActivity == SumBy(groups, GroupActivity)
      invariant totalAvailable == SumBy(groups, GroupBalance)
    {
      var g := GroupSummaryOf(visible[i], symbol);
      totalBudgeted := totalBudgeted + g.budgeted;
      totalActivity := totalActivity + g.activity;
      totalAvailable := totalAvailable + g.balance;
      SumByAppend(groups, [g], GroupBudgeted);
      SumByAppend(groups, [g], GroupActivity);
      SumByAppend(groups, [g], GroupBalance);
      assert visible[..i + 1][..i] == visible[..i];
      groups := groups + [g];
    }
    assert visible[..|visible|] == visible;
  }

  /** `getBudgetSummary`. A failure of `getBudget` is reported with the
      tool's prefix. */
  method GetBudgetSummary(fetched: Result<BudgetDetail, string>) returns (r: Result<Summary, string>)
    ensures fetched.Failure? ==> r == Failure(FailurePrefix + fetched.error)
    ensures fetched.Success? ==> r.Success?
    ensures fetched.Success? ==>
      var b := fetched.value.budget;
      var symbol := b.currencyFormat.currencySymbol;
      && r.value.budget == BudgetInfo(b.id, b.name, b.currencyFormat.isoCode, symbol, b.lastModifiedOn)
      && r.value.accounts == AccountsOf(b.accounts.GetOr([]), symbol)
      && r.value.categoryGroups.groups == Summaries(VisibleGroups(b), symbol)
      && r.value.categoryGroups.totalBudgeted == SumBy(r.value.categoryGroups.groups, GroupBudgeted)
      && r.value.categoryGroups.totalActivity == SumBy(r.value.categoryGroups.groups, GroupActivity)
      && r.value.categoryGroups.totalAvailable == SumBy(r.value.categoryGroups.groups, GroupBalance)
  {
    if fetched.Failure? {
      return Failure(FailurePrefix + fetched.error);
    }
    var b := fetched.value.budget;
    var symbol := b.currencyFormat.currencySymbol;
    var accounts := AccountsOf(b.accounts.GetOr([]), symbol);
    var groups, totalBudgeted, totalActivity, totalAvailable := SummarizeGroups(VisibleGroups(b), symbol);
    var totals := CategoryTotals(
      totalBudgeted, SymbolFirst(totalBudgeted, symbol),
      totalActivity, SymbolFirst(totalActivity, symbol),
      totalAvailable, SymbolFirst(totalAvailable, symbol),
      groups);
    r := Success(Summary(BudgetInfo(b.id, b.name, b.currencyFormat.isoCode, symbol, b.lastModifiedOn), accounts, totals));
  }
}
