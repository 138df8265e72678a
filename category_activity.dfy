/** `getCategoryActivity`: the month's visible categories bucketed by group
    name, each group with its sums and its categories in name order, the
    groups in name order, overall totals and the month's own figures. The
    month and the budget are what `getCategories` and `getBudget` returned,
    or the message of their failure. */
module CategoryActivity {
  import opened Wrappers
  import opened Js
  import opened Seqs
  import opened Money
  import opened YnabTypes

  const FailurePrefix := "Failed to get category activity: "
  const UnknownGroup := "Unknown"

  datatype CategoryDisplay = CategoryDisplay(
    id: string,
    name: string,
    budgeted: int,
    budgetedFormatted: Display,
    activity: int,
    activityFormatted: Display,
    balance: int,
    balanceFormatted: Display,
    goalType: Option<string>,
    goalTarget: Option<int>,
    goalTargetFormatted: Option<Display>,
    goalPercentageComplete: Option<int>)

  datatype GroupActivity = GroupActivity(
    name: string,
    budgeted: int,
    budgetedFormatted: Display,
    activity: int,
    activityFormatted: Display,
    balance: int,
    balanceFormatted: Display,
    categoryCount: nat,
    categories: seq<CategoryDisplay>)

  datatype MonthSummary = MonthSummary(
    income: int,
    incomeFormatted: Display,
    budgeted: int,
    budgetedFormatted: Display,
    activity: int,
    activityFormatted: Display,
    toBeBudgeted: int,
    toBeBudgetedFormatted: Display,
    ageOfMoney: Option<int>)

  datatype Totals = Totals(
    budgeted: int,
    budgetedFormatted: Display,
    activity: int,
    activityFormatted: Display,
    balance: int,
    balanceFormatted: Display)

  datatype Analysis = Analysis(month: string, monthSummary: MonthSummary, totals: Totals, categoryGroups: seq<GroupActivity>)

  /** A category that is neither deleted nor hidden. */
  predicate Shown(c: Category) { !c.deleted && !c.hidden }

  /** The bucket a category goes to: its group name, or "Unknown". */
  function GroupNameOf(c: Category): string {
    OrElse(c.groupName, UnknownGroup)
  }

  /** A category as displayed. The goal target is formatted only when it is
      a non-zero number. */
  function DisplayOf(c: Category, symbol: string): (d: CategoryDisplay)
    ensures d.id == c.id && d.name == c.name && d.goalTarget == c.goalTarget
    ensures d.budgeted == c.budgeted && d.activity == c.activity && d.balance == c.balance
    ensures d.goalTargetFormatted.None? <==> c.goalTarget.None? || c.goalTarget.value == 0
    ensures d.goalTargetFormatted.Some? ==> ReadBack(d.goalTargetFormatted.value, symbol, false) == c.goalTarget.value
  {
    var goal := if c.goalTarget.Some? && c.goalTarget.value != 0 then Some(SymbolFirst(c.goalTarget.value, symbol)) else None;
    CategoryDisplay(c.id, c.name,
      c.budgeted, SymbolFirst(c.budgeted, symbol),
      c.activity, SymbolFirst(c.activity, symbol),
      c.balance, SymbolFirst(c.balance, symbol),
      c.goalType, c.goalTarget, goal, c.goalPercentageComplete)
  }

  function DisplayBudgeted(d: CategoryDisplay): int { d.budgeted }
  function DisplayActivity(d: CategoryDisplay): int { d.activity }
  function DisplayBalance(d: CategoryDisplay): int { d.balance }
  function DisplayOne(d: CategoryDisplay): int { 1 }
  function CategoryBudgeted(c: Category): int { c.budgeted }
  function CategoryActivity(c: Category): int { c.activity }
  function CategoryBalance(c: Category): int { c.balance }
  function GroupBudgeted(g: GroupActivity): int { g.budgeted }
  function GroupActivitySum(g: GroupActivity): int { g.activity }
  function GroupBalance(g: GroupActivity): int { g.balance }
  function GroupCount(g: GroupActivity): int { g.categoryCount }

  /** `a.name.localeCompare(b.name) <= 0`. */
  predicate NameLe(a: CategoryDisplay, b: CategoryDisplay) { StrLe(a.name, b.name) }
  predicate GroupNameLe(a: GroupActivity, b: GroupActivity) { StrLe(a.name, b.name) }

  // ---------------------------------------------------------------------
  // The grouping, as a specification.

  /** The displays of the shown categories whose bucket is `name`, in input order. */
  function Bucket(cats: seq<Category>, name: string, symbol: string): seq<CategoryDisplay> {
    if cats == [] then []
    else
      var c := cats[|cats| - 1];
      Bucket(cats[..|cats| - 1], name, symbol) + (if Shown(c) && GroupNameOf(c) == name then [DisplayOf(c, symbol)] else [])
  }

  /** The bucket names in order of first appearance among the shown categories. */
  function GroupNames(cats: seq<Category>): seq<string> {
    if cats == [] then []
    else
      var c := cats[|cats| - 1];
      var names := GroupNames(cats[..|cats| - 1]);
      if Shown(c) && GroupNameOf(c) !in names then names + [GroupNameOf(c)] else names
  }

  /** The displays of all shown categories, in input order. */
  function AllDisplays(cats: seq<Category>, symbol: string): seq<CategoryDisplay> {
    if cats == [] then []
    else
      var c := cats[|cats| - 1];
      AllDisplays(cats[..|cats| - 1], symbol) + (if Shown(c) then [DisplayOf(c, symbol)] else [])
  }

  ghost predicate Distinct(s: seq<string>) {
    forall i, j :: 0 <= i < j < |s| ==> s[i] != s[j]
  }

  /** A name is a group exactly when its bucket is not empty: there are no
      empty groups and no category outside the groups. */
  lemma {:induction false} GroupNamesAreNonEmptyBuckets(cats: seq<Category>, name: string, symbol: string)
    ensures name in GroupNames(cats) <==> Bucket(cats, name, symbol) != []
  {
    if cats != [] {
      GroupNamesAreNonEmptyBuckets(cats[..|cats| - 1], name, symbol);
    }
  }

  lemma {:induction false} GroupNamesDistinct(cats: seq<Category>)
    ensures Distinct(GroupNames(cats))
  {
    if cats != [] {
      GroupNamesDistinct(cats[..|cats| - 1]);
    }
  }

  /** Sum over the named buckets of the sum of `f` over each. */
  function BucketSums(names: seq<string>, cats: seq<Category>, symbol: string, f: CategoryDisplay -> int): int {
    if names == [] then 0
    else BucketSums(names[..|names| - 1], cats, symbol, f) + SumBy(Bucket(cats, names[|names| - 1], symbol), f)
  }

  /** One more category adds its display to its own bucket and to no other. */
  lemma {:induction false} BucketSumsStep(names: seq<string>, cats: seq<Category>, c: Category, symbol: string, f: CategoryDisplay -> int)
    requires Distinct(names)
    ensures BucketSums(names, cats + [c], symbol, f)
         == BucketSums(names, cats, symbol, f) + (if Shown(c) && GroupNameOf(c) in names then f(DisplayOf(c, symbol)) else 0)
  {
    if names != [] {
      var init, m := names[..|names| - 1], names[|names| - 1];
      assert names == init + [m];
      BucketSumsStep(init, cats, c, symbol, f);
      assert (cats + [c])[..|cats + [c]| - 1] == cats;
      SumByAppend(Bucket(cats, m, symbol), if Shown(c) && GroupNameOf(c) == m then [DisplayOf(c, symbol)] else [], f);
    }
  }

  /** Every shown category is counted in exactly one bucket. */
  lemma {:induction false} BucketSumsCoverAll(cats: seq<Category>, symbol: string, f: CategoryDisplay -> int)
    ensures BucketSums(GroupNames(cats), cats, symbol, f) == SumBy(AllDisplays(cats, symbol), f)
  {
    if cats != [] {
      var init, c := cats[..|cats| - 1], cats[|cats| - 1];
      assert cats == init + [c];
      BucketSumsCoverAll(init, symbol, f);
      GroupNamesDistinct(init);
      BucketSumsStep(GroupNames(init), init, c, symbol, f);
      SumByAppend(AllDisplays(init, symbol), if Shown(c) then [DisplayOf(c, symbol)] else [], f);
      if Shown(c) && GroupNameOf(c) !in GroupNames(init) {
        NewBucket(init, c, symbol, f);
      } else {
        assert GroupNames(cats) == GroupNames(init);
      }
    }
  }

  /** A category whose group name is new opens a bucket holding just it. */
  lemma NewBucket(init: seq<Category>, c: Category, symbol: string, f: CategoryDisplay -> int)
    requires Shown(c) && GroupNameOf(c) !in GroupNames(init)
    ensures BucketSums(GroupNames(init + [c]), init + [c], symbol, f)
         == BucketSums(GroupNames(init), init + [c], symbol, f) + f(DisplayOf(c, symbol))
  {
    var cats, name, names := init + [c], GroupNameOf(c), GroupNames(init);
    var d := DisplayOf(c, symbol);
    assert cats[..|cats| - 1] == init;
    assert GroupNames(cats) == names + [name];
    assert (names + [name])[..|names|] == names;
    assert BucketSums(names + [name], cats, symbol, f) == BucketSums(names, cats, symbol, f) + SumBy(Bucket(cats, name, symbol), f);
    GroupNamesAreNonEmptyBuckets(init, name, symbol);
    assert Bucket(cats, name, symbol) == Bucket(init, name, symbol) + [d] == [d];
    assert SumBy([d], f) == f(d) + SumBy([d][1..], f);
  }

  /** The displays carry the categories' figures. */
  lemma {:induction false} AllDisplaysSum(cats: seq<Category>, symbol: string, f: CategoryDisplay -> int, g: Category -> int)
    requires forall c :: f(DisplayOf(c, symbol)) == g(c)
    ensures SumBy(AllDisplays(cats, symbol), f) == SumBy(Filter(cats, Shown), g)
  {
    if cats != [] {
      var init, c := cats[..|cats| - 1], cats[|cats| - 1];
      assert cats == init + [c];
      AllDisplaysSum(init, symbol, f, g);
      FilterAppend(init, [c], Shown);
      SumByAppend(AllDisplays(init, symbol), if Shown(c) then [DisplayOf(c, symbol)] else [], f);
      SumByAppend(Filter(init, Shown), Filter([c], Shown), g);
    }
  }

  lemma {:induction false} SumByOne(ds: seq<CategoryDisplay>)
    ensures SumBy(ds, DisplayOne) == |ds|
  {
    if ds != [] {
      SumByOne(ds[1..]);
    }
  }

  // ---------------------------------------------------------------------
  // Groups.

  lemma NameOrder()
    ensures TotalPreorder(NameLe)
    ensures TotalPreorder(GroupNameLe)
  {
    forall a: CategoryDisplay, b: CategoryDisplay ensures NameLe(a, b) || NameLe(b, a) {
      StrLeTotal(a.name, b.name);
    }
    forall a: CategoryDisplay, b: CategoryDisplay, c: CategoryDisplay | NameLe(a, b) && NameLe(b, c) ensures NameLe(a, c) {
      StrLeTransitive(a.name, b.name, c.name);
    }
    forall a: GroupActivity, b: GroupActivity ensures GroupNameLe(a, b) || GroupNameLe(b, a) {
      StrLeTotal(a.name, b.name);
    }
    forall a: GroupActivity, b: GroupActivity, c: GroupActivity | GroupNameLe(a, b) && GroupNameLe(b, c) ensures GroupNameLe(a, c) {
      StrLeTransitive(a.name, b.name, c.name);
    }
  }

  /** A group: its sums are taken over its bucket, and its categories are
      the bucket in name order. */
  function GroupOf(name: string, bucket: seq<CategoryDisplay>, symbol: string): (g: GroupActivity)
    ensures g.name == name && g.categoryCount == |bucket|
    ensures g.budgeted == SumBy(bucket, DisplayBudgeted)
    ensures g.activity == SumBy(bucket, DisplayActivity)
    ensures g.balance == SumBy(bucket, DisplayBalance)
    ensures multiset(g.categories) == multiset(bucket) && SortedBy(g.categories, NameLe)
  {
    NameOrder();
    SortBySorted(bucket, NameLe);
    var budgeted := SumBy(bucket, DisplayBudgeted);
    var activity := SumBy(bucket, DisplayActivity);
    var balance := SumBy(bucket, DisplayBalance);
    GroupActivity(name, budgeted, SymbolFirst(budgeted, symbol), activity, SymbolFirst(activity, symbol),
                  balance, SymbolFirst(balance, symbol), |bucket|, SortBy(bucket, NameLe))
  }

  /** The groups of the named buckets, in the order of the names. */
  function GroupList(names: seq<string>, cats: seq<Category>, symbol: string): (r: seq<GroupActivity>)
    ensures |r| == |names|
    ensures forall i :: 0 <= i < |names| ==> r[i] == GroupOf(names[i], Bucket(cats, names[i], symbol), symbol)
  {
    if names == [] then []
    else
      var last := names[|names| - 1];
      GroupList(names[..|names| - 1], cats, symbol) + [GroupOf(last, Bucket(cats, last, symbol), symbol)]
  }

  lemma {:induction false} GroupListSums(names: seq<string>, cats: seq<Category>, symbol: string)
    ensures SumBy(GroupList(names, cats, symbol), GroupBudgeted) == BucketSums(names, cats, symbol, DisplayBudgeted)
    ensures SumBy(GroupList(names, cats, symbol), GroupActivitySum) == BucketSums(names, cats, symbol, DisplayActivity)
    ensures SumBy(GroupList(names, cats, symbol), GroupBalance) == BucketSums(names, cats, symbol, DisplayBalance)
    ensures SumBy(GroupList(names, cats, symbol), GroupCount) == BucketSums(names, cats, symbol, DisplayOne)
  {
    if names != [] {
      var init, last := names[..|names| - 1], names[|names| - 1];
      GroupListSums(init, cats, symbol);
      var g := GroupOf(last, Bucket(cats, last, symbol), symbol);
      SumByAppend(GroupList(init, cats, symbol), [g], GroupBudgeted);
      SumByAppend(GroupList(init, cats, symbol), [g], GroupActivitySum);
      SumByAppend(GroupList(init, cats, symbol), [g], GroupBalance);
      SumByAppend(GroupList(init, cats, symbol), [g], GroupCount);
      SumByOne(Bucket(cats, last, symbol));
    }
  }

  /** The overall totals, taken over the groups, are the sums over every
      shown category of the month; the group sizes add up to the number of
      shown categories, so each lands in exactly one group. */
  lemma TotalsCoverShownCategories(cats: seq<Category>, symbol: string)
    ensures var groups := GroupList(GroupNames(cats), cats, symbol);
      && SumBy(groups, GroupBudgeted) == SumBy(Filter(cats, Shown), CategoryBudgeted)
      && SumBy(groups, GroupActivitySum) == SumBy(Filter(cats, Shown), CategoryActivity)
      && SumBy(groups, GroupBalance) == SumBy(Filter(cats, Shown), CategoryBalance)
      && SumBy(groups, GroupCount) == |Filter(cats, Shown)|
  {
    GroupListSums(GroupNames(cats), cats, symbol);
    BucketSumsCoverAll(cats, symbol, DisplayBudgeted);
    BucketSumsCoverAll(cats, symbol, DisplayActivity);
    BucketSumsCoverAll(cats, symbol, DisplayBalance);
    BucketSumsCoverAll(cats, symbol, DisplayOne);
    AllDisplaysSum(cats, symbol, DisplayBudgeted, CategoryBudgeted);
    AllDisplaysSum(cats, symbol, DisplayActivity, CategoryActivity);
    AllDisplaysSum(cats, symbol, DisplayBalance, CategoryBalance);
    var one := (c: Category) => 1;
    AllDisplaysSum(cats, symbol, DisplayOne, one);
    SumByOneCount(Filter(cats, Shown), one);
  }

  lemma {:induction false} SumByOneCount(s: seq<Category>, one: Category -> int)
    requires forall c :: one(c) == 1
    ensures SumBy(s, one) == |s|
  {
    if s != [] {
      SumByOneCount(s[1..], one);
    }
  }

  // ---------------------------------------------------------------------
  // The tool.

  /** Fills the bucket map in one pass over the categories, creating a
      bucket the first time its name is met. The map's insertion order is
      kept in `order`. */
  method BuildCategoryMap(cats: seq<Category>, symbol: string)
    returns (order: seq<string>, categoryMap: map<string, seq<CategoryDisplay>>)
    ensures order == GroupNames(cats)
    ensures forall n :: n in categoryMap <==> n in order
    ensures forall n :: n in categoryMap ==> categoryMap[n] == Bucket(cats, n, symbol)
  {
    order, categoryMap := [], map[];
    for i := 0 to |cats|
      invariant order == GroupNames(cats[..i])
      invariant forall n :: n in categoryMap <==> n in order
      invariant forall n :: n in categoryMap ==> categoryMap[n] == Bucket(cats[..i], n, symbol)
    {
      var category := cats[i];
      assert cats[..i + 1] == cats[..i] + [category];
      assert cats[..i + 1][..i] == cats[..i];
      if category.deleted || category.hidden {
        continue;
      }
      var groupName := OrElse(category.groupName, UnknownGroup);
      if groupName !in categoryMap {
        GroupNamesAreNonEmptyBuckets(cats[..i], groupName, symbol);
        categoryMap := categoryMap[groupName := []];
        order := order + [groupName];
      }
      categoryMap := categoryMap[groupName := categoryMap[groupName] + [DisplayOf(category, symbol)]];
    }
    assert cats[..|cats|] == cats;
  }

  function MonthSummaryOf(m: MonthDetail, symbol: string): (s: MonthSummary)
    ensures s.income == m.income && s.budgeted == m.budgeted && s.activity == m.activity
    ensures s.toBeBudgeted == m.toBeBudgeted && s.ageOfMoney == m.ageOfMoney
  {
    MonthSummary(m.income, SymbolFirst(m.income, symbol), m.budgeted, SymbolFirst(m.budgeted, symbol),
                 m.activity, SymbolFirst(m.activity, symbol), m.toBeBudgeted, SymbolFirst(m.toBeBudgeted, symbol),
                 m.ageOfMoney)
  }

  /** `getCategoryActivity`. The month is fetched first; a failure of
      either call is reported with the tool's prefix. */
  method GetCategoryActivity(monthFetched: Result<MonthDetail, string>, budgetFetched: Result<BudgetDetail, string>)
    returns (r: Result<Analysis, string>)
    ensures monthFetched.Failure? ==> r == Failure(FailurePrefix + monthFetched.error)
    ensures monthFetched.Success? && budgetFetched.Failure? ==> r == Failure(FailurePrefix + budgetFetched.error)
    ensures monthFetched.Success? && budgetFetched.Success? ==> r.Success?
    ensures monthFetched.Success? && budgetFetched.Success? ==>
      var m := monthFetched.value;
      var symbol := budgetFetched.value.budget.currencyFormat.currencySymbol;
      var groups := GroupList(GroupNames(m.categories), m.categories, symbol);
      && r.value.month == m.month
      && r.value.monthSummary == MonthSummaryOf(m, symbol)
      && r.value.totals.budgeted == SumBy(groups, GroupBudgeted)
      && r.value.totals.activity == SumBy(groups, GroupActivitySum)
      && r.value.totals.balance == SumBy(groups, GroupBalance)
      && r.value.categoryGroups == SortBy(groups, GroupNameLe)
      && SortedBy(r.value.categoryGroups, GroupNameLe)
  {
    if monthFetched.Failure? {
      return Failure(FailurePrefix + monthFetched.error);
    }
    if budgetFetched.Failure? {
      return Failure(FailurePrefix + budgetFetched.error);
    }
    var m := monthFetched.value;
    var symbol := budgetFetched.value.budget.currencyFormat.currencySymbol;
    var order, categoryMap := BuildCategoryMap(m.categories, symbol);
    var groups := GroupsFromMap(order, categoryMap, symbol);
    assert groups == GroupList(GroupNames(m.categories), m.categories, symbol);
    var totalBudgeted := SumBy(groups, GroupBudgeted);
    var totalActivity := SumBy(groups, GroupActivitySum);
    var totalBalance := SumBy(groups, GroupBalance);
    NameOrder();
    SortBySorted(groups, GroupNameLe);
    r := Success(Analysis(
      m.month,
      MonthSummaryOf(m, symbol),
      Totals(totalBudgeted, SymbolFirst(totalBudgeted, symbol), totalActivity, SymbolFirst(totalActivity, symbol),
             totalBalance, SymbolFirst(totalBalance, symbol)),
      SortBy(groups, GroupNameLe)));
  }

  /** `Array.from(categoryMap.entries()).map(...)`: one group per entry, in
      insertion order. */
  function GroupsFromMap(order: seq<string>, categoryMap: map<string, seq<CategoryDisplay>>, symbol: string): (r: seq<GroupActivity>)
    requires forall n :: n in order ==> n in categoryMap
    ensures |r| == |order|
    ensures forall i :: 0 <= i < |order| ==> r[i] == GroupOf(order[i], categoryMap[order[i]], symbol)
  {
    if order == [] then []
    else
      var last := order[|order| - 1];
      GroupsFromMap(order[..|order| - 1], categoryMap, symbol) + [GroupOf(last, categoryMap[last], symbol)]
  }
}
