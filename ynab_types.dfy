/** The YNAB records the tools read and write. Amounts are integer
    milliunits (1000 milliunits are one unit of the budget's currency).
    Only the fields the modelled code reads are kept. */
module YnabTypes {
  import opened Wrappers

  datatype CurrencyFormat = CurrencyFormat(isoCode: string, currencySymbol: string)

  datatype Account = Account(
    id: string,
    name: string,
    kind: string,
    onBudget: bool,
    closed: bool,
    balance: int,
    clearedBalance: int,
    unclearedBalance: int,
    deleted: bool)

  /** `goalTarget` and `goalPercentageComplete` are `null` when the category
      has no goal; `groupName` is absent on the categories of a budget. */
  datatype Category = Category(
    id: string,
    groupName: Option<string>,
    name: string,
    hidden: bool,
    budgeted: int,
    activity: int,
    balance: int,
    goalType: Option<string>,
    goalTarget: Option<int>,
    goalPercentageComplete: Option<int>,
    deleted: bool)

  datatype CategoryGroup = CategoryGroup(
    id: string,
    name: string,
    hidden: bool,
    deleted: bool,
    categories: Option<seq<Category>>)

  datatype Budget = Budget(
    id: string,
    name: string,
    lastModifiedOn: string,
    currencyFormat: CurrencyFormat,
    accounts: Option<seq<Account>>,
    categoryGroups: Option<seq<CategoryGroup>>)

  datatype BudgetDetail = BudgetDetail(budget: Budget, serverKnowledge: int)

  datatype MonthDetail = MonthDetail(
    month: string,
    income: int,
    budgeted: int,
    activity: int,
    toBeBudgeted: int,
    ageOfMoney: Option<int>,
    deleted: bool,
    categories: seq<Category>)

  datatype SubTransaction = SubTransaction(id: string, amount: int, deleted: bool)

  datatype Transaction = Transaction(
    id: string,
    date: string,
    amount: int,
    memo: Option<string>,
    cleared: string,
    approved: bool,
    flagColor: Option<string>,
    accountId: string,
    accountName: string,
    payeeName: Option<string>,
    categoryName: Option<string>,
    transferAccountId: Option<string>,
    deleted: bool,
    subtransactions: Option<seq<SubTransaction>>)

  datatype TransactionsResponse = TransactionsResponse(transactions: seq<Transaction>, serverKnowledge: int)

  /** The body of a create request: the required fields and the three
      optional ones the tools may set. */
  datatype SaveTransaction = SaveTransaction(
    accountId: string,
    date: string,
    amount: int,
    payeeName: Option<string>,
    memo: Option<string>,
    categoryId: Option<string>)

  datatype SaveTransactionsResponse = SaveTransactionsResponse(
    transactionIds: seq<string>,
    transaction: Option<Transaction>,
    transactions: Option<seq<Transaction>>,
    duplicateImportIds: Option<seq<string>>,
    serverKnowledge: int)
}
