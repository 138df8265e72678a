# Verified model of the WHOOP and YNAB adapter clients

This project is a Dafny model of the two API clients of the `mcp-tools`
repository and of the four YNAB tools that reshape their data.

- **The WHOOP client** (`whoop-client.ts`) keeps an OAuth access token.
  - Before every request it checks whether the token is missing, empty or within five minutes of expiry, and refreshes it if so.
  - A refresh sends the stored refresh token to the token endpoint. It stores the new access token and its expiry, and stores a rotated refresh token in the shared configuration object.
  - When the resource server answers 401, the client refreshes unconditionally and issues the request again.
  - The collection getters return the `records` field of the response envelope.
- **The YNAB client** (`ynab-client.ts`) builds request paths from its arguments and the configured default budget. It refuses empty create requests before sending anything, and turns HTTP failures into error messages by status class.
- **The YNAB tools** cover four operations:
  - `getBudgetSummary` splits the accounts into lists and sums the visible category groups.
  - `getCategoryActivity` buckets the month's categories by group name and sums them.
  - `getRecentTransactions` filters, sorts, limits and totals the transactions.
  - `createTransaction` validates its arguments, builds the request body and reports the created record.

The model is organised as follows:

- `whoop_protocol.dfy` states the WHOOP client's behaviour as pure functions over a session (access token, expiry, refresh token) and an event trace. The trace records clock reads, token requests and resource requests with their replies.
  - The outside world is a set of oracles indexed by the position in the trace: the clock, the token endpoint and the resource server.
  - `Refresh`, `EnsureValid`, `Attempt` and `Execute` are the four steps of the client.
- `whoop_client.dfy` is the client as the source has it. It contains:
  - a `WhoopClient` class whose methods update `accessToken`, `tokenExpiresAt` and the shared `WhoopConfig.refreshToken` in place;
  - a `World` object that answers and logs every call.
  Every method is proved to do exactly what the matching function of `whoop_protocol.dfy` does, so the lemmas of `whoop_properties.dfy` apply to it.
- `whoop_properties.dfy` proves what the token handling guarantees. In every run, each outbound request carries the bearer of the token held at that moment, each grant sends the refresh token held at that moment, and every 401 is followed by a refresh. It also proves when refreshes happen and when they do not, and what a request returns.
- The YNAB side is split into five parts:
  - `ynab_types.dfy` holds the records;
  - `money.dfy` holds the two `formatMilliunits` helpers;
  - `ynab_client.dfy` holds the client;
  - one file per tool models each tool.
  The client calls a tool makes are parameters of the tool: each is either the value the call returned or the message of the error it threw.
- `seqs.dfy` and `js.dfy` hold the JavaScript semantics the code relies on:
  - `filter` and `reduce` to a sum;
  - a stable `sort` with a comparator;
  - `slice(0, n)` with a negative `n`;
  - `x || fallback` on optional strings;
  - string order.

## Two behaviours of the code worth knowing

- **Every 401 is re-issued, without bound.** The re-issued request passes through the same response interceptor again (packages/whoop-mcp/src/whoop-client.ts:44-48). So a 401 on a re-issued request triggers another refresh and another re-issue, with no limit on their number. `Execute` carries a `fuel` bound to stay total. `WhoopProperties.PersistentUnauthorizedNeverSettles` shows that under a permanent 401 with working refreshes, every pass makes a token request and the request never settles.
- **The refresh posts JSON.** The refresh request sends its four fields as a JSON body (packages/whoop-mcp/src/whoop-client.ts:71-84). Section 6 of RFC 6749 prescribes `application/x-www-form-urlencoded` for this request. The model records the grant as those four fields, whatever the encoding.

## Model

| member | source | states |
|---|---|---|
| WhoopProtocol.RefreshError | packages/whoop-mcp/src/whoop-client.ts:94-101 | A failed refresh's message is "Failed to refresh access token: " followed by the provider's `error` field when it is non-empty, else by the transport message. |
| WhoopProtocol.Records | packages/whoop-mcp/src/whoop-client.ts:130 | Reading `records` from a `null` body throws the `TypeError` JavaScript raises. Otherwise the body yields its `records` field exactly when it is an object with that field, and `undefined` when it is not. |
| WhoopProperties.RefreshFacts | packages/whoop-mcp/src/whoop-client.ts:69-102 | A refresh sends `refresh_token`, the stored refresh token, the client id and the secret. When granted, it stores the access token with expiry `t + expires_in*1000`, where `t` is the clock read after the reply. It replaces the refresh token only when a non-empty one came back. When denied, it leaves the session unchanged and reports the provider's error or the transport message. |
| WhoopProperties.RefreshTracked | packages/whoop-mcp/src/whoop-client.ts:69-102 | A refresh keeps the trace faithful: the grant carries the refresh token held, and the session afterwards is the replay of the trace. |
| WhoopProperties.EnsureValidTracked | packages/whoop-mcp/src/whoop-client.ts:58-64 | The pre-flight check keeps the trace faithful. |
| WhoopProperties.RejectedThenRefreshTracked | packages/whoop-mcp/src/whoop-client.ts:44-47 | A request sent with the token held and answered 401, followed by the forced refresh, keeps the trace faithful: the grant carries the refresh token held and the session afterwards is the replay of the trace. |
| WhoopProperties.AttemptTracked | packages/whoop-mcp/src/whoop-client.ts:34-52 | One pass through both interceptors keeps the trace faithful. Each request sent carries `Bearer` plus the token held after the pre-flight check, and each 401 is followed by a refresh. |
| WhoopProperties.AttemptEndsWithReply | packages/whoop-mcp/src/whoop-client.ts:41-52 | A pass settled by the server ends with that server reply. On success the reply is the returned body. A rejected reply is neither a success nor a 401. A pass only ever extends the trace. |
| WhoopProperties.ExecuteTracked | packages/whoop-mcp/src/whoop-client.ts:34-52 | A whole request, with every re-issue, keeps the trace faithful. The session at the end is the replay of the token replies. Every resource request carries the bearer of the token then held, every grant carries the refresh token then held, and every 401 is followed by a token request. |
| WhoopProperties.ExecuteEndsWithReply | packages/whoop-mcp/src/whoop-client.ts:41-52 | A completed request returns the body of the last response. A request rejected by the server ends with that server's non-401 failure, passed on unchanged. |
| WhoopProperties.FirstRequestRefreshes | packages/whoop-mcp/src/whoop-client.ts:18-19 | A new client, which holds no token and an expiry of 0, starts its first request with a refresh that sends the configured refresh token. |
| WhoopProperties.ProactiveRefresh | packages/whoop-mcp/src/whoop-client.ts:58-64 | A token that is missing, empty, or at or past its expiry minus 300000 ms is refreshed before the request is sent. |
| WhoopProperties.NoRedundantRefresh | packages/whoop-mcp/src/whoop-client.ts:58-64 | A present token more than five minutes from expiry is sent as it is. Unless the server answers 401, the request makes no token request, leaves the session unchanged, and returns the server's body or its rejection. |
| WhoopProperties.UnauthorizedForcesRefresh | packages/whoop-mcp/src/whoop-client.ts:41-52 | A 401 forces a refresh even when the token looks valid. A failed refresh ends the request with the refresh error. Otherwise the same request is issued again from the refreshed session. |
| WhoopProperties.ReissueAfterRefresh | packages/whoop-mcp/src/whoop-client.ts:44-48 | A pass that re-issues its request has made a token request. |
| WhoopProperties.AttemptReissuesOn401 | packages/whoop-mcp/src/whoop-client.ts:44-48 | When every resource reply is a 401 and every refresh is granted, every pass re-issues. |
| WhoopProperties.PersistentStep | packages/whoop-mcp/src/whoop-client.ts:44-48 | Under a permanent 401, one pass extends the trace by at least one token request and leaves the same request to run with one pass fewer. |
| WhoopProperties.PersistentUnauthorizedNeverSettles | packages/whoop-mcp/src/whoop-client.ts:41-52 | Under a permanent 401 with working refreshes, the request never settles: every one of the `fuel` passes makes a token request. |
| Whoop.WhoopConfig.constructor | packages/whoop-mcp/src/whoop-client.ts:17 | The configuration holds the client id, the secret and the refresh token it is given. |
| Whoop.WhoopClient.constructor | packages/whoop-mcp/src/whoop-client.ts:17-25 | A new client shares the configuration, holds no access token and has expiry 0. |
| Whoop.WhoopClient.RefreshAccessToken | packages/whoop-mcp/src/whoop-client.ts:69-102 | The in-place update of `accessToken`, `tokenExpiresAt` and `config.refreshToken`, together with the calls made, is exactly `Refresh`. |
| Whoop.WhoopClient.EnsureValidToken | packages/whoop-mcp/src/whoop-client.ts:58-64 | The pre-flight check on the object is exactly `EnsureValid`. |
| Whoop.WhoopClient.Intercept | packages/whoop-mcp/src/whoop-client.ts:34-52 | One pass through the request interceptor, the transport and the response interceptor is exactly `Attempt`. |
| Whoop.WhoopClient.Request | packages/whoop-mcp/src/whoop-client.ts:41-52 | The re-issue loop is exactly `Execute`, so every lemma about `Execute` holds for the object. |
| Whoop.WhoopClient.GetUserProfile | packages/whoop-mcp/src/whoop-client.ts:107-110 | Runs a GET of `/v1/user/profile/basic` through the interceptors and returns its body. |
| Whoop.WhoopClient.GetRecovery | packages/whoop-mcp/src/whoop-client.ts:115-118 | Runs a GET of `/v1/recovery/{cycleId}`. |
| Whoop.WhoopClient.GetSleep | packages/whoop-mcp/src/whoop-client.ts:136-139 | Runs a GET of `/v1/activity/sleep/{sleepId}`. |
| Whoop.WhoopClient.GetCycle | packages/whoop-mcp/src/whoop-client.ts:157-160 | Runs a GET of `/v1/cycle/{cycleId}`. |
| Whoop.WhoopClient.GetWorkout | packages/whoop-mcp/src/whoop-client.ts:175-178 | Runs a GET of `/v1/activity/workout/{workoutId}`. |
| Whoop.WhoopClient.GetBodyMeasurement | packages/whoop-mcp/src/whoop-client.ts:196-199 | Runs a GET of `/v1/user/measurement/body`. |
| Whoop.WhoopClient.GetCollection | packages/whoop-mcp/src/whoop-client.ts:123-131 | A collection getter sends `start` and `end` as query parameters and returns exactly the `records` field. A `null` body makes it throw a `TypeError`. It reads no `next_token`, so it does not paginate. |
| Whoop.WhoopClient.GetRecoveryCollection | packages/whoop-mcp/src/whoop-client.ts:123-131 | Sends `start` and `end` to `/v1/recovery` and returns exactly the `records` field, or `undefined` when the body has none. A `null` body throws a `TypeError`, and a failed request keeps its failure. |
| Whoop.WhoopClient.GetSleepCollection | packages/whoop-mcp/src/whoop-client.ts:144-152 | Sends `start` and `end` to `/v1/activity/sleep` and returns exactly the `records` field, or `undefined` when the body has none. A `null` body throws a `TypeError`, and a failed request keeps its failure. |
| Whoop.WhoopClient.GetCycleCollection | packages/whoop-mcp/src/whoop-client.ts:165-170 | Sends `start` and `end` to `/v1/cycle` and returns exactly the `records` field, or `undefined` when the body has none. A `null` body throws a `TypeError`, and a failed request keeps its failure. |
| Whoop.WhoopClient.GetWorkoutCollection | packages/whoop-mcp/src/whoop-client.ts:183-191 | Sends `start` and `end` to `/v1/activity/workout` and returns exactly the `records` field, or `undefined` when the body has none. A `null` body throws a `TypeError`, and a failed request keeps its failure. |
| Whoop.Unwrap | packages/whoop-mcp/src/whoop-client.ts:130 | A completed request yields its `records` field, or `undefined` when it has none. A completed request with a `null` body throws a `TypeError`. A failed one keeps its failure. |
| Money.SymbolFirst | packages/ynab-mcp/src/tools/budget-summary.ts:133-136 | The symbol comes first and a minus sign follows it exactly for negative amounts. The magnitude is the absolute amount, and the display reads back to the amount. |
| Money.SignFirst | packages/ynab-mcp/src/tools/recent-transactions.ts:91-96 | The text ends its prefix with the symbol and starts with "-" exactly for negative amounts. The magnitude is the absolute amount, and the display reads back to the amount. |
| Money.VariantsAgree | packages/ynab-mcp/src/tools/create-transaction.ts:96-101 | The two variants print the same digits. They differ only in the order of sign and symbol, and agree for non-negative amounts. |
| YnabApi.Classify | packages/ynab-mcp/src/ynab-client.ts:37-58 | Statuses are tested in the order 401, 404, 429, ≥500, other. 401 and 429 give fixed messages. The other classes get their prefix followed by the body's `error.detail`, or the transport message when there is no detail. A failure without a response is rejected unchanged. |
| YnabApi.ClassifySeparatesClasses | packages/ynab-mcp/src/ynab-client.ts:42-56 | Failures of different status classes never produce the same error. |
| YnabApi.BudgetPath | packages/ynab-mcp/src/ynab-client.ts:67 | A missing or empty budget id falls back to the configured one. |
| YnabApi.GetBudgetRequest | packages/ynab-mcp/src/ynab-client.ts:66-70 | `getBudget` is a GET of `/budgets/{id}` with the defaulted id and no query. |
| YnabApi.GetCategoriesRequest | packages/ynab-mcp/src/ynab-client.ts:77-84 | `getCategories` is a GET of `/budgets/{id}/months/{month}`, where a missing or empty month becomes "current". |
| YnabApi.TransactionParams | packages/ynab-mcp/src/ynab-client.ts:98-105 | The query has `since_date` exactly when a non-empty date is given, and `type` exactly when a non-empty type is given, with those values and no other key. |
| YnabApi.GetTransactionsRequest | packages/ynab-mcp/src/ynab-client.ts:92-112 | `getTransactions` is a GET of `/budgets/{id}/transactions` with that query: `since_date` and `type` are present exactly when given non-empty, carry the given values, and no other key is sent. |
| YnabApi.CreateTransactionRequest | packages/ynab-mcp/src/ynab-client.ts:119-137 | A missing transaction is refused with "Transaction data is required" and nothing is sent. Otherwise the transaction is posted to the budget's transactions. |
| YnabApi.DefaultBudgetId | packages/ynab-mcp/src/ynab-client.ts:167-169 | `getBudgetId` returns the configured budget, which is the budget every call without a budget id, or with an empty one, goes to. |
| YnabApi.CreateTransactionsRequest | packages/ynab-mcp/src/ynab-client.ts:144-162 | A missing or empty list is refused with "At least one transaction is required" and nothing is sent. Otherwise the list is posted. |
| BudgetSummary.OnBudgetLines | packages/ynab-mcp/src/tools/budget-summary.ts:64-72 | One line per on-budget account, in order. Each line carries its id, name, type and balance, the balance formatted with the symbol first, and its cleared and uncleared balances. |
| BudgetSummary.OffBudgetLines | packages/ynab-mcp/src/tools/budget-summary.ts:81-87 | One line per off-budget account, in order. Each line carries its id, name, type, balance and formatted balance, and neither cleared nor uncleared balance. |
| BudgetSummary.AccountsOf | packages/ynab-mcp/src/tools/budget-summary.ts:12-17 | The on-budget list holds the open on-budget accounts and the off-budget list the open off-budget ones. Their counts and totals are those of the lists, net worth is the sum of the two totals, and it equals the total balance of all open accounts. The lists are the lines of the open on-budget and open off-budget accounts. |
| BudgetSummary.OpenAccountsPartition | packages/ynab-mcp/src/tools/budget-summary.ts:13-14 | The two lists are the open accounts split by `on_budget`, so their totals add up to the total of the open accounts. |
| BudgetSummary.GroupSummaryOf | packages/ynab-mcp/src/tools/budget-summary.ts:27-45 | A group's figures are sums over its visible categories, a missing list being empty, and its count is the number of those categories. |
| BudgetSummary.Summaries | packages/ynab-mcp/src/tools/budget-summary.ts:25-46 | One summary per group, in the groups' input order. |
| BudgetSummary.GroupTotalsAreCategoryTotals | packages/ynab-mcp/src/tools/budget-summary.ts:21-37 | The totals over the group summaries equal the sums over every visible category of the visible groups. |
| BudgetSummary.SummarizeGroups | packages/ynab-mcp/src/tools/budget-summary.ts:21-46 | The accumulators updated while the groups are summarised end as the sums of the per-group figures. |
| BudgetSummary.GetBudgetSummary | packages/ynab-mcp/src/tools/budget-summary.ts:6-127 | A failed `getBudget` gives "Failed to get budget summary: " plus its message. Otherwise the summary copies the budget's identity, uses the account partition, and summarises only groups that are neither hidden nor deleted, with totals equal to the sums of the group figures. |
| CategoryActivity.DisplayOf | packages/ynab-mcp/src/tools/category-activity.ts:42-57 | A displayed category keeps its figures. Its goal target is formatted exactly when the target is neither null nor 0. |
| CategoryActivity.GroupNamesAreNonEmptyBuckets | packages/ynab-mcp/src/tools/category-activity.ts:37-42 | A name is a group exactly when some shown category falls in its bucket, so there are no empty groups. |
| CategoryActivity.GroupNamesDistinct | packages/ynab-mcp/src/tools/category-activity.ts:38-40 | Each group name occurs once. |
| CategoryActivity.BucketSumsCoverAll | packages/ynab-mcp/src/tools/category-activity.ts:30-58 | Summed over the groups, the bucket sums of any figure equal its sum over all shown categories, so every shown category lands in exactly one bucket. |
| CategoryActivity.NameOrder | packages/ynab-mcp/src/tools/category-activity.ts:75 | Ordering by name is a total preorder on categories and on groups. |
| CategoryActivity.GroupOf | packages/ynab-mcp/src/tools/category-activity.ts:61-77 | A group's sums are over its bucket, its count is the bucket's size, and its categories are the bucket reordered by name. |
| CategoryActivity.GroupList | packages/ynab-mcp/src/tools/category-activity.ts:61 | One group per bucket name, in the order the names first appear. |
| CategoryActivity.TotalsCoverShownCategories | packages/ynab-mcp/src/tools/category-activity.ts:79-81 | The overall totals equal the sums over all categories that are neither deleted nor hidden, and the group counts add up to their number. |
| CategoryActivity.BuildCategoryMap | packages/ynab-mcp/src/tools/category-activity.ts:30-58 | The loop skips deleted and hidden categories and puts each other one in the bucket of its group name, "Unknown" when that name is missing or empty. It creates a bucket when its name is first met, and ends with exactly the specified buckets in first-appearance order. |
| CategoryActivity.MonthSummaryOf | packages/ynab-mcp/src/tools/category-activity.ts:85-95 | Income, budgeted, activity, to-be-budgeted and age of money are copied unchanged. |
| CategoryActivity.GroupsFromMap | packages/ynab-mcp/src/tools/category-activity.ts:61-77 | One group per map entry, in insertion order. |
| CategoryActivity.GetCategoryActivity | packages/ynab-mcp/src/tools/category-activity.ts:6-114 | A failed `getCategories`, or else a failed `getBudget`, gives "Failed to get category activity: " plus its message. Otherwise the groups are those of the buckets, sorted by name, and the totals are sums over the groups. |
| RecentTransactions.BeforeIsTotalPreorder | packages/ynab-mcp/src/tools/recent-transactions.ts:22-27 | The comparator (date descending, then absolute amount descending) is a total preorder, so the sort orders the list. |
| RecentTransactions.EffectiveLimit | packages/ynab-mcp/src/tools/recent-transactions.ts:30 | `limit || 20`: a missing or zero limit is 20, and any other limit is kept. |
| RecentTransactions.Selected | packages/ynab-mcp/src/tools/recent-transactions.ts:20-31 | The shown transactions are a prefix of the sorted live transactions. There are min(limit, live count) of them, and for a negative limit that many fewer than the live count. |
| RecentTransactions.SelectedOrder | packages/ynab-mcp/src/tools/recent-transactions.ts:21-27 | The shown transactions are not deleted and run from newest to oldest date, with larger absolute amounts first on the same date. |
| RecentTransactions.LineOf | packages/ynab-mcp/src/tools/recent-transactions.ts:34-50 | A missing or empty payee shows as "Unknown" and a missing or empty category as "Uncategorized". `isTransfer` holds exactly when there is a transfer account, and the subtransaction count is the list's length. |
| RecentTransactions.Lines | packages/ynab-mcp/src/tools/recent-transactions.ts:34 | One line per shown transaction, in order. |
| RecentTransactions.NetIsSum | packages/ynab-mcp/src/tools/recent-transactions.ts:53-59 | Inflow sums the positive amounts and outflow the absolute negative ones. Both are non-negative, and inflow minus outflow is the sum of all shown amounts. |
| RecentTransactions.GetRecentTransactions | packages/ynab-mcp/src/tools/recent-transactions.ts:6-85 | A failed `getTransactions`, or else a failed `getBudget`, gives "Failed to get recent transactions: " plus its message. Otherwise it shows the selected lines. The available count is the number of live transactions, and a missing date reads "all time". The totals are over the shown transactions, with net equal to their sum. |
| CreateTransaction.MatchesPointwise | packages/ynab-mcp/src/tools/create-transaction.ts:29 | An anchored pattern without repetition matches exactly the strings of its length that match position by position. |
| CreateTransaction.DatePatternShape | packages/ynab-mcp/src/tools/create-transaction.ts:29-32 | A date passes exactly when it is ten characters: ASCII digits, except for "-" at positions 4 and 7. |
| CreateTransaction.NoCalendarCheck | packages/ynab-mcp/src/tools/create-transaction.ts:29-32 | There is no calendar check: any four digits, "-", two digits, "-", two digits pass, so "2024-13-45" is accepted. |
| CreateTransaction.Validate | packages/ynab-mcp/src/tools/create-transaction.ts:18-32 | The checks run in the order `account_id`, `date`, `amount`, date format, and the first failure gives its message. An amount of 0 passes. |
| CreateTransaction.SaveTransactionFor | packages/ynab-mcp/src/tools/create-transaction.ts:35-50 | The body holds the account, date and amount verbatim. Payee, memo and category are present exactly when given non-empty. |
| CreateTransaction.BuildTransaction | packages/ynab-mcp/src/tools/create-transaction.ts:35-50 | Setting the optional fields in place yields that body. |
| CreateTransaction.CreatedLineOf | packages/ynab-mcp/src/tools/create-transaction.ts:65-76 | The created record shows "Unknown" for a missing or empty payee and "Uncategorized" for a missing or empty category, and its formatted amount reads back to the amount. |
| CreateTransaction.CreateTransaction | packages/ynab-mcp/src/tools/create-transaction.ts:16-90 | A failed check sends nothing. Otherwise the body goes to the default budget, and `getBudget` follows only a successful create. A reply without a transaction gives "Transaction was created but no transaction data was returned". Every error carries "Failed to create transaction: ". Duplicate import ids default to the empty list. |

## Left out

- HTTP transport, axios and its interceptor machinery, JSON encoding and `JSON.stringify` of the tools' output are not modelled. Requests and replies are values, and the tools return the structured value they would stringify.
- Concurrency is left out: the `Promise.all` fan-out and two requests racing to refresh the same token. Every model runs one request at a time.
- `Date.now()` is the clock oracle, read where the code reads it.
- The digits of `formatMilliunits` (`toFixed(2)` on a double) are left out. A formatted amount is its prefix (symbol and sign) and its magnitude in milliunits.
- `localeCompare` is modelled as lexicographic order on character codes, not a locale collation.
- Whoop.WhoopClient.Request: the number of re-issues after 401 is bounded by `fuel`, because the source has no bound. `OutOfFuel` stands for a request that has not settled after `fuel` passes.
- WhoopProtocol.RefreshError: only failures that carry a provider `error` field or a transport message are modelled. A non-axios exception re-thrown unchanged from the refresh is not.
- The `Authorization` header the YNAB client sends (`Bearer` plus the personal access token) and `Content-Type` headers are constant and not modelled.
- In `getRecentTransactions`, a non-integer limit (which `slice` truncates) and a `NaN` limit are not modelled. `isTransfer` compares with `null` only, so an absent `transfer_account_id` is taken to be `null`.
- The resource bodies of the WHOOP getters are opaque JSON values. The response types are declarations only.
- The WHOOP tools (sleep, recovery, strain, overview, healthspan) are not modelled: their content is floating-point averaging and unit conversion.
- Both `index.ts` servers, the environment and configuration loading, and the tests are not part of this model.
