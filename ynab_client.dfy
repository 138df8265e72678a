/** The YNAB API client: the requests it builds from its arguments and the
    configured default budget, the guards it applies before sending, and the
    response interceptor that turns HTTP failures into error messages. The
    transport itself is not modelled: a request is described by a value. */
module YnabApi {
  import opened Wrappers
  import opened Js
  import opened YnabTypes

  /** The client's configuration: a personal access token, sent as
      `Authorization: Bearer <token>` on every request, and the default budget. */
  datatype YnabConfig = YnabConfig(accessToken: string, budgetId: string)

  datatype Request =
    | Get(path: string, params: map<string, string>)
    | PostOne(path: string, transaction: SaveTransaction)
    | PostMany(path: string, transactions: seq<SaveTransaction>)

  // ---------------------------------------------------------------------
  // Error classification.

  /** A failed request as the response interceptor sees it: with an HTTP
      response (its status and the `error.detail` of its body, if any), or
      without one. `message` is the transport's own message. */
  datatype ApiFailure =
    | HttpStatus(status: int, detail: Option<string>, message: string)
    | NoResponse(message: string)

  /** What the interceptor rejects with: a new error with a message, or the
      original failure unchanged. */
  datatype ClientError = Thrown(message: string) | Rethrown(failure: ApiFailure)

  const UnauthorizedMessage := "Invalid or expired access token. " + "Please check your YNAB_ACCESS_TOKEN."
  const NotFoundPrefix := "Resource not found: "
  const RateLimitMessage := "Rate limit exceeded. " + "YNAB API allows 200 requests per hour."
  const ServerErrorPrefix := "YNAB API server error: "
  const ApiErrorPrefix := "YNAB API error: "

  /** The response interceptor. Statuses are tested in the order 401, 404,
      429, at least 500, anything else; the three prefixed messages carry the
      body's detail, or the transport message when there is none. */
  function Classify(f: ApiFailure): (e: ClientError)
    ensures f.NoResponse? <==> e.Rethrown?
    ensures f.NoResponse? ==> e.failure == f
    ensures f.HttpStatus? && f.status == 401 ==> e == Thrown(UnauthorizedMessage)
    ensures f.HttpStatus? && f.status == 404 ==> e == Thrown(NotFoundPrefix + OrElse(f.detail, f.message))
    ensures f.HttpStatus? && f.status == 429 ==> e == Thrown(RateLimitMessage)
    ensures f.HttpStatus? && f.status >= 500 ==> e == Thrown(ServerErrorPrefix + OrElse(f.detail, f.message))
    ensures f.HttpStatus? && f.status !in {401, 404, 429} && f.status < 500 ==> e == Thrown(ApiErrorPrefix + OrElse(f.detail, f.message))
  {
    match f
    case NoResponse(_) => Rethrown(f)
    case HttpStatus(status, detail, message) =>
      var text := OrElse(detail, message);
      if status == 401 then Thrown(UnauthorizedMessage)
      else if status == 404 then Thrown(NotFoundPrefix + text)
      else if status == 429 then Thrown(RateLimitMessage)
      else if status >= 500 then Thrown(ServerErrorPrefix + text)
      else Thrown(ApiErrorPrefix + text)
  }

  /** The message a caller sees when it catches the client's error. */
  function ErrorMessage(e: ClientError): string {
    match e
    case Thrown(message) => message
    case Rethrown(failure) => failure.message
  }

  /** The five status classes of the interceptor. */
  datatype StatusClass = Unauthorized | NotFound | RateLimited | ServerError | OtherError

  function ClassOf(status: int): StatusClass {
    if status == 401 then Unauthorized
    else if status == 404 then NotFound
    else if status == 429 then RateLimited
    else if status >= 500 then ServerError
    else OtherError
  }

  /** Characters of the message that identify its status class. */
  lemma ClassMarks(f: ApiFailure)
    requires f.HttpStatus?
    ensures var m := Classify(f).message;
      && (ClassOf(f.status) == Unauthorized ==> m[0] == 'I')
      && (ClassOf(f.status) == NotFound ==> m[0] == 'R' && m[1] == 'e')
      && (ClassOf(f.status) == RateLimited ==> m[0] == 'R' && m[1] == 'a')
      && (ClassOf(f.status) == ServerError ==> m[0] == 'Y' && m[9] == 's')
      && (ClassOf(f.status) == OtherError ==> m[0] == 'Y' && m[9] == 'e')
  {
    var text := OrElse(f.detail, f.message);
    match ClassOf(f.status)
    case Unauthorized =>
      assert Classify(f).message == UnauthorizedMessage;
    case NotFound =>
      assert Classify(f).message == NotFoundPrefix + text;
    case RateLimited =>
      assert Classify(f).message == RateLimitMessage;
    case ServerError =>
      assert Classify(f).message == ServerErrorPrefix + text;
    case OtherError =>
      assert Classify(f).message == ApiErrorPrefix + text;
  }

  /** The message alone tells which class a failed status fell in: failures
      of different classes never produce the same error. */
  lemma ClassifySeparatesClasses(f: ApiFailure, g: ApiFailure)
    requires f.HttpStatus? && g.HttpStatus?
    requires ClassOf(f.status) != ClassOf(g.status)
    ensures Classify(f) != Classify(g)
  {
    ClassMarks(f);
    ClassMarks(g);
  }

  // ---------------------------------------------------------------------
  // Requests.

  function BudgetPath(c: YnabConfig, budgetId: Option<string>): (p: string)
    ensures Truthy(budgetId) ==> p == "/budgets/" + budgetId.value
    ensures !Truthy(budgetId) ==> p == "/budgets/" + c.budgetId
  {
    "/budgets/" + OrElse(budgetId, c.budgetId)
  }

  /** `getBudget`: a missing or empty id means the configured budget. */
  function GetBudgetRequest(c: YnabConfig, budgetId: Option<string>): (r: Request)
    ensures r.Get? && r.params == map[]
    ensures r.path == BudgetPath(c, budgetId)
  {
    Get(BudgetPath(c, budgetId), map[])
  }

  /** `getCategories`: a missing or empty month means "current". */
  function GetCategoriesRequest(c: YnabConfig, budgetId: Option<string>, month: Option<string>): (r: Request)
    ensures r.Get? && r.params == map[]
    ensures Truthy(month) ==> r.path == BudgetPath(c, budgetId) + "/months/" + month.value
    ensures !Truthy(month) ==> r.path == BudgetPath(c, budgetId) + "/months/current"
  {
    Get(BudgetPath(c, budgetId) + "/months/" + OrElse(month, "current"), map[])
  }

  /** The query of `getTransactions`, filled in place: each filter is sent
      only when it is a non-empty string. */
  method TransactionParams(sinceDate: Option<string>, kind: Option<string>) returns (params: map<string, string>)
    ensures params.Keys <= {"since_date", "type"}
    ensures "since_date" in params <==> Truthy(sinceDate)
    ensures "since_date" in params ==> params["since_date"] == sinceDate.value
    ensures "type" in params <==> Truthy(kind)
    ensures "type" in params ==> params["type"] == kind.value
  {
    params := map[];
    if Truthy(sinceDate) {
      params := params["since_date" := sinceDate.value];
    }
    if Truthy(kind) {
      params := params["type" := kind.value];
    }
  }

  method GetTransactionsRequest(c: YnabConfig, budgetId: Option<string>, sinceDate: Option<string>, kind: Option<string>)
    returns (r: Request)
    ensures r.Get? && r.path == BudgetPath(c, budgetId) + "/transactions"
    ensures "since_date" in r.params <==> Truthy(sinceDate)
    ensures "since_date" in r.params ==> r.params["since_date"] == sinceDate.value
    ensures "type" in r.params <==> Truthy(kind)
    ensures "type" in r.params ==> r.params["type"] == kind.value
    ensures r.params.Keys <= {"since_date", "type"}
  {
    var params := TransactionParams(sinceDate, kind);
    r := Get(BudgetPath(c, budgetId) + "/transactions", params);
  }

  /** `createTransaction`: a missing transaction is refused before anything
      is sent. */
  function CreateTransactionRequest(c: YnabConfig, budgetId: Option<string>, transaction: Option<SaveTransaction>)
    : (r: Result<Request, string>)
    ensures transaction.None? <==> r.Failure?
    ensures transaction.None? ==> r.error == "Transaction data is required"
    ensures transaction.Some? ==> r.value == PostOne(BudgetPath(c, budgetId) + "/transactions", transaction.value)
  {
    match transaction
    case None => Failure("Transaction data is required")
    case Some(t) => Success(PostOne(BudgetPath(c, budgetId) + "/transactions", t))
  }

  /** `createTransactions`: a missing or empty list is refused before
      anything is sent. */
  function CreateTransactionsRequest(c: YnabConfig, budgetId: Option<string>, transactions: Option<seq<SaveTransaction>>)
    : (r: Result<Request, string>)
    ensures r.Failure? <==> transactions.None? || transactions.value == []
    ensures r.Failure? ==> r.error == "At least one transaction is required"
    ensures r.Success? ==> r.value == PostMany(BudgetPath(c, budgetId) + "/transactions", transactions.value)
  {
    if transactions.None? || |transactions.value| == 0 then Failure("At least one transaction is required")
    else Success(PostMany(BudgetPath(c, budgetId) + "/transactions", transactions.value))
  }

  /** `getBudgetId`: the budget that every call without a budget id goes to. */
  function DefaultBudgetId(c: YnabConfig): (id: string)
    ensures BudgetPath(c, None) == "/budgets/" + id
    ensures BudgetPath(c, Some("")) == "/budgets/" + id
  {
    c.budgetId
  }
}
