/** `createTransaction`: argument checks in a fixed order, the
    `YYYY-MM-DD` pattern test, the request body with its optional fields,
    and the report built from the created record. The YNAB server is given
    as the answers it makes to the create request and to `getBudget`; the
    requests the tool sends are returned, so that the absence of a request
    can be stated. */
module CreateTransaction {
  import opened Wrappers
  import opened Js
  import opened Money
  import opened YnabTypes
  import opened YnabApi

  const FailurePrefix := "Failed to create transaction: "
  const NoDataMessage := "Transaction was created but no transaction data was returned"
  const CreatedMessage := "Transaction created successfully"

  // ---------------------------------------------------------------------
  // The date pattern `/^\d{4}-\d{2}-\d{2}$/`.

  /** One position of an anchored pattern: an ASCII digit, or a literal. */
  datatype Atom = AnyDigit | Literal(c: char)

  predicate IsDigit(ch: char) { '0' <= ch <= '9' }

  /** The pattern with its counted repetitions written out. */
  const DatePattern: seq<Atom> := [AnyDigit, AnyDigit, AnyDigit, AnyDigit, Literal('-'), AnyDigit, AnyDigit, Literal('-'), AnyDigit, AnyDigit]

  predicate AtomMatches(a: Atom, ch: char) {
    match a
    case AnyDigit => IsDigit(ch)
    case Literal(c) => ch == c
  }

  /** `s` matches the whole pattern, from its first to its last character. */
  predicate Matches(p: seq<Atom>, s: string) {
    if p == [] then s == []
    else s != [] && AtomMatches(p[0], s[0]) && Matches(p[1..], s[1..])
  }

  /** An anchored pattern without repetition matches position by position. */
  lemma {:induction false} MatchesPointwise(p: seq<Atom>, s: string)
    ensures Matches(p, s) <==> |s| == |p| && forall i :: 0 <= i < |p| ==> AtomMatches(p[i], s[i])
  {
    if p != [] && s != [] {
      MatchesPointwise(p[1..], s[1..]);
      if |s| == |p| && forall i :: 0 <= i < |p| ==> AtomMatches(p[i], s[i]) {
        forall i | 0 <= i < |p[1..]| ensures AtomMatches(p[1..][i], s[1..][i]) {
          assert AtomMatches(p[i + 1], s[i + 1]);
        }
      }
      if Matches(p, s) {
        forall i | 0 <= i < |p| ensures AtomMatches(p[i], s[i]) {
          if i > 0 {
            assert AtomMatches(p[1..][i - 1], s[1..][i - 1]);
          }
        }
      }
    }
  }

  /** The pattern holds exactly for ten characters, digits except for the
      dashes at positions 4 and 7. */
  lemma DatePatternShape(s: string)
    ensures Matches(DatePattern, s) <==>
      && |s| == 10 && s[4] == '-' && s[7] == '-'
      && forall i :: 0 <= i < 10 && i != 4 && i != 7 ==> IsDigit(s[i])
  {
    MatchesPointwise(DatePattern, s);
    forall i | 0 <= i < 10
      ensures DatePattern[i] == (if i == 4 || i == 7 then Literal('-') else AnyDigit)
    {
    }
  }

  predicate AllDigits(s: string) {
    forall i :: 0 <= i < |s| ==> IsDigit(s[i])
  }

  /** There is no calendar check: any two digits pass as month and as day,
      so "2024-13-45" is accepted. */
  lemma NoCalendarCheck(year: string, month: string, day: string)
    requires |year| == 4 && |month| == 2 && |day| == 2
    requires AllDigits(year) && AllDigits(month) && AllDigits(day)
    ensures Matches(DatePattern, year + "-" + month + "-" + day)
  {
    var s := year + "-" + month + "-" + day;
    DatePatternShape(s);
    forall i | 0 <= i < 10 && i != 4 && i != 7
      ensures IsDigit(s[i])
    {
      if i < 4 {
        assert s[i] == year[i];
      } else if i < 7 {
        assert s[i] == month[i - 5];
      } else {
        assert s[i] == day[i - 8];
      }
    }
  }

  // ---------------------------------------------------------------------
  // Validation and the request body.

  /** The checks, in the order they are made; the first that fails gives
      the error. An amount of 0 is accepted. */
  function Validate(accountId: Option<string>, date: Option<string>, amount: Option<int>): (r: Outcome<string>)
    ensures r.Pass? <==> Truthy(accountId) && Truthy(date) && amount.Some? && Matches(DatePattern, date.value)
    ensures !Truthy(accountId) ==> r == Fail("account_id is required")
    ensures Truthy(accountId) && !Truthy(date) ==> r == Fail("date is required")
    ensures Truthy(accountId) && Truthy(date) && amount.None? ==> r == Fail("amount is required")
    ensures Truthy(accountId) && Truthy(date) && amount.Some? && !Matches(DatePattern, date.value)
            ==> r == Fail("date must be in YYYY-MM-DD format")
  {
    if !Truthy(accountId) then Fail("account_id is required")
    else if !Truthy(date) then Fail("date is required")
    else if amount.None? then Fail("amount is required")
    else if !Matches(DatePattern, date.value) then Fail("date must be in YYYY-MM-DD format")
    else Pass
  }

  /** The body the tool sends: the required fields verbatim, and each
      optional field only when it is a non-empty string. */
  function SaveTransactionFor(accountId: string, date: string, amount: int,
                              payeeName: Option<string>, memo: Option<string>, categoryId: Option<string>)
    : (t: SaveTransaction)
    ensures t.accountId == accountId && t.date == date && t.amount == amount
    ensures t.payeeName.Some? <==> Truthy(payeeName)
    ensures t.memo.Some? <==> Truthy(memo)
    ensures t.categoryId.Some? <==> Truthy(categoryId)
    ensures t.payeeName.Some? ==> t.payeeName == payeeName
    ensures t.memo.Some? ==> t.memo == memo
    ensures t.categoryId.Some? ==> t.categoryId == categoryId
  {
    SaveTransaction(accountId, date, amount,
      if Truthy(payeeName) then payeeName else None,
      if Truthy(memo) then memo else None,
      if Truthy(categoryId) then categoryId else None)
  }

  /** Builds the body as the tool does: the required fields first, then
      each optional field set in place when it is given. */
  method BuildTransaction(accountId: string, date: string, amount: int,
                          payeeName: Option<string>, memo: Option<string>, categoryId: Option<string>)
    returns (t: SaveTransaction)
    ensures t == SaveTransactionFor(accountId, date, amount, payeeName, memo, categoryId)
  {
    t := SaveTransaction(accountId, date, amount, None, None, None);
    if Truthy(payeeName) {
      t := t.(payeeName := payeeName);
    }
    if Truthy(memo) {
      t := t.(memo := memo);
    }
    if Truthy(categoryId) {
      t := t.(categoryId := categoryId);
    }
  }

  // ---------------------------------------------------------------------
  // The tool.

  /** The server's answers: to a create request with a given body, and to
      `getBudget`. */
  datatype Server = Server(
    create: SaveTransaction -> Result<SaveTransactionsResponse, string>,
    budget: Result<BudgetDetail, string>)

  datatype CreatedLine = CreatedLine(
    id: string,
    date: string,
    amount: int,
    amountFormatted: Display,
    payee: string,
    category: string,
    account: string,
    memo: Option<string>,
    cleared: string,
    approved: bool)

  datatype Created = Created(success: bool, message: string, transaction: CreatedLine, duplicateImportIds: seq<string>)

  function CreatedLineOf(t: Transaction, symbol: string): (l: CreatedLine)
    ensures l.id == t.id && l.date == t.date && l.amount == t.amount
    ensures l.payee == (if Truthy(t.payeeName) then t.payeeName.value else "Unknown")
    ensures l.category == (if Truthy(t.categoryName) then t.categoryName.value else "Uncategorized")
    ensures ReadBack(l.amountFormatted, symbol, true) == t.amount
  {
    CreatedLine(t.id, t.date, t.amount, SignFirst(t.amount, symbol),
                OrElse(t.payeeName, "Unknown"), OrElse(t.categoryName, "Uncategorized"),
                t.accountName, t.memo, t.cleared, t.approved)
  }

  /** `createTransaction`. Nothing is sent unless every check passes; then
      the create request goes out, and `getBudget` only after it succeeded.
      Every failure carries the tool's prefix. */
  method CreateTransaction(config: YnabConfig, server: Server,
                           accountId: Option<string>, date: Option<string>, amount: Option<int>,
                           payeeName: Option<string>, memo: Option<string>, categoryId: Option<string>)
    returns (r: Result<Created, string>, sent: seq<Request>)
    ensures var v := Validate(accountId, date, amount);
      v.Fail? ==> sent == [] && r == Failure(FailurePrefix + v.error)
    ensures Validate(accountId, date, amount).Pass? ==>
      var t := SaveTransactionFor(accountId.value, date.value, amount.value, payeeName, memo, categoryId);
      var post := PostOne(BudgetPath(config, None) + "/transactions", t);
      var budget := GetBudgetRequest(config, None);
      && (server.create(t).Failure? ==> sent == [post] && r == Failure(FailurePrefix + server.create(t).error))
      && (server.create(t).Success? ==> sent == [post, budget])
      && (server.create(t).Success? && server.budget.Failure? ==> r == Failure(FailurePrefix + server.budget.error))
      && (server.create(t).Success? && server.budget.Success? && server.create(t).value.transaction.None?
          ==> r == Failure(FailurePrefix + NoDataMessage))
      && (server.create(t).Success? && server.budget.Success? && server.create(t).value.transaction.Some?
          ==> var response := server.create(t).value;
              var symbol := server.budget.value.budget.currencyFormat.currencySymbol;
              r == Success(Created(true, CreatedMessage, CreatedLineOf(response.transaction.value, symbol),
                                   response.duplicateImportIds.GetOr([]))))
  {
    sent := [];
    var v := Validate(accountId, date, amount);
    if v.Fail? {
      return Failure(FailurePrefix + v.error), sent;
    }
    var t := BuildTransaction(accountId.value, date.value, amount.value, payeeName, memo, categoryId);
    var request := CreateTransactionRequest(config, None, Some(t));
    sent := sent + [request.value];
    var response := server.create(t);
    if response.Failure? {
      return Failure(FailurePrefix + response.error), sent;
    }
    sent := sent + [GetBudgetRequest(config, None)];
    if server.budget.Failure? {
      return Failure(FailurePrefix + server.budget.error), sent;
    }
    var symbol := server.budget.value.budget.currencyFormat.currencySymbol;
    var created := response.value.transaction;
    if created.None? {
      return Failure(FailurePrefix + NoDataMessage), sent;
    }
    r := Success(Created(true, CreatedMessage, CreatedLineOf(created.value, symbol),
                         response.value.duplicateImportIds.GetOr([])));
  }
}
