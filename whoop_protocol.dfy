/** The WHOOP API client's token lifecycle, as functions of the session it
    holds and of the outside world. The world is three oracles: the clock,
    the OAuth token endpoint and the WHOOP resource server. Each answers
    according to its position in the trace of everything the client has done
    so far, so the same request can get different answers at different times.
    Every clock read, token request and resource request is appended to that
    trace, and the properties of the client are stated over it. */
module WhoopProtocol {
  import opened Wrappers
  import opened Js

  const BaseUrl := "https://api.whoop.com/developer"
  const AuthUrl := "https://api.whoop.com/oauth/token"
  /** A token is refreshed once the clock is within five minutes of its expiry. */
  const RefreshMarginMs := 5 * 60 * 1000
  const RefreshErrorPrefix := "Failed to refresh access token: "

  /** A JSON document as the resource server returns it. */
  datatype Json =
    | JNull
    | JBool(b: bool)
    | JNumber(n: int)
    | JString(s: string)
    | JArray(items: seq<Json>)
    | JObject(fields: map<string, Json>)

  /** An outbound GET to `BaseUrl + path` with query parameters and the
      `Authorization` header. */
  datatype HttpRequest = HttpRequest(path: string, params: seq<(string, string)>, authorization: string)

  /** What the resource server does with a request: a 2xx body, an error
      status, or a failure that produced no HTTP response at all. */
  datatype HttpReply =
    | Ok(body: Json)
    | HttpError(status: int, message: string)
    | NoResponse(message: string)

  /** The JSON body POSTed to `AuthUrl` for the refresh-token grant. */
  datatype TokenRequest = TokenRequest(grantType: string, refreshToken: string, clientId: string, clientSecret: string)

  /** What the token endpoint does: grant a token (the `refresh_token` field
      is optional), or fail. A failure carries the `error` field of the
      provider's error body when there was one, and the transport's message. */
  datatype TokenReply =
    | Granted(accessToken: string, tokenType: string, expiresIn: int, refreshToken: Option<string>)
    | Denied(providerError: Option<string>, message: string)

  datatype Event =
    | ClockRead(time: int)
    | TokenCall(grant: TokenRequest, tokenReply: TokenReply)
    | ResourceCall(sent: HttpRequest, reply: HttpReply)

  /** The world outside the client; the `nat` argument is the length of the
      trace when the question is asked. */
  datatype Oracles = Oracles(
    clock: nat -> int,
    tokenEndpoint: (nat, TokenRequest) -> TokenReply,
    resourceServer: (nat, HttpRequest) -> HttpReply)

  /** The mutable part of a client: `accessToken` (`null` is `None`),
      `tokenExpiresAt` in milliseconds and the configured refresh token. */
  datatype Session = Session(accessToken: Option<string>, expiresAt: int, refreshToken: string)

  datatype Credentials = Credentials(clientId: string, clientSecret: string)

  /** Why a request was rejected: a failed token refresh (with its message),
      or the resource server's failure passed on unchanged. */
  datatype Failure = RefreshFailed(message: string) | Rejected(reply: HttpReply)

  datatype RequestResult = Completed(body: Json) | Failed(failure: Failure) | OutOfFuel

  /** The state reached after some steps, and what those steps produced. */
  datatype Step<R> = Step(session: Session, trace: seq<Event>, result: R)

  /** One pass through both interceptors either settles the request or asks
      for it to be issued again. */
  datatype AttemptResult = Settled(outcome: RequestResult) | Reissue

  function InitialSession(refreshToken: string): Session {
    Session(None, 0, refreshToken)
  }

  /** The pre-flight test of `ensureValidToken`. */
  predicate NeedsRefresh(s: Session, now: int) {
    !Truthy(s.accessToken) || now >= s.expiresAt - RefreshMarginMs
  }

  /** The template `Bearer ${this.accessToken}`; a `null` token prints as "null". */
  function Bearer(token: Option<string>): string {
    "Bearer " + (match token case Some(t) => t case None => "null")
  }

  function GrantRequest(s: Session, c: Credentials): TokenRequest {
    TokenRequest("refresh_token", s.refreshToken, c.clientId, c.clientSecret)
  }

  /** The message of the error a failed refresh throws. */
  function RefreshError(providerError: Option<string>, message: string): (r: string)
    ensures |r| > |RefreshErrorPrefix| - 1 && r[..|RefreshErrorPrefix|] == RefreshErrorPrefix
    ensures Truthy(providerError) ==> r == RefreshErrorPrefix + providerError.value
    ensures !Truthy(providerError) ==> r == RefreshErrorPrefix + message
  {
    RefreshErrorPrefix + OrElse(providerError, message)
  }

  /** The fields after a granted refresh whose response was read at `now`. */
  function ApplyGrant(s: Session, accessToken: string, expiresIn: int, refreshToken: Option<string>, now: int): Session {
    Session(Some(accessToken), now + expiresIn * 1000,
            if Truthy(refreshToken) then refreshToken.value else s.refreshToken)
  }

  /** `refreshAccessToken`: POST the grant; on success read the clock and
      store the new token, its expiry and any new refresh token. */
  function Refresh(s: Session, c: Credentials, o: Oracles, trace: seq<Event>): Step<Outcome<string>> {
    var request := GrantRequest(s, c);
    var reply := o.tokenEndpoint(|trace|, request);
    var trace1 := trace + [TokenCall(request, reply)];
    match reply
    case Denied(providerError, message) =>
      Step(s, trace1, Fail(RefreshError(providerError, message)))
    case Granted(accessToken, _, expiresIn, refreshToken) =>
      var now := o.clock(|trace1|);
      Step(ApplyGrant(s, accessToken, expiresIn, refreshToken, now), trace1 + [ClockRead(now)], Pass)
  }

  /** `ensureValidToken`: read the clock, refresh when the token is missing,
      empty or within the margin of its expiry. */
  function EnsureValid(s: Session, c: Credentials, o: Oracles, trace: seq<Event>): Step<Outcome<string>> {
    var now := o.clock(|trace|);
    var trace1 := trace + [ClockRead(now)];
    if NeedsRefresh(s, now) then Refresh(s, c, o, trace1) else Step(s, trace1, Pass)
  }

  /** The request as the request interceptor hands it to the transport. */
  function Authorized(req: HttpRequest, token: Option<string>): HttpRequest {
    req.(authorization := Bearer(token))
  }

  /** One pass of a request through the request interceptor, the transport
      and the response interceptor. A 401 refreshes unconditionally and asks
      for the request to be issued again; any other failure is passed on. */
  function Attempt(s: Session, c: Credentials, o: Oracles, trace: seq<Event>, req: HttpRequest): Step<AttemptResult> {
    var pre := EnsureValid(s, c, o, trace);
    if pre.result.Fail? then Step(pre.session, pre.trace, Settled(Failed(RefreshFailed(pre.result.error))))
    else
      var sent := Authorized(req, pre.session.accessToken);
      var reply := o.resourceServer(|pre.trace|, sent);
      var trace1 := pre.trace + [ResourceCall(sent, reply)];
      if reply.Ok? then Step(pre.session, trace1, Settled(Completed(reply.body)))
      else if reply.HttpError? && reply.status == 401 then
        var re := Refresh(pre.session, c, o, trace1);
        if re.result.Fail? then Step(re.session, re.trace, Settled(Failed(RefreshFailed(re.result.error))))
        else Step(re.session, re.trace, Reissue)
      else Step(pre.session, trace1, Settled(Failed(Rejected(reply))))
  }

  /** `axiosInstance.request(req)`. The source re-issues after every 401 with
      no bound; `fuel` bounds the number of passes, and `OutOfFuel` is the
      outcome once they are used up. */
  function Execute(s: Session, c: Credentials, o: Oracles, trace: seq<Event>, req: HttpRequest, fuel: nat): Step<RequestResult>
    decreases fuel
  {
    if fuel == 0 then Step(s, trace, OutOfFuel)
    else
      var a := Attempt(s, c, o, trace, req);
      match a.result
      case Settled(outcome) => Step(a.session, a.trace, outcome)
      case Reissue => Execute(a.session, c, o, a.trace, req, fuel - 1)
  }

  // ---------------------------------------------------------------------
  // Resource getters.

  /** The query parameters `{ start, end }` of the collection getters. */
  function RangeParams(start: string, end: string): seq<(string, string)> {
    [("start", start), ("end", end)]
  }

  /** The `TypeError` JavaScript throws when `.records` is read from `null`. */
  const NullRecordsError := "Cannot read properties of null (reading 'records')"

  /** `response.data.records`: the `records` field of the envelope, or
      `undefined` (`None`) when the body has none; reading it from a `null`
      body throws. */
  function Records(body: Json): (r: Result<Option<Json>, string>)
    ensures r.Failure? <==> body.JNull?
    ensures r.Failure? ==> r.error == NullRecordsError
    ensures r.Success? ==> (r.value.Some? <==> body.JObject? && "records" in body.fields)
    ensures r.Success? && r.value.Some? ==> r.value.value == body.fields["records"]
  {
    match body
    case JNull => Failure(NullRecordsError)
    case JObject(fields) => Success(if "records" in fields then Some(fields["records"]) else None)
    case _ => Success(None)
  }

  /** A number in a request path, as JavaScript prints an integer. */
  function IntToString(n: int): (r: string)
    decreases if n < 0 then 1 - n else n
  {
    if n < 0 then "-" + IntToString(-n)
    else if n < 10 then [Digit(n)]
    else IntToString(n / 10) + [Digit(n % 10)]
  }

  function Digit(d: int): char
    requires 0 <= d < 10
  {
    "0123456789"[d]
  }
}
