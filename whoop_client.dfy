/** The WHOOP API client object: the configuration it shares with its
    creator, the token fields its methods update in place, and the resource
    getters. Every method is proved to do exactly what the functions of
    `WhoopProtocol` say, so the lemmas of `WhoopProperties` apply to it. */
module Whoop {
  import opened Wrappers
  import opened Js
  import opened WhoopProtocol

  /** The credentials object handed to the constructor. The client keeps a
      reference to it and overwrites `refreshToken` when a refresh returns a
      new one, so the creator sees the rotation too. */
  class WhoopConfig {
    const clientId: string
    const clientSecret: string
    var refreshToken: string

    constructor (clientId: string, clientSecret: string, refreshToken: string)
      ensures this.clientId == clientId && this.clientSecret == clientSecret
      ensures this.refreshToken == refreshToken
    {
      this.clientId := clientId;
      this.clientSecret := clientSecret;
      this.refreshToken := refreshToken;
    }
  }

  /** The clock, the token endpoint and the resource server, answering as
      `oracles` says and logging every call in `trace`. */
  class World {
    const oracles: Oracles
    var trace: seq<Event>

    constructor (oracles: Oracles)
      ensures this.oracles == oracles && trace == []
    {
      this.oracles := oracles;
      trace := [];
    }

    /** `Date.now()`. */
    method Now() returns (t: int)
      modifies this
      ensures t == oracles.clock(|old(trace)|)
      ensures trace == old(trace) + [ClockRead(t)]
    {
      t := oracles.clock(|trace|);
      trace := trace + [ClockRead(t)];
    }

    /** `axios.post(authURL, grant)`. */
    method PostToken(grant: TokenRequest) returns (reply: TokenReply)
      modifies this
      ensures reply == oracles.tokenEndpoint(|old(trace)|, grant)
      ensures trace == old(trace) + [TokenCall(grant, reply)]
    {
      reply := oracles.tokenEndpoint(|trace|, grant);
      trace := trace + [TokenCall(grant, reply)];
    }

    /** The transport under `axiosInstance`. */
    method Send(request: HttpRequest) returns (reply: HttpReply)
      modifies this
      ensures reply == oracles.resourceServer(|old(trace)|, request)
      ensures trace == old(trace) + [ResourceCall(request, reply)]
    {
      reply := oracles.resourceServer(|trace|, request);
      trace := trace + [ResourceCall(request, reply)];
    }
  }

  /** What a collection getter returns: the `records` field of the envelope
      (`None` when the body has no such field), the request's failure, or the
      `TypeError` thrown by reading `records` from a `null` body. */
  datatype CollectionResult =
    | Listed(records: Option<Json>)
    | ListFailed(failure: Failure)
    | ListThrew(message: string)
    | ListOutOfFuel

  /** `response.data.records` applied to the outcome of a request. */
  function Unwrap(r: RequestResult): (c: CollectionResult)
    ensures c.Listed? <==> r.Completed? && !r.body.JNull?
    ensures c.Listed? ==> (c.records.Some? <==> r.body.JObject? && "records" in r.body.fields)
    ensures c.Listed? && c.records.Some? ==> c.records.value == r.body.fields["records"]
    ensures c.ListThrew? <==> r.Completed? && r.body.JNull?
    ensures c.ListThrew? ==> c.message == NullRecordsError
    ensures r.Failed? <==> c.ListFailed?
    ensures r.Failed? ==> c.failure == r.failure
    ensures r.OutOfFuel? <==> c.ListOutOfFuel?
  {
    match r
    case Completed(body) =>
      (match Records(body)
       case Success(records) => Listed(records)
       case Failure(e) => ListThrew(e))
    case Failed(failure) => ListFailed(failure)
    case OutOfFuel => ListOutOfFuel
  }

  /** A GET of `path` as the getters issue it, before the request
      interceptor adds the `Authorization` header. */
  function Get(path: string, params: seq<(string, string)>): HttpRequest {
    HttpRequest(path, params, "")
  }

  class WhoopClient {
    const config: WhoopConfig
    var accessToken: Option<string>
    var tokenExpiresAt: int

    /** A new client holds no token and an expiry of 0. */
    constructor (config: WhoopConfig)
      ensures this.config == config
      ensures accessToken == None && tokenExpiresAt == 0
      ensures Current() == InitialSession(config.refreshToken)
    {
      this.config := config;
      accessToken := None;
      tokenExpiresAt := 0;
    }

    function Current(): WhoopProtocol.Session
      reads this, config
    {
      WhoopProtocol.Session(accessToken, tokenExpiresAt, config.refreshToken)
    }

    function Keys(): Credentials {
      Credentials(config.clientId, config.clientSecret)
    }

    /** `refreshAccessToken`. */
    method RefreshAccessToken(world: World) returns (r: Outcome<string>)
      modifies this, config, world
      ensures Step(Current(), world.trace, r) == Refresh(old(Current()), Keys(), world.oracles, old(world.trace))
    {
      var grant := TokenRequest("refresh_token", config.refreshToken, config.clientId, config.clientSecret);
      var reply := world.PostToken(grant);
      match reply
      case Denied(providerError, message) =>
        r := Fail(RefreshError(providerError, message));
      case Granted(token, _, expiresIn, newRefreshToken) =>
        accessToken := Some(token);
        var now := world.Now();
        tokenExpiresAt := now + expiresIn * 1000;
        if Truthy(newRefreshToken) {
          config.refreshToken := newRefreshToken.value;
        }
        r := Pass;
    }

    /** `ensureValidToken`. */
    method EnsureValidToken(world: World) returns (r: Outcome<string>)
      modifies this, config, world
      ensures Step(Current(), world.trace, r) == EnsureValid(old(Current()), Keys(), world.oracles, old(world.trace))
    {
      var now := world.Now();
      if !Truthy(accessToken) || now >= tokenExpiresAt - RefreshMarginMs {
        r := RefreshAccessToken(world);
      } else {
        r := Pass;
      }
    }

    /** One pass through the request interceptor, the transport and the
      response interceptor. */
    method Intercept(req: HttpRequest, world: World) returns (a: AttemptResult)
      modifies this, config, world
      ensures Step(Current(), world.trace, a) == Attempt(old(Current()), Keys(), world.oracles, old(world.trace), req)
    {
      var pre := EnsureValidToken(world);
      if pre.Fail? {
        return Settled(Failed(RefreshFailed(pre.error)));
      }
      var reply := world.Send(req.(authorization := Bearer(accessToken)));
      if reply.Ok? {
        return Settled(Completed(reply.body));
      }
      if reply.HttpError? && reply.status == 401 {
        var re := RefreshAccessToken(world);
        if re.Fail? {
          return Settled(Failed(RefreshFailed(re.error)));
        }
        return Reissue;
      }
      return Settled(Failed(Rejected(reply)));
    }

    /** `axiosInstance.request(req)`, re-issued after each 401 until it
      settles or `fuel` passes have been made. */
    method Request(req: HttpRequest, fuel: nat, world: World) returns (r: RequestResult)
      modifies this, config, world
      ensures Step(Current(), world.trace, r) == Execute(old(Current()), Keys(), world.oracles, old(world.trace), req, fuel)
    {
      var left: nat := fuel;
      while left > 0
        invariant left <= fuel
        invariant Execute(old(Current()), Keys(), world.oracles, old(world.trace), req, fuel)
               == Execute(Current(), Keys(), world.oracles, world.trace, req, left)
        decreases left
      {
        ghost var before, beforeTrace := Current(), world.trace;
        var a := Intercept(req, world);
        assert Attempt(before, Keys(), world.oracles, beforeTrace, req) == Step(Current(), world.trace, a);
        if a.Settled? {
          return a.outcome;
        }
        left := left - 1;
      }
      r := OutOfFuel;
    }

    method GetUserProfile(fuel: nat, world: World) returns (r: RequestResult)
      modifies this, config, world
      ensures Step(Current(), world.trace, r)
           == Execute(old(Current()), Keys(), world.oracles, old(world.trace), Get("/v1/user/profile/basic", []), fuel)
    {
      r := Request(Get("/v1/user/profile/basic", []), fuel, world);
    }

    method GetRecovery(cycleId: int, fuel: nat, world: World) returns (r: RequestResult)
      modifies this, config, world
      ensures Step(Current(), world.trace, r)
           == Execute(old(Current()), Keys(), world.oracles, old(world.trace), Get("/v1/recovery/" + IntToString(cycleId), []), fuel)
    {
      r := Request(Get("/v1/recovery/" + IntToString(cycleId), []), fuel, world);
    }

    method GetSleep(sleepId: int, fuel: nat, world: World) returns (r: RequestResult)
      modifies this, config, world
      ensures Step(Current(), world.trace, r)
           == Execute(old(Current()), Keys(), world.oracles, old(world.trace), Get("/v1/activity/sleep/" + IntToString(sleepId), []), fuel)
    {
      r := Request(Get("/v1/activity/sleep/" + IntToString(sleepId), []), fuel, world);
    }

    method GetCycle(cycleId: int, fuel: nat, world: World) returns (r: RequestResult)
      modifies this, config, world
      ensures Step(Current(), world.trace, r)
           == Execute(old(Current()), Keys(), world.oracles, old(world.trace), Get("/v1/cycle/" + IntToString(cycleId), []), fuel)
    {
      r := Request(Get("/v1/cycle/" + IntToString(cycleId), []), fuel, world);
    }

    method GetWorkout(workoutId: int, fuel: nat, world: World) returns (r: RequestResult)
      modifies this, config, world
      ensures Step(Current(), world.trace, r)
           == Execute(old(Current()), Keys(), world.oracles, old(world.trace), Get("/v1/activity/workout/" + IntToString(workoutId), []), fuel)
    {
      r := Request(Get("/v1/activity/workout/" + IntToString(workoutId), []), fuel, world);
    }

    method GetBodyMeasurement(fuel: nat, world: World) returns (r: RequestResult)
      modifies this, config, world
      ensures Step(Current(), world.trace, r)
           == Execute(old(Current()), Keys(), world.oracles, old(world.trace), Get("/v1/user/measurement/body", []), fuel)
    {
      r := Request(Get("/v1/user/measurement/body", []), fuel, world);
    }

    /** The four collection getters differ only in their path. */
    method GetCollection(path: string, start: string, end: string, fuel: nat, world: World) returns (r: CollectionResult)
      modifies this, config, world
      ensures var e := Execute(old(Current()), Keys(), world.oracles, old(world.trace), Get(path, RangeParams(start, end)), fuel);
              Current() == e.session && world.trace == e.trace && r == Unwrap(e.result)
    {
      var response := Request(Get(path, RangeParams(start, end)), fuel, world);
      r := Unwrap(response);
    }

    method GetRecoveryCollection(start: string, end: string, fuel: nat, world: World) returns (r: CollectionResult)
      modifies this, config, world
      ensures var e := Execute(old(Current()), Keys(), world.oracles, old(world.trace), Get("/v1/recovery", RangeParams(start, end)), fuel);
              Current() == e.session && world.trace == e.trace && r == Unwrap(e.result)
    {
      r := GetCollection("/v1/recovery", start, end, fuel, world);
    }

    method GetSleepCollection(start: string, end: string, fuel: nat, world: World) returns (r: CollectionResult)
      modifies this, config, world
      ensures var e := Execute(old(Current()), Keys(), world.oracles, old(world.trace), Get("/v1/activity/sleep", RangeParams(start, end)), fuel);
              Current() == e.session && world.trace == e.trace && r == Unwrap(e.result)
    {
      r := GetCollection("/v1/activity/sleep", start, end, fuel, world);
    }

    method GetCycleCollection(start: string, end: string, fuel: nat, world: World) returns (r: CollectionResult)
      modifies this, config, world
      ensures var e := Execute(old(Current()), Keys(), world.oracles, old(world.trace), Get("/v1/cycle", RangeParams(start, end)), fuel);
              Current() == e.session && world.trace == e.trace && r == Unwrap(e.result)
    {
      r := GetCollection("/v1/cycle", start, end, fuel, world);
    }

    method GetWorkoutCollection(start: string, end: string, fuel: nat, world: World) returns (r: CollectionResult)
      modifies this, config, world
      ensures var e := Execute(old(Current()), Keys(), world.oracles, old(world.trace), Get("/v1/activity/workout", RangeParams(start, end)), fuel);
              Current() == e.session && world.trace == e.trace && r == Unwrap(e.result)
    {
      r := GetCollection("/v1/activity/workout", start, end, fuel, world);
    }
  }
}
