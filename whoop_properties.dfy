/** What the WHOOP client's token handling guarantees, stated over the trace
    of clock reads, token requests and resource requests that a request
    produces. */
module WhoopProperties {
  import opened Wrappers
  import opened Js
  import opened WhoopProtocol

  /** The two tokens that the trace determines: the access token sent as
      bearer and the refresh token sent in the grant. */
  datatype Tokens = Tokens(accessToken: Option<string>, refreshToken: string)

  function TokensOf(s: Session): Tokens {
    Tokens(s.accessToken, s.refreshToken)
  }

  /** The tokens held after the events of `events`, starting from `t`: every
      granted refresh installs its access token, and its refresh token when
      one was issued. */
  function Replay(t: Tokens, events: seq<Event>): Tokens
  {
    if events == [] then t
    else
      var prev := Replay(t, events[..|events| - 1]);
      match events[|events| - 1]
      case TokenCall(_, Granted(accessToken, _, _, refreshToken)) =>
        Tokens(Some(accessToken), if Truthy(refreshToken) then refreshToken.value else prev.refreshToken)
      case _ => prev
  }

  /** Each outbound request carries the bearer of the access token held at
      that moment, and each grant sends the refresh token held at that moment. */
  predicate EventOk(t: Tokens, c: Credentials, req: HttpRequest, e: Event) {
    match e
    case ClockRead(_) => true
    case TokenCall(grant, _) => grant == TokenRequest("refresh_token", t.refreshToken, c.clientId, c.clientSecret)
    case ResourceCall(sent, _) => sent == Authorized(req, t.accessToken)
  }

  ghost predicate Faithful(t: Tokens, c: Credentials, req: HttpRequest, events: seq<Event>) {
    forall i :: 0 <= i < |events| ==> EventOk(Replay(t, events[..i]), c, req, events[i])
  }

  predicate Is401(e: Event) {
    e.ResourceCall? && e.reply.HttpError? && e.reply.status == 401
  }

  /** Every 401 from the resource server is followed at once by a token request. */
  ghost predicate RefreshesAfter401(events: seq<Event>) {
    forall i :: 0 <= i < |events| && Is401(events[i]) ==> i + 1 < |events| && events[i + 1].TokenCall?
  }

  ghost predicate Extends(trace: seq<Event>, trace': seq<Event>) {
    |trace| <= |trace'| && trace'[..|trace|] == trace
  }

  /** A world whose resource server answers every request with 401 while
      its token endpoint grants every refresh. */
  ghost predicate AlwaysUnauthorized(o: Oracles) {
    && (forall n: nat, q: HttpRequest :: o.resourceServer(n, q).HttpError? && o.resourceServer(n, q).status == 401)
    && (forall n: nat, g: TokenRequest :: o.tokenEndpoint(n, g).Granted?)
  }

  lemma ExtendsSplit(t0: seq<Event>, t1: seq<Event>, t2: seq<Event>)
    requires Extends(t0, t1) && Extends(t1, t2)
    ensures Extends(t0, t2) && t2[|t0|..] == t1[|t0|..] + t2[|t1|..]
  {
    assert t2[..|t0|] == t2[..|t1|][..|t0|];
    assert t2 == t2[..|t1|] + t2[|t1|..];
  }

  lemma CountChain(t0: seq<Event>, t1: seq<Event>, t2: seq<Event>, n: nat)
    requires n > 0 && Extends(t0, t1) && Extends(t1, t2)
    requires CountTokenCalls(t1[|t0|..]) >= 1 && CountTokenCalls(t2[|t1|..]) >= n - 1
    ensures Extends(t0, t2) && CountTokenCalls(t2[|t0|..]) >= n
  {
    ExtendsSplit(t0, t1, t2);
    CountAppend(t1[|t0|..], t2[|t1|..]);
  }

  function CountTokenCalls(events: seq<Event>): nat {
    if events == [] then 0
    else CountTokenCalls(events[..|events| - 1]) + (if events[|events| - 1].TokenCall? then 1 else 0)
  }

  // ---------------------------------------------------------------------
  // Composition.

  lemma {:induction false} ReplayAppend(t: Tokens, a: seq<Event>, b: seq<Event>)
    ensures Replay(t, a + b) == Replay(Replay(t, a), b)
  {
    if b != [] {
      assert (a + b)[..|a + b| - 1] == a + b[..|b| - 1];
      ReplayAppend(t, a, b[..|b| - 1]);
    } else {
      assert a + b == a;
    }
  }

  lemma {:induction false} CountAppend(a: seq<Event>, b: seq<Event>)
    ensures CountTokenCalls(a + b) == CountTokenCalls(a) + CountTokenCalls(b)
  {
    if b != [] {
      assert (a + b)[..|a + b| - 1] == a + b[..|b| - 1];
      CountAppend(a, b[..|b| - 1]);
    } else {
      assert a + b == a;
    }
  }

  lemma FaithfulAppend(t: Tokens, c: Credentials, req: HttpRequest, a: seq<Event>, b: seq<Event>)
    requires Faithful(t, c, req, a)
    requires Faithful(Replay(t, a), c, req, b)
    ensures Faithful(t, c, req, a + b)
  {
    forall i | 0 <= i < |a + b|
      ensures EventOk(Replay(t, (a + b)[..i]), c, req, (a + b)[i])
    {
      if i < |a| {
        assert (a + b)[..i] == a[..i];
      } else {
        assert (a + b)[..i] == a + b[..i - |a|];
        ReplayAppend(t, a, b[..i - |a|]);
      }
    }
  }

  lemma RefreshesAfter401Append(a: seq<Event>, b: seq<Event>)
    requires RefreshesAfter401(a) && RefreshesAfter401(b)
    ensures RefreshesAfter401(a + b)
  {
    forall i | 0 <= i < |a + b| && Is401((a + b)[i])
      ensures i + 1 < |a + b| && (a + b)[i + 1].TokenCall?
    {
      if i < |a| {
        assert Is401(a[i]);
      } else {
        assert Is401(b[i - |a|]);
      }
    }
  }

  /** The segment a step added to the trace, with the facts the composition needs. */
  ghost predicate Tracked<R>(s: Session, c: Credentials, req: HttpRequest, trace: seq<Event>, r: Step<R>) {
    && Extends(trace, r.trace)
    && TokensOf(r.session) == Replay(TokensOf(s), r.trace[|trace|..])
    && Faithful(TokensOf(s), c, req, r.trace[|trace|..])
    && RefreshesAfter401(r.trace[|trace|..])
  }

  lemma TrackedChain<R, U>(s: Session, c: Credentials, req: HttpRequest, trace: seq<Event>, r1: Step<R>, r2: Step<U>)
    requires Tracked(s, c, req, trace, r1)
    requires Tracked(r1.session, c, req, r1.trace, r2)
    ensures Tracked(s, c, req, trace, r2)
  {
    var a := r1.trace[|trace|..];
    var b := r2.trace[|r1.trace|..];
    assert r2.trace[|trace|..] == a + b;
    ReplayAppend(TokensOf(s), a, b);
    FaithfulAppend(TokensOf(s), c, req, a, b);
    RefreshesAfter401Append(a, b);
  }

  lemma TrackedOne<R>(s: Session, c: Credentials, req: HttpRequest, trace: seq<Event>, e: Event, r: Step<R>)
    requires r.trace == trace + [e] && r.session == s
    requires EventOk(TokensOf(s), c, req, e) && !e.TokenCall? && !Is401(e)
    ensures Tracked(s, c, req, trace, r)
  {
    assert r.trace[|trace|..] == [e];
    assert [e][..0] == [];
    assert Replay(TokensOf(s), [e]) == Replay(TokensOf(s), [e][..0]);
  }

  // ---------------------------------------------------------------------
  // refreshAccessToken.

  /** One refresh: it sends the stored refresh token; when granted it stores
      the new access token with expiry `t + expires_in * 1000`, `t` being the
      clock read after the reply, and replaces the refresh token only if a
      non-empty one came back; when denied it changes nothing and reports the
      provider's `error` or else the transport's message. */
  lemma RefreshFacts(s: Session, c: Credentials, o: Oracles, trace: seq<Event>)
    ensures var r := Refresh(s, c, o, trace);
            var grant := GrantRequest(s, c);
            var reply := o.tokenEndpoint(|trace|, grant);
            && grant == TokenRequest("refresh_token", s.refreshToken, c.clientId, c.clientSecret)
            && (reply.Granted? ==>
                  var t := o.clock(|trace| + 1);
                  && r.trace == trace + [TokenCall(grant, reply), ClockRead(t)]
                  && r.result == Pass
                  && r.session.accessToken == Some(reply.accessToken)
                  && r.session.expiresAt == t + reply.expiresIn * 1000
                  && r.session.refreshToken == (if Truthy(reply.refreshToken) then reply.refreshToken.value else s.refreshToken))
            && (reply.Denied? ==>
                  && r.trace == trace + [TokenCall(grant, reply)]
                  && r.session == s
                  && r.result == Fail(RefreshErrorPrefix + OrElse(reply.providerError, reply.message)))
  {
  }

  lemma RefreshTracked(s: Session, c: Credentials, o: Oracles, trace: seq<Event>, req: HttpRequest)
    ensures Tracked(s, c, req, trace, Refresh(s, c, o, trace))
  {
    var r := Refresh(s, c, o, trace);
    var grant := GrantRequest(s, c);
    var reply := o.tokenEndpoint(|trace|, grant);
    var e := TokenCall(grant, reply);
    var seg := r.trace[|trace|..];
    assert seg[..0] == [];
    if reply.Granted? {
      assert seg == [e, ClockRead(o.clock(|trace| + 1))];
      assert seg[..1] == [e];
      assert Replay(TokensOf(s), [e]) == Replay(TokensOf(s), [e][..0]).(accessToken := Some(reply.accessToken),
        refreshToken := if Truthy(reply.refreshToken) then reply.refreshToken.value else s.refreshToken);
    } else {
      assert seg == [e];
      assert Replay(TokensOf(s), [e]) == Replay(TokensOf(s), [e][..0]);
    }
  }

  lemma EnsureValidTracked(s: Session, c: Credentials, o: Oracles, trace: seq<Event>, req: HttpRequest)
    ensures Tracked(s, c, req, trace, EnsureValid(s, c, o, trace))
  {
    var now := o.clock(|trace|);
    var first := Step(s, trace + [ClockRead(now)], ());
    TrackedOne(s, c, req, trace, ClockRead(now), first);
    if NeedsRefresh(s, now) {
      RefreshTracked(s, c, o, first.trace, req);
      TrackedChain(s, c, req, trace, first, Refresh(s, c, o, first.trace));
    }
  }

  /** The 401 branch of a pass: the request went out with the token held,
      and the refresh that follows keeps the trace faithful. */
  lemma RejectedThenRefreshTracked(s: Session, c: Credentials, o: Oracles, trace: seq<Event>, req: HttpRequest, reply: HttpReply)
    ensures var e := ResourceCall(Authorized(req, s.accessToken), reply);
            Tracked(s, c, req, trace, Refresh(s, c, o, trace + [e]))
  {
    var e := ResourceCall(Authorized(req, s.accessToken), reply);
    var t1 := trace + [e];
    var re := Refresh(s, c, o, t1);
    RefreshTracked(s, c, o, t1, req);
    var tail := re.trace[|t1|..];
    assert re.trace == t1 + tail;
    assert re.trace[|trace|..] == [e] + tail;
    assert tail[0] == TokenCall(GrantRequest(s, c), o.tokenEndpoint(|t1|, GrantRequest(s, c)));
    assert [e][..0] == [];
    assert Replay(TokensOf(s), [e]) == TokensOf(s);
    assert Faithful(TokensOf(s), c, req, [e]);
    FaithfulAppend(TokensOf(s), c, req, [e], tail);
    ReplayAppend(TokensOf(s), [e], tail);
  }

  /** One pass through the interceptors keeps the trace faithful. */
  lemma AttemptTracked(s: Session, c: Credentials, o: Oracles, trace: seq<Event>, req: HttpRequest)
    ensures Tracked(s, c, req, trace, Attempt(s, c, o, trace, req))
  {
    var pre := EnsureValid(s, c, o, trace);
    EnsureValidTracked(s, c, o, trace, req);
    if pre.result.Pass? {
      var sent := Authorized(req, pre.session.accessToken);
      var reply := o.resourceServer(|pre.trace|, sent);
      var e := ResourceCall(sent, reply);
      if Is401(e) {
        RejectedThenRefreshTracked(pre.session, c, o, pre.trace, req, reply);
        TrackedChain(s, c, req, trace, pre, Refresh(pre.session, c, o, pre.trace + [e]));
      } else {
        var mid := Step(pre.session, pre.trace + [e], ());
        TrackedOne(pre.session, c, req, pre.trace, e, mid);
        TrackedChain(s, c, req, trace, pre, mid);
      }
    }
  }

  /** A pass that settles with the resource server's reply has that reply as
      its last event: a body on success, and otherwise a failure that is not
      a 401. A pass never runs out of fuel. */
  lemma AttemptEndsWithReply(s: Session, c: Credentials, o: Oracles, trace: seq<Event>, req: HttpRequest)
    ensures var a := Attempt(s, c, o, trace, req);
            a.result.Settled? && !a.result.outcome.OutOfFuel? && !(a.result.outcome.Failed? && a.result.outcome.failure.RefreshFailed?) ==>
              |a.trace| > |trace| && a.trace[|a.trace| - 1].ResourceCall?
              && (a.result.outcome.Completed? ==> a.trace[|a.trace| - 1].reply == Ok(a.result.outcome.body))
              && (a.result.outcome.Failed? ==> a.trace[|a.trace| - 1].reply == a.result.outcome.failure.reply
                                               && !a.result.outcome.failure.reply.Ok? && !Is401(a.trace[|a.trace| - 1]))
    ensures Attempt(s, c, o, trace, req).result != Settled(OutOfFuel)
    ensures |Attempt(s, c, o, trace, req).trace| >= |trace|
  {
    var pre := EnsureValid(s, c, o, trace);
    assert |pre.trace| >= |trace|;
  }

  /** A whole request, with every re-issue after a 401: the trace stays
      faithful. Each outbound request carries the bearer of the access token
      then held, each grant sends the refresh token then held, and every 401
      is followed by a refresh. */
  lemma {:induction false} ExecuteTracked(s: Session, c: Credentials, o: Oracles, trace: seq<Event>, req: HttpRequest, fuel: nat)
    ensures Tracked(s, c, req, trace, Execute(s, c, o, trace, req, fuel))
    decreases fuel
  {
    if fuel == 0 {
      assert Execute(s, c, o, trace, req, fuel).trace[|trace|..] == [];
    } else {
      var a := Attempt(s, c, o, trace, req);
      AttemptTracked(s, c, o, trace, req);
      if a.result.Reissue? {
        ExecuteTracked(a.session, c, o, a.trace, req, fuel - 1);
        TrackedChain(s, c, req, trace, a, Execute(a.session, c, o, a.trace, req, fuel - 1));
      }
    }
  }

  /** A request that completes returns the body of the last response, and one
      that is rejected other than by a failed refresh ends with the resource
      server's own failure, which is not a 401: no refresh follows it. */
  lemma {:induction false} ExecuteEndsWithReply(s: Session, c: Credentials, o: Oracles, trace: seq<Event>, req: HttpRequest, fuel: nat)
    ensures var r := Execute(s, c, o, trace, req, fuel);
            r.result.Failed? && r.result.failure.Rejected? ==>
              && |r.trace| > |trace| && r.trace[|r.trace| - 1].ResourceCall? && r.trace[|r.trace| - 1].reply == r.result.failure.reply
              && !r.result.failure.reply.Ok? && !Is401(r.trace[|r.trace| - 1])
    ensures var r := Execute(s, c, o, trace, req, fuel);
            r.result.Completed? ==>
              |r.trace| > |trace| && r.trace[|r.trace| - 1].ResourceCall? && r.trace[|r.trace| - 1].reply == Ok(r.result.body)
    decreases fuel
  {
    if fuel > 0 {
      var a := Attempt(s, c, o, trace, req);
      AttemptEndsWithReply(s, c, o, trace, req);
      if a.result.Reissue? {
        ExecuteEndsWithReply(a.session, c, o, a.trace, req, fuel - 1);
        assert Execute(s, c, o, trace, req, fuel) == Execute(a.session, c, o, a.trace, req, fuel - 1);
      } else {
        assert Execute(s, c, o, trace, req, fuel) == Step(a.session, a.trace, a.result.outcome);
      }
    }
  }

  // ---------------------------------------------------------------------
  // When refreshes happen.

  /** A client that was just constructed holds no token, so its first request
      starts with a refresh that sends the configured refresh token. */
  lemma FirstRequestRefreshes(refreshToken: string, c: Credentials, o: Oracles, trace: seq<Event>, req: HttpRequest, fuel: nat)
    requires fuel > 0
    ensures var r := Execute(InitialSession(refreshToken), c, o, trace, req, fuel);
            |r.trace| >= |trace| + 2 && r.trace[|trace| + 1].TokenCall?
            && r.trace[|trace| + 1].grant == TokenRequest("refresh_token", refreshToken, c.clientId, c.clientSecret)
  {
    ProactiveRefresh(InitialSession(refreshToken), c, o, trace, req, fuel);
  }

  /** A token that is missing, empty or within five minutes of expiry is
      refreshed before the request is sent. */
  lemma ProactiveRefresh(s: Session, c: Credentials, o: Oracles, trace: seq<Event>, req: HttpRequest, fuel: nat)
    requires fuel > 0
    requires !Truthy(s.accessToken) || o.clock(|trace|) >= s.expiresAt - 300000
    ensures var r := Execute(s, c, o, trace, req, fuel);
            |r.trace| >= |trace| + 2 && r.trace[|trace| + 1].TokenCall? && r.trace[|trace| + 1].grant == GrantRequest(s, c)
  {
    var a := Attempt(s, c, o, trace, req);
    var r := Execute(s, c, o, trace, req, fuel);
    assert |a.trace| >= |trace| + 2 && a.trace[|trace| + 1].TokenCall?;
    assert r.trace[..|a.trace|] == a.trace by {
      if a.result.Reissue? {
        ExecuteTracked(a.session, c, o, a.trace, req, fuel - 1);
      }
    }
  }

  /** A present token more than five minutes from expiry is used as it is:
      unless the server answers 401, the request makes no token request and
      leaves the session unchanged. */
  lemma NoRedundantRefresh(s: Session, c: Credentials, o: Oracles, trace: seq<Event>, req: HttpRequest, fuel: nat)
    requires fuel > 0
    requires Truthy(s.accessToken) && o.clock(|trace|) < s.expiresAt - 300000
    requires !(o.resourceServer(|trace| + 1, Authorized(req, s.accessToken)).HttpError?
               && o.resourceServer(|trace| + 1, Authorized(req, s.accessToken)).status == 401)
    ensures var r := Execute(s, c, o, trace, req, fuel);
            var reply := o.resourceServer(|trace| + 1, Authorized(req, s.accessToken));
            && r.session == s
            && r.trace == trace + [ClockRead(o.clock(|trace|)), ResourceCall(Authorized(req, s.accessToken), reply)]
            && CountTokenCalls(r.trace[|trace|..]) == 0
            && r.result == (if reply.Ok? then Completed(reply.body) else Failed(Rejected(reply)))
  {
    var now := o.clock(|trace|);
    assert EnsureValid(s, c, o, trace) == Step(s, trace + [ClockRead(now)], Pass);
    var r := Execute(s, c, o, trace, req, fuel);
    var e0 := ClockRead(now);
    var e1 := ResourceCall(Authorized(req, s.accessToken), o.resourceServer(|trace| + 1, Authorized(req, s.accessToken)));
    assert r.trace == trace + [e0, e1];
    var seg := r.trace[|trace|..];
    assert seg == [e0, e1];
    assert seg[..|seg| - 1] == [e0] && [e0][..0] == [];
    assert CountTokenCalls([e0]) == 0;
  }

  /** A 401 forces a refresh whatever the stored expiry says, and then the
      same request is issued again, through the pre-flight check, with the
      new token. */
  lemma UnauthorizedForcesRefresh(s: Session, c: Credentials, o: Oracles, trace: seq<Event>, req: HttpRequest, fuel: nat)
    requires fuel > 0
    requires !NeedsRefresh(s, o.clock(|trace|))
    requires o.resourceServer(|trace| + 1, Authorized(req, s.accessToken)).HttpError?
    requires o.resourceServer(|trace| + 1, Authorized(req, s.accessToken)).status == 401
    ensures var sent := Authorized(req, s.accessToken);
            var t1 := trace + [ClockRead(o.clock(|trace|)), ResourceCall(sent, o.resourceServer(|trace| + 1, sent))];
            var re := Refresh(s, c, o, t1);
            Execute(s, c, o, trace, req, fuel) ==
              if re.result.Fail? then Step(s, re.trace, Failed(RefreshFailed(re.result.error)))
              else Execute(re.session, c, o, re.trace, req, fuel - 1)
  {
    var now := o.clock(|trace|);
    var sent := Authorized(req, s.accessToken);
    var t1 := trace + [ClockRead(now), ResourceCall(sent, o.resourceServer(|trace| + 1, sent))];
    var re := Refresh(s, c, o, t1);
    assert EnsureValid(s, c, o, trace) == Step(s, trace + [ClockRead(now)], Pass);
    assert (trace + [ClockRead(now)]) + [ResourceCall(sent, o.resourceServer(|trace| + 1, sent))] == t1;
    assert Attempt(s, c, o, trace, req) == (if re.result.Fail? then Step(re.session, re.trace, Settled(Failed(RefreshFailed(re.result.error))))
                                           else Step(re.session, re.trace, Reissue));
  }

  lemma {:induction false} CountPositive(events: seq<Event>, i: nat)
    requires i < |events| && events[i].TokenCall?
    ensures CountTokenCalls(events) >= 1
    decreases |events|
  {
    if i < |events| - 1 {
      CountPositive(events[..|events| - 1], i);
    }
  }

  /** A pass that asks for a re-issue has just refreshed. */
  lemma ReissueAfterRefresh(s: Session, c: Credentials, o: Oracles, trace: seq<Event>, req: HttpRequest)
    ensures var a := Attempt(s, c, o, trace, req);
            a.result.Reissue? ==> Extends(trace, a.trace) && CountTokenCalls(a.trace[|trace|..]) >= 1
  {
    var a := Attempt(s, c, o, trace, req);
    if a.result.Reissue? {
      AttemptTracked(s, c, o, trace, req);
      var pre := EnsureValid(s, c, o, trace);
      var t1 := pre.trace + [ResourceCall(Authorized(req, pre.session.accessToken), o.resourceServer(|pre.trace|, Authorized(req, pre.session.accessToken)))];
      assert |pre.trace| >= |trace|;
      assert a.trace[|t1|].TokenCall?;
      CountPositive(a.trace[|trace|..], |t1| - |trace|);
    }
  }

  lemma AttemptReissuesOn401(s: Session, c: Credentials, o: Oracles, trace: seq<Event>, req: HttpRequest)
    requires AlwaysUnauthorized(o)
    ensures Attempt(s, c, o, trace, req).result == Reissue
  {
    var pre := EnsureValid(s, c, o, trace);
    assert pre.result.Pass? by {
      var now := o.clock(|trace|);
      if NeedsRefresh(s, now) {
        assert o.tokenEndpoint(|trace| + 1, GrantRequest(s, c)).Granted?;
      }
    }
    var sent := Authorized(req, pre.session.accessToken);
    var reply := o.resourceServer(|pre.trace|, sent);
    assert reply.HttpError? && reply.status == 401;
    var t1 := pre.trace + [ResourceCall(sent, reply)];
    assert o.tokenEndpoint(|t1|, GrantRequest(pre.session, c)).Granted?;
  }

  /** Under a persistent 401, one pass refreshes and re-issues. */
  lemma PersistentStep(s: Session, c: Credentials, o: Oracles, trace: seq<Event>, req: HttpRequest, fuel: nat)
    returns (s': Session, trace': seq<Event>)
    requires fuel > 0 && AlwaysUnauthorized(o)
    ensures Execute(s, c, o, trace, req, fuel) == Execute(s', c, o, trace', req, fuel - 1)
    ensures Extends(trace, trace') && CountTokenCalls(trace'[|trace|..]) >= 1
  {
    var a := Attempt(s, c, o, trace, req);
    AttemptReissuesOn401(s, c, o, trace, req);
    ReissueAfterRefresh(s, c, o, trace, req);
    s', trace' := a.session, a.trace;
  }

  /** A request that has not settled and whose passes made at least `n`
      token requests after `trace`. */
  ghost predicate Unsettled(trace: seq<Event>, r: Step<RequestResult>, n: nat) {
    r.result == OutOfFuel && Extends(trace, r.trace) && CountTokenCalls(r.trace[|trace|..]) >= n
  }

  /** One unsettled pass that made a token request, followed by passes that
      made `n - 1` more. */
  lemma UnsettledChain(t0: seq<Event>, t1: seq<Event>, rest: Step<RequestResult>, n: nat)
    requires n > 0 && Extends(t0, t1) && CountTokenCalls(t1[|t0|..]) >= 1
    requires Unsettled(t1, rest, n - 1)
    ensures Unsettled(t0, rest, n)
  {
    CountChain(t0, t1, rest.trace, n);
  }

  /** The source places no bound on re-issues: while the resource server keeps
      answering 401 and the token endpoint keeps granting, every pass makes a
      token request and the request never settles. */
  lemma {:induction false} PersistentUnauthorizedNeverSettles(s: Session, c: Credentials, o: Oracles, trace: seq<Event>, req: HttpRequest, fuel: nat)
    requires AlwaysUnauthorized(o)
    ensures Unsettled(trace, Execute(s, c, o, trace, req, fuel), fuel)
    decreases fuel
  {
    if fuel > 0 {
      var a := Attempt(s, c, o, trace, req);
      AttemptReissuesOn401(s, c, o, trace, req);
      ReissueAfterRefresh(s, c, o, trace, req);
      PersistentUnauthorizedNeverSettles(a.session, c, o, a.trace, req, fuel - 1);
      UnsettledChain(trace, a.trace, Execute(a.session, c, o, a.trace, req, fuel - 1), fuel);
    }
  }
}
