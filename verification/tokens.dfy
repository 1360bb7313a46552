/**
  The token lifecycle of `BkashGateway` (`getToken`, `getInitialToken`,
  `newToken` in src/index.ts) as a pure state transition. The state is the
  triple of fields `token`, `refreshToken` and `tokenIssueTime`; one call
  either grants a first token, reuses a token younger than 3500 seconds, or
  refreshes a stale one, and records the requests it handed to the transport.
*/
module TokenLifecycle {
  import opened Wrappers
  import opened Wire
  import opened Configuration
  import Elapsed

  /** A token older than this many seconds is refreshed before use. */
  const RenewAfterSeconds: int := 3500

  /** The same threshold in milliseconds of the clock. */
  const RenewAfterMillis: int := 3_500_000

  const InvalidCredentials: string := "Invalid API Credentials Provided"

  /** The fields `token`, `refreshToken`, `tokenIssueTime`; `None` is `undefined`. */
  datatype TokenState = TokenState(token: Option<string>, refreshToken: Option<string>, issueTime: Option<int>)

  /** The state of a freshly constructed gateway: no field has been assigned. */
  const NoToken: TokenState := TokenState(None, None, None)

  /** What one `getToken` call yields: the returned token or the thrown error, the new state, the requests sent. */
  datatype TokenOutcome = TokenOutcome(result: Result<Option<string>, Error>, next: TokenState, sent: seq<Request>)

  /** The request of `getInitialToken`: the app key and secret, sent with the credential headers. */
  function GrantRequest(s: Settings): (r: Request)
    ensures r.Post? && r.url == s.baseURL + "/checkout/token/grant" && r.headers == s.headers
    ensures r.payload == GrantBody(s.key, s.secret)
  {
    Post(s.baseURL + "/checkout/token/grant", GrantBody(s.key, s.secret), s.headers)
  }

  /** The request of `newToken(refresh)`: key, secret and the given refresh token, with the credential headers. */
  function RefreshRequest(s: Settings, refresh: Option<string>): (r: Request)
    ensures r.Post? && r.url == s.baseURL + "/checkout/token/refresh" && r.headers == s.headers
    ensures r.payload == RefreshBody(s.key, s.secret, refresh)
  {
    Post(s.baseURL + "/checkout/token/refresh", RefreshBody(s.key, s.secret, refresh), s.headers)
  }

  /**
    `diffSeconds(tokenIssueTime) < 3500`. An undefined issue time makes the age
    NaN, and a comparison with NaN is false, so such a token counts as stale.
  */
  function Fresh(now: int, issueTime: Option<int>): (b: bool)
    ensures b <==> issueTime.Some? && now - issueTime.value < RenewAfterMillis
  {
    if issueTime.None? then false
    else
      Elapsed.DiffSecondsBelow(now, issueTime.value, RenewAfterSeconds);
      Elapsed.DiffSeconds(now, issueTime.value) < RenewAfterSeconds as real
  }

  /**
    The common tail of both branches that talk to the gateway: throw `msg` when
    the reply carries a truthy `status` and a truthy `msg`, otherwise store the
    reply's tokens with the current time and return the new `id_token`.
  */
  function Issue(body: Document, st: TokenState, now: int, sent: seq<Request>): (o: TokenOutcome)
    ensures o.sent == sent
    ensures o.result.Failure? <==> Truthy(Field(body, "status")) && Truthy(Field(body, "msg"))
    ensures o.result.Failure? ==> o.next == st && o.result.error == BkashException(body["msg"])
    ensures o.result.Success? ==>
      o.next == TokenState(Field(body, "id_token"), Field(body, "refresh_token"), Some(now)) &&
      o.result.value == o.next.token
  {
    var status, msg := Field(body, "status"), Field(body, "msg");
    if Truthy(status) && Truthy(msg) then
      TokenOutcome(Failure(BkashException(msg.value)), st, sent)
    else
      var idToken := Field(body, "id_token");
      TokenOutcome(Success(idToken), TokenState(idToken, Field(body, "refresh_token"), Some(now)), sent)
  }

  /** A held token always has an issue time: the fields are written together. */
  predicate Consistent(st: TokenState) {
    Truthy(st.token) ==> st.issueTime.Some?
  }

  /** One `getToken` call at clock time `now` against the gateway `net`. */
  function GetTokenStep(s: Settings, st: TokenState, now: int, net: Network): (o: TokenOutcome)
    ensures |o.sent| <= 1
    ensures o.sent == [] <==> Truthy(st.token) && Fresh(now, st.issueTime)
    ensures o.sent == [] ==> o.result == Success(st.token) && o.next == st
    ensures !Truthy(st.token) ==> o.sent == [GrantRequest(s)]
    ensures Truthy(st.token) && !Fresh(now, st.issueTime) ==> o.sent == [RefreshRequest(s, st.refreshToken)]
    ensures o.result.Failure? ==> o.next == st
    ensures o.result.Success? ==> o.result.value == o.next.token && Fresh(now, o.next.issueTime)
    ensures o.next != st ==> o.next.issueTime == Some(now)
    ensures Consistent(st) ==> Consistent(o.next)
    ensures Consistent(st) && Truthy(st.token) && o.sent != [] ==>
      st.issueTime.Some? && now - st.issueTime.value >= RenewAfterMillis
  {
    if !Truthy(st.token) then
      var request := GrantRequest(s);
      match net(request)
      case Failed(reason) => TokenOutcome(Failure(TransportError(reason)), st, [request])
      case Parsed(body) =>
        if Field(body, "status") == Some("fail") then
          TokenOutcome(Failure(BkashException(InvalidCredentials)), st, [request])
        else
          Issue(body, st, now, [request])
    else if Fresh(now, st.issueTime) then
      TokenOutcome(Success(st.token), st, [])
    else
      var request := RefreshRequest(s, st.refreshToken);
      match net(request)
      case Failed(reason) => TokenOutcome(Failure(TransportError(reason)), st, [request])
      case Parsed(body) => Issue(body, st, now, [request])
  }

  /**
    With no token held, the grant decides the outcome: a `status` of "fail"
    throws the credentials message, a truthy `status` with a truthy `msg`
    throws `msg`, a transport error propagates, and only otherwise is the
    reply stored.
  */
  lemma GrantOutcome(s: Settings, st: TokenState, now: int, net: Network)
    requires !Truthy(st.token)
    ensures var o := GetTokenStep(s, st, now, net);
      o.sent == [GrantRequest(s)] &&
      match net(GrantRequest(s))
      case Failed(reason) => o.result == Failure(TransportError(reason)) && o.next == st
      case Parsed(body) =>
        if Field(body, "status") == Some("fail") then
          o.result == Failure(BkashException(InvalidCredentials)) && o.next == st
        else if Truthy(Field(body, "status")) && Truthy(Field(body, "msg")) then
          o.result == Failure(BkashException(body["msg"])) && o.next == st
        else
          o.result == Success(Field(body, "id_token")) &&
          o.next == TokenState(Field(body, "id_token"), Field(body, "refresh_token"), Some(now))
  {
  }

  /** A token held for less than 3500 seconds is returned as is, with no request and no state change. */
  lemma FreshTokenReused(s: Settings, st: TokenState, now: int, net: Network)
    requires Truthy(st.token) && st.issueTime.Some? && now - st.issueTime.value < RenewAfterMillis
    ensures GetTokenStep(s, st, now, net) == TokenOutcome(Success(st.token), st, [])
  {
  }

  /**
    A token held for 3500 seconds or more is refreshed with the stored refresh
    token; a `{status, msg}` reply throws `msg`, and only a reply without them
    replaces the three fields.
  */
  lemma StaleTokenRefreshed(s: Settings, st: TokenState, now: int, net: Network)
    requires Truthy(st.token) && st.issueTime.Some? && now - st.issueTime.value >= RenewAfterMillis
    ensures var o := GetTokenStep(s, st, now, net);
      o.sent == [RefreshRequest(s, st.refreshToken)] &&
      match net(RefreshRequest(s, st.refreshToken))
      case Failed(reason) => o.result == Failure(TransportError(reason)) && o.next == st
      case Parsed(body) =>
        if Truthy(Field(body, "status")) && Truthy(Field(body, "msg")) then
          o.result == Failure(BkashException(body["msg"])) && o.next == st
        else
          o.result == Success(Field(body, "id_token")) &&
          o.next == TokenState(Field(body, "id_token"), Field(body, "refresh_token"), Some(now))
  {
  }

  /**
    A failed call leaves the gateway retryable: the state is unchanged, so a
    call at the same or a later time contacts the gateway again.
  */
  lemma FailedCallIsRetried(s: Settings, st: TokenState, now: int, later: int, net: Network, net': Network)
    requires GetTokenStep(s, st, now, net).result.Failure?
    requires now <= later
    ensures GetTokenStep(s, st, now, net).next == st
    ensures |GetTokenStep(s, st, later, net').sent| == 1
  {
  }

  /** One `getToken` call: the clock reading and the gateway as it answers at that moment. */
  datatype Call = Call(now: int, net: Network)

  /** The outcome of successive `getToken` calls: the final state and, call by call, the requests sent. */
  datatype RunOutcome = RunOutcome(next: TokenState, sent: seq<seq<Request>>)

  /** Successive calls, each starting from the state the previous one left; a thrown error does not stop later calls. */
  function Run(s: Settings, st: TokenState, calls: seq<Call>): (o: RunOutcome)
    ensures |o.sent| == |calls|
    ensures forall i :: 0 <= i < |calls| ==> |o.sent[i]| <= 1
    decreases |calls|
  {
    if calls == [] then RunOutcome(st, [])
    else
      var first := GetTokenStep(s, st, calls[0].now, calls[0].net);
      var rest := Run(s, first.next, calls[1..]);
      RunOutcome(rest.next, [first.sent] + rest.sent)
  }

  /**
    Once a token is held, every call made less than 3500 seconds after its
    issue reuses it: no call of the run sends anything, and the state is unchanged.
  */
  lemma {:induction false} CachedWindowIsSilent(s: Settings, st: TokenState, calls: seq<Call>)
    requires Truthy(st.token) && st.issueTime.Some?
    requires forall i :: 0 <= i < |calls| ==> calls[i].now - st.issueTime.value < RenewAfterMillis
    ensures Run(s, st, calls).next == st
    ensures forall i :: 0 <= i < |calls| ==> Run(s, st, calls).sent[i] == []
    decreases |calls|
  {
    if calls != [] {
      assert GetTokenStep(s, st, calls[0].now, calls[0].net) == TokenOutcome(Success(st.token), st, []);
      CachedWindowIsSilent(s, st, calls[1..]);
    }
  }

  /** Any run of calls, whatever the gateway answers at each, keeps the three fields consistent. */
  lemma {:induction false} RunKeepsConsistent(s: Settings, st: TokenState, calls: seq<Call>)
    requires Consistent(st)
    ensures Consistent(Run(s, st, calls).next)
    decreases |calls|
  {
    if calls != [] {
      RunKeepsConsistent(s, GetTokenStep(s, st, calls[0].now, calls[0].net).next, calls[1..]);
    }
  }

  /**
    A grant that fails, in any of its ways (a transport error, a `status` of
    "fail", a `{status, msg}` reply), leaves nothing behind, so the next call
    grants again; when that grant succeeds, the reply's tokens are stored with
    that call's time.
  */
  lemma GrantRetriedAfterFailure(s: Settings, t1: int, t2: int, down: Network, up: Network)
    requires GetTokenStep(s, NoToken, t1, down).result.Failure?
    requires GetTokenStep(s, NoToken, t2, up).result.Success?
    ensures var o := Run(s, NoToken, [Call(t1, down), Call(t2, up)]);
      var reply := up(GrantRequest(s));
      o.sent == [[GrantRequest(s)], [GrantRequest(s)]] &&
      reply.Parsed? &&
      o.next == TokenState(Field(reply.body, "id_token"), Field(reply.body, "refresh_token"), Some(t2))
  {
    var calls := [Call(t1, down), Call(t2, up)];
    var second := GetTokenStep(s, NoToken, t2, up);
    GrantOutcome(s, NoToken, t2, up);
    assert calls[1..] == [Call(t2, up)];
    assert Run(s, NoToken, calls[1..]) == RunOutcome(second.next, [second.sent]);
  }

  /** A token issued at T0 is reused at T0 + 3000 s and refreshed at T0 + 3600 s. */
  lemma ReuseThenRefresh(s: Settings, t0: int, token: string, refresh: string, net: Network)
    requires token != ""
    ensures var st := TokenState(Some(token), Some(refresh), Some(t0));
      GetTokenStep(s, st, t0 + 3_000_000, net).sent == [] &&
      GetTokenStep(s, st, t0 + 3_600_000, net).sent == [RefreshRequest(s, Some(refresh))]
  {
  }
}
