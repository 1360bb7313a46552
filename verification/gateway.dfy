/**
  The `BkashGateway` class of src/index.ts. Its fields `token`,
  `refreshToken` and `tokenIssueTime` are updated in place by `GetToken`;
  `baseURL`, `key` and `secret` are read-only after construction. Every
  method that may reach the gateway takes the clock reading `now` and the
  gateway `net`, and returns, besides its result, the requests it handed to
  the transport, in order.
*/
module Gateway {
  import opened Wrappers
  import opened Wire
  import opened Configuration
  import opened TokenLifecycle
  import opened Operations

  class BkashGateway {
    var token: Option<string>
    var refreshToken: Option<string>
    var tokenIssueTime: Option<int>
    const secret: string
    const key: string
    const baseURL: string
    var headers: Headers

    /** What construction stored. */
    function Stored(): (s: Settings)
      reads this
    {
      Settings(baseURL, key, secret, headers)
    }

    /** The token fields as one value. */
    function Tokens(): (st: TokenState)
      reads this
    {
      TokenState(token, refreshToken, tokenIssueTime)
    }

    /** The object invariant: the credential headers, and token fields written together. */
    ghost predicate Valid()
      reads this
    {
      headers.BasicAuth? && Consistent(Tokens())
    }

    /** The field assignments of the constructor, once the configuration has been accepted. */
    constructor (s: Settings)
      requires s.headers.BasicAuth?
      ensures Valid()
      ensures Stored() == s && Tokens() == NoToken
    {
      baseURL := s.baseURL;
      key := s.key;
      secret := s.secret;
      headers := s.headers;
      token, refreshToken, tokenIssueTime := None, None, None;
    }

    /** `new BkashGateway(config)`: validation, then construction; a rejected configuration creates nothing. */
    static method Create(config: Config) returns (r: Result<BkashGateway, Error>)
      ensures r.Failure? ==> Configure(config) == Failure(r.error)
      ensures r.Success? ==>
        fresh(r.value) && r.value.Valid() &&
        Configure(config) == Success(r.value.Stored()) && r.value.Tokens() == NoToken
    {
      var settings := Configure(config);
      if settings.Failure? {
        return Failure(settings.error);
      }
      var gateway := new BkashGateway(settings.value);
      return Success(gateway);
    }

    /** `getInitialToken`: post the grant and throw the credentials message on a `status` of "fail". */
    method GetInitialToken(net: Network) returns (r: Result<Document, Error>, request: Request)
      ensures request == GrantRequest(Stored())
      ensures net(request).Failed? ==> r == Failure(TransportError(net(request).reason))
      ensures net(request).Parsed? ==>
        if Field(net(request).body, "status") == Some("fail")
        then r == Failure(BkashException(InvalidCredentials))
        else r == Success(net(request).body)
    {
      request := GrantRequest(Stored());
      r := Lift(net(request));
      if r.Success? && Field(r.value, "status") == Some("fail") {
        r := Failure(BkashException(InvalidCredentials));
      }
    }

    /** `newToken(refresh)`: post the refresh request; its reply is returned as is. */
    method NewToken(refresh: Option<string>, net: Network) returns (r: Result<Document, Error>, request: Request)
      ensures request == RefreshRequest(Stored(), refresh)
      ensures r.Success? <==> net(request).Parsed?
      ensures r.Success? ==> r.value == net(request).body
      ensures r.Failure? ==> r.error == TransportError(net(request).reason)
    {
      request := RefreshRequest(Stored(), refresh);
      r := Lift(net(request));
    }

    /** `getToken` at clock time `now`. */
    method GetToken(now: int, net: Network) returns (r: Result<Option<string>, Error>, calls: seq<Request>)
      requires Valid()
      modifies this`token, this`refreshToken, this`tokenIssueTime
      ensures Valid()
      ensures TokenOutcome(r, Tokens(), calls) == GetTokenStep(Stored(), old(Tokens()), now, net)
      ensures Truthy(old(token)) && calls != [] ==>
        old(tokenIssueTime).Some? && now - old(tokenIssueTime).value >= RenewAfterMillis
    {
      var reply: Result<Document, Error>;
      var request: Request;
      if !Truthy(token) {
        reply, request := GetInitialToken(net);
      } else if Fresh(now, tokenIssueTime) {
        return Success(token), [];
      } else {
        reply, request := NewToken(refreshToken, net);
      }
      calls := [request];
      if reply.Failure? {
        return Failure(reply.error), calls;
      }
      var status, msg := Field(reply.value, "status"), Field(reply.value, "msg");
      if Truthy(status) && Truthy(msg) {
        return Failure(BkashException(msg.value)), calls;
      }
      token := Field(reply.value, "id_token");
      refreshToken := Field(reply.value, "refresh_token");
      tokenIssueTime := Some(now);
      r := Success(token);
    }

    /** `createTokenHeader`: the current token with the API key. */
    method CreateTokenHeader(now: int, net: Network) returns (r: Result<Headers, Error>, calls: seq<Request>)
      requires Valid()
      modifies this`token, this`refreshToken, this`tokenIssueTime
      ensures Valid()
      ensures var step := GetTokenStep(Stored(), old(Tokens()), now, net);
        Tokens() == step.next && calls == step.sent &&
        r == match step.result
             case Success(t) => Success(TokenHeader(Stored(), t))
             case Failure(e) => Failure(e)
    {
      var t;
      t, calls := GetToken(now, net);
      if t.Failure? {
        return Failure(t.error), calls;
      }
      r := Success(TokenHeader(Stored(), t.value));
    }

    /** Send one request built from fresh auth headers and return its reply; shared by five operations. */
    method Authorized(now: int, net: Network, build: Headers -> Request)
      returns (r: Result<Document, Error>, calls: seq<Request>)
      requires Valid()
      modifies this`token, this`refreshToken, this`tokenIssueTime
      ensures Valid()
      ensures CallOutcome(r, Tokens(), calls) == AuthorizedCall(Stored(), old(Tokens()), now, net, build)
    {
      var h;
      h, calls := CreateTokenHeader(now, net);
      if h.Failure? {
        return Failure(h.error), calls;
      }
      var request := build(h.value);
      r := Lift(net(request));
      calls := calls + [request];
    }

    /** `createPayment(paymentDetails)`. */
    method CreatePayment(args: CreatePaymentArgs, now: int, net: Network)
      returns (r: Result<Document, Error>, calls: seq<Request>)
      requires Valid()
      modifies this`token, this`refreshToken, this`tokenIssueTime
      ensures Valid()
      ensures CallOutcome(r, Tokens(), calls) ==
        AuthorizedCall(Stored(), old(Tokens()), now, net, h => CreatePaymentRequest(baseURL, args, h))
    {
      r, calls := Authorized(now, net, h => CreatePaymentRequest(baseURL, args, h));
    }

    /** `executePayment(paymentID)`, with its catch-and-rewrap of every error that is not a `BkashException`. */
    method ExecutePayment(paymentID: string, now: int, net: Network)
      returns (r: Result<Document, Error>, calls: seq<Request>)
      requires Valid()
      modifies this`token, this`refreshToken, this`tokenIssueTime
      ensures Valid()
      ensures CallOutcome(r, Tokens(), calls) == ExecutePaymentCall(Stored(), old(Tokens()), now, net, paymentID)
    {
      r, calls := Authorized(now, net, h => ExecutePaymentRequest(baseURL, paymentID, h));
      if r.Failure? {
        r := Failure(ExecuteError(r.error));
      }
    }

    /** `queryPayment(paymentID)`. */
    method QueryPayment(paymentID: string, now: int, net: Network)
      returns (r: Result<Document, Error>, calls: seq<Request>)
      requires Valid()
      modifies this`token, this`refreshToken, this`tokenIssueTime
      ensures Valid()
      ensures CallOutcome(r, Tokens(), calls) ==
        AuthorizedCall(Stored(), old(Tokens()), now, net, h => QueryPaymentRequest(baseURL, paymentID, h))
    {
      r, calls := Authorized(now, net, h => QueryPaymentRequest(baseURL, paymentID, h));
    }

    /** `searchTransaction(trxID)`. */
    method SearchTransaction(trxID: string, now: int, net: Network)
      returns (r: Result<Document, Error>, calls: seq<Request>)
      requires Valid()
      modifies this`token, this`refreshToken, this`tokenIssueTime
      ensures Valid()
      ensures CallOutcome(r, Tokens(), calls) ==
        AuthorizedCall(Stored(), old(Tokens()), now, net, h => SearchTransactionRequest(baseURL, trxID, h))
    {
      r, calls := Authorized(now, net, h => SearchTransactionRequest(baseURL, trxID, h));
    }

    /** `refundTransaction(refundInfo)`. */
    method RefundTransaction(args: RefundArgs, now: int, net: Network)
      returns (r: Result<Document, Error>, calls: seq<Request>)
      requires Valid()
      modifies this`token, this`refreshToken, this`tokenIssueTime
      ensures Valid()
      ensures CallOutcome(r, Tokens(), calls) ==
        AuthorizedCall(Stored(), old(Tokens()), now, net, h => RefundTransactionRequest(baseURL, args, h))
    {
      r, calls := Authorized(now, net, h => RefundTransactionRequest(baseURL, args, h));
    }

    /** `refundStatus(trxID, paymentID)`. */
    method RefundStatus(trxID: string, paymentID: string, now: int, net: Network)
      returns (r: Result<Document, Error>, calls: seq<Request>)
      requires Valid()
      modifies this`token, this`refreshToken, this`tokenIssueTime
      ensures Valid()
      ensures CallOutcome(r, Tokens(), calls) ==
        AuthorizedCall(Stored(), old(Tokens()), now, net, h => RefundStatusRequest(baseURL, trxID, paymentID, h))
    {
      r, calls := Authorized(now, net, h => RefundStatusRequest(baseURL, trxID, paymentID, h));
    }
  }
}
