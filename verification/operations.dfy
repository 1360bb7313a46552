/**
  The six public operations of `BkashGateway` (src/index.ts) as fixed
  templates: the headers of `createTokenHeader`, one endpoint URL under
  `baseURL`, and one payload. `AuthorizedCall` composes a template with a
  `getToken` step and the transport; `executePayment` additionally maps any
  error that is not a `BkashException` to a fixed timeout message.
*/
module Operations {
  import opened Wrappers
  import opened Wire
  import opened Configuration
  import opened TokenLifecycle

  const Currency: string := "BDT"

  const TimeoutMessage: string :=
    "Timeout of 30 Seconds Exceeded While Executing Payment, Please Query the Payment"

  const CreatePath: string := "/checkout/payment/create"
  const ExecutePath: string := "/checkout/payment/execute/"
  const QueryPath: string := "/checkout/payment/query/"
  const RefundPath: string := "/checkout/payment/refund"

  /** The object `createTokenHeader` returns around a token. */
  function TokenHeader(s: Settings, token: Option<string>): (h: Headers)
    ensures h.TokenAuth? && h.authorization == token && h.appKey == s.key
  {
    TokenAuth(token, s.key)
  }

  /** The body `createPayment` posts: the fixed currency, the order ID as invoice number, `?? ''` for the association info. */
  function CreatePaymentPayload(args: CreatePaymentArgs): (p: Payload)
    ensures p.CreateBody? && p.currency == "BDT"
    ensures p.amount == args.amount && p.intent == args.intent && p.merchantInvoiceNumber == args.orderID
    ensures args.merchantAssociationInfo.None? ==> p.merchantAssociationInfo == ""
    ensures args.merchantAssociationInfo.Some? ==> p.merchantAssociationInfo == args.merchantAssociationInfo.value
  {
    CreateBody(
      args.amount, args.intent, Currency, args.orderID,
      match args.merchantAssociationInfo
      case Some(info) => info
      case None => "")
  }

  /** `createPayment` posts its body to the create endpoint with the auth headers. */
  function CreatePaymentRequest(baseURL: string, args: CreatePaymentArgs, h: Headers): (r: Request)
    ensures r.Post? && r.url == baseURL + "/checkout/payment/create" && r.headers == h
    ensures r.payload == CreatePaymentPayload(args)
  {
    Post(baseURL + CreatePath, CreatePaymentPayload(args), h)
  }

  /** `executePayment` posts no body, so the transport's default `{}` is sent. */
  function ExecutePaymentRequest(baseURL: string, paymentID: string, h: Headers): (r: Request)
    ensures r.Post? && r.url == baseURL + "/checkout/payment/execute/" + paymentID && r.headers == h
    ensures r.payload == EmptyObject
  {
    Post(baseURL + ExecutePath + paymentID, EmptyObject, h)
  }

  /** `queryPayment` is a GET with the payment ID as the last path segment. */
  function QueryPaymentRequest(baseURL: string, paymentID: string, h: Headers): (r: Request)
    ensures r.Get? && r.url == baseURL + "/checkout/payment/query/" + paymentID && r.headers == h
  {
    Get(baseURL + QueryPath + paymentID, h)
  }

  /** Transaction search goes to the payment query endpoint. */
  function SearchTransactionRequest(baseURL: string, trxID: string, h: Headers): (r: Request)
    ensures r.Get? && r.url == baseURL + "/checkout/payment/query/" + trxID && r.headers == h
  {
    Get(baseURL + QueryPath + trxID, h)
  }

  /** The refund arguments are posted as given. */
  function RefundTransactionRequest(baseURL: string, args: RefundArgs, h: Headers): (r: Request)
    ensures r.Post? && r.url == baseURL + "/checkout/payment/refund" && r.headers == h
    ensures r.payload.RefundBody? && r.payload.args == args
  {
    Post(baseURL + RefundPath, RefundBody(args), h)
  }

  /** A refund status query posts only the two identifiers to the refund endpoint. */
  function RefundStatusRequest(baseURL: string, trxID: string, paymentID: string, h: Headers): (r: Request)
    ensures r.Post? && r.url == baseURL + "/checkout/payment/refund" && r.headers == h
    ensures r.payload == RefundStatusBody(trxID, paymentID)
  {
    Post(baseURL + RefundPath, RefundStatusBody(trxID, paymentID), h)
  }

  /** The `catch` of `executePayment`. */
  function ExecuteError(e: Error): (r: Error)
    ensures r.BkashException?
    ensures e.BkashException? ==> r == e
    ensures !e.BkashException? ==> r.message == TimeoutMessage
  {
    match e
    case BkashException(_) => e
    case TransportError(_) => BkashException(TimeoutMessage)
  }

  /** What one public operation yields: the response or the thrown error, the new token state, the requests sent. */
  datatype CallOutcome = CallOutcome(result: Result<Document, Error>, next: TokenState, sent: seq<Request>)

  /**
    An authenticated operation: `createTokenHeader` (one `getToken` step),
    then the request `build` makes from those headers, whose reply is returned
    unchanged. A failure of the token step is thrown before the request is made.
  */
  function AuthorizedCall(s: Settings, st: TokenState, now: int, net: Network, build: Headers -> Request): (o: CallOutcome)
    ensures o.next == GetTokenStep(s, st, now, net).next
    ensures |o.sent| <= 2
    ensures GetTokenStep(s, st, now, net).result.Failure? ==>
      o.result.Failure? && o.result.error == GetTokenStep(s, st, now, net).result.error &&
      o.sent == GetTokenStep(s, st, now, net).sent
    ensures GetTokenStep(s, st, now, net).result.Success? ==>
      var request := build(TokenHeader(s, o.next.token));
      o.sent == GetTokenStep(s, st, now, net).sent + [request] &&
      Fresh(now, o.next.issueTime) &&
      (o.result.Success? <==> net(request).Parsed?) &&
      (o.result.Success? ==> o.result.value == net(request).body) &&
      (o.result.Failure? ==> o.result.error == TransportError(net(request).reason))
  {
    var token := GetTokenStep(s, st, now, net);
    match token.result
    case Failure(e) => CallOutcome(Failure(e), token.next, token.sent)
    case Success(t) =>
      var request := build(TokenHeader(s, t));
      CallOutcome(Lift(net(request)), token.next, token.sent + [request])
  }

  /** The outcome of `executePayment`: an authorized call whose errors pass through `ExecuteError`. */
  function ExecutePaymentCall(s: Settings, st: TokenState, now: int, net: Network, paymentID: string): (o: CallOutcome)
    ensures o.result.Failure? ==> o.result.error.BkashException?
  {
    var call := AuthorizedCall(s, st, now, net, h => ExecutePaymentRequest(s.baseURL, paymentID, h));
    match call.result
    case Success(_) => call
    case Failure(e) => call.(result := Failure(ExecuteError(e)))
  }

  /**
    On a successful token step, the one request an operation adds carries
    the token the gateway now holds with the API key, and that token's issue
    time is under 3500 seconds old. The held token is `None` (`undefined`) when
    the grant or refresh reply had no `id_token`.
  */
  ghost predicate SendsCurrentToken(s: Settings, st: TokenState, now: int, net: Network, build: Headers -> Request) {
    var token := GetTokenStep(s, st, now, net);
    var o := AuthorizedCall(s, st, now, net, build);
    token.result.Success? ==>
      |o.sent| == |token.sent| + 1 &&
      o.sent[|o.sent| - 1].headers == TokenAuth(o.next.token, s.key) &&
      o.next.token == token.result.value &&
      Fresh(now, o.next.issueTime)
  }

  /** Each of the six operations sends its request with the current token. */
  lemma EveryOperationSendsCurrentToken(
    s: Settings, st: TokenState, now: int, net: Network,
    args: CreatePaymentArgs, paymentID: string, trxID: string, refund: RefundArgs)
    ensures SendsCurrentToken(s, st, now, net, h => CreatePaymentRequest(s.baseURL, args, h))
    ensures SendsCurrentToken(s, st, now, net, h => ExecutePaymentRequest(s.baseURL, paymentID, h))
    ensures SendsCurrentToken(s, st, now, net, h => QueryPaymentRequest(s.baseURL, paymentID, h))
    ensures SendsCurrentToken(s, st, now, net, h => SearchTransactionRequest(s.baseURL, trxID, h))
    ensures SendsCurrentToken(s, st, now, net, h => RefundTransactionRequest(s.baseURL, refund, h))
    ensures SendsCurrentToken(s, st, now, net, h => RefundStatusRequest(s.baseURL, trxID, paymentID, h))
  {
  }

  /**
    Two `createPayment` argument records give the same body exactly when they
    agree on amount, intent and order ID, and on the association info with an
    absent one read as empty.
  */
  lemma CreatePaymentPayloadInjective(a: CreatePaymentArgs, b: CreatePaymentArgs)
    ensures CreatePaymentPayload(a) == CreatePaymentPayload(b) <==>
      a.amount == b.amount && a.intent == b.intent && a.orderID == b.orderID &&
      (a.merchantAssociationInfo == b.merchantAssociationInfo ||
       (a.merchantAssociationInfo.None? && b.merchantAssociationInfo == Some("")) ||
       (a.merchantAssociationInfo == Some("") && b.merchantAssociationInfo.None?))
  {
  }

  /** `queryPayment(id)` and `searchTransaction(id)` send the very same GET request. */
  lemma QueryAndSearchCoincide(baseURL: string, id: string, h: Headers)
    ensures QueryPaymentRequest(baseURL, id, h) == SearchTransactionRequest(baseURL, id, h)
    ensures QueryPaymentRequest(baseURL, id, h).url == baseURL + "/checkout/payment/query/" + id
  {
  }

  /** Refund and refund status share one endpoint; the refund amount string reaches the payload unchanged. */
  lemma RefundRequests(baseURL: string, args: RefundArgs, trxID: string, paymentID: string, h: Headers)
    ensures RefundTransactionRequest(baseURL, args, h).url == RefundStatusRequest(baseURL, trxID, paymentID, h).url
    ensures RefundTransactionRequest(baseURL, args, h).payload.args.amount == args.amount
    ensures RefundStatusRequest(baseURL, trxID, paymentID, h).payload == RefundStatusBody(trxID, paymentID)
  {
  }

  /**
    `executePayment` rethrows the token manager's `BkashException` unchanged,
    replaces a transport error of the token step or of the post by the
    timeout message, and returns the post's reply otherwise.
  */
  lemma ExecutePaymentErrors(s: Settings, st: TokenState, now: int, net: Network, paymentID: string)
    ensures var token := GetTokenStep(s, st, now, net);
      var o := ExecutePaymentCall(s, st, now, net, paymentID);
      var request := ExecutePaymentRequest(s.baseURL, paymentID, TokenHeader(s, token.next.token));
      o.next == token.next &&
      (token.result.Failure? && token.result.error.BkashException? ==> o.result == Failure(token.result.error)) &&
      (token.result.Failure? && token.result.error.TransportError? ==>
         o.result == Failure(BkashException(TimeoutMessage))) &&
      (token.result.Success? && net(request).Failed? ==>
         o.result == Failure(BkashException(TimeoutMessage))) &&
      (token.result.Success? && net(request).Parsed? ==> o.result == Success(net(request).body))
  {
  }
}
