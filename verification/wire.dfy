/**
  The values that cross the boundary between the gateway client and the
  transport: the argument shapes declared in src/interfaces/, the library's
  exception, the requests the client hands to `get`/`post`, and the replies,
  whose parsed bodies are maps from field name to string. The transport itself is an oracle: a function from
  request to reply.
*/
module Wire {
  import opened Wrappers

  /** The payment mode of `ICreatePayment.intent`. */
  datatype Intent = Sale | Authorization

  /** `ICreatePayment`: the argument of createPayment. `amount` is carried through unchanged. */
  datatype CreatePaymentArgs = CreatePaymentArgs(
    amount: real,
    orderID: string,
    intent: Intent,
    merchantAssociationInfo: Option<string>)

  /** `IRefundArgs`: the argument of refundTransaction; `amount` stays a decimal string. */
  datatype RefundArgs = RefundArgs(paymentID: string, amount: string, trxID: string, sku: string)

  /** The header objects the client builds: the credential pair, or the bearer token with the API key. */
  datatype Headers =
    | BasicAuth(username: string, password: string)
    | TokenAuth(authorization: Option<string>, appKey: string)

  /** The JSON bodies the client posts. `EmptyObject` is the default `{}` used when none is given. */
  datatype Payload =
    | EmptyObject
    | GrantBody(appKey: string, appSecret: string)
    | RefreshBody(appKey: string, appSecret: string, refreshToken: Option<string>)
    | CreateBody(amount: real, intent: Intent, currency: string,
                 merchantInvoiceNumber: string, merchantAssociationInfo: string)
    | RefundBody(args: RefundArgs)
    | RefundStatusBody(trxID: string, paymentID: string)

  /** One call handed to the transport of src/utils/request.ts. */
  datatype Request =
    | Get(url: string, headers: Headers)
    | Post(url: string, payload: Payload, headers: Headers)

  /** A parsed JSON response object; every field of the response interfaces is a string. */
  type Document = map<string, string>

  /** The errors a caller can observe: the library's `BkashException`, or an error of the transport. */
  datatype Error =
    | BkashException(message: string)
    | TransportError(reason: string)

  /** What the transport yields for a request: the parsed body, or the error it raised. */
  datatype Reply = Parsed(body: Document) | Failed(reason: string)

  /** The gateway and network, seen as a function from request to reply. */
  type Network = Request -> Reply

  /** A response field read by destructuring: absent fields are `undefined`. */
  function Field(body: Document, name: string): (v: Option<string>)
    ensures v.Some? <==> name in body
    ensures v.Some? ==> v.value == body[name]
  {
    if name in body then Some(body[name]) else None
  }

  /** JavaScript truthiness of an optional string: present and non-empty. */
  predicate Truthy(v: Option<string>) {
    v.Some? && v.value != ""
  }

  /**
    The transport's reply as `get`/`post` return it: a parsed body is returned
    as it is, even one that carries an `errorMessage` field; only a raised
    error becomes a failure, and it is never a `BkashException`.
  */
  function Lift(reply: Reply): (r: Result<Document, Error>)
    ensures r.Success? <==> reply.Parsed?
    ensures reply.Parsed? ==> r.value == reply.body
    ensures r.Failure? ==> r.error == TransportError(reply.reason) && !r.error.BkashException?
  {
    match reply
    case Parsed(body) => Success(body)
    case Failed(reason) => Failure(TransportError(reason))
  }
}
