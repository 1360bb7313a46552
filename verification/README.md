# bKash checkout gateway client, modelled in Dafny

This project models the core of the `bkash-payment-gateway` TypeScript
library: the `BkashGateway` client class (`src/index.ts`) and its elapsed-time
helper (`src/utils/diffSeconds.ts`). The client checks its configuration on
construction. It keeps a bearer token that it gets from the gateway's grant
endpoint. It reuses that token for 3500 seconds and refreshes it after that.
Each of its six payment operations builds one request from a fixed template
and hands it to the transport.

Modules, one per component:

- `Wrappers` (`wrappers.dfy`): `Option` for JavaScript's `undefined`, and `Result` for a value or a thrown error.
- `Elapsed` (`elapsed.dfy`): `diffSeconds`. The clock reading `now` is a parameter, and division is exact real division.
- `Wire` (`wire.dfy`): the argument shapes declared in `src/interfaces/`, the `BkashException`, the requests handed to `get`/`post`, and their replies. A parsed reply is a map from field name to string. The transport is an oracle `Network = Request -> Reply`.
- `Configuration` (`configuration.dfy`): the constructor's key-count check, the ordered checks of `validateConfig`, and the stored settings.
- `TokenLifecycle` (`tokens.dfy`): `getToken` as a pure transition on the triple (`token`, `refreshToken`, `tokenIssueTime`). `Run` strings several such calls together, each with its own clock reading and its own gateway answers.
- `Operations` (`operations.dfy`): the request templates of the six operations, the `executePayment` error mapping, and `AuthorizedCall`. `AuthorizedCall` is a token step followed by one request.
- `Gateway` (`gateway.dfy`): the class `BkashGateway` with mutable token fields. Its methods are proved equal to the functions above. Every method that goes through `getToken` also returns `calls`: the requests it handed to the transport, in order. This makes "no network call" a statement about `calls == []`. `GetInitialToken` and `NewToken` return the one request they send.

Two facts about the code shape the model:

- The transport returns a parsed body as it is, even one carrying `errorMessage` (`Wire.Lift`).
- `executePayment`, `queryPayment` and `searchTransaction` do not check the identifier. Only the example Express controller does.

## Model

| member | source | states |
|---|---|---|
| Elapsed.DiffSeconds | src/utils/diffSeconds.ts:6-9 | elapsed seconds times 1000 is the elapsed milliseconds; zero when `date` is now, non-negative when `date` is not after now, negative otherwise |
| Elapsed.DiffSecondsMonotone | src/utils/diffSeconds.ts:7-8 | for a fixed `date`, a later clock reading never gives a smaller age |
| Elapsed.DiffSecondsBelow | src/utils/diffSeconds.ts:7-8 | an age below N seconds is exactly an elapsed time below N*1000 milliseconds |
| Wire.Lift | src/utils/request.ts:36-38 | a parsed body is returned as it is, even with an `errorMessage` field; only a raised transport error becomes a failure, and it is never a `BkashException` |
| Configuration.Configure | src/index.ts:58-72 | fails with "Invalid Configuration provided" unless there are exactly 5 keys; otherwise fails on the first missing or empty property in the order baseURL, key, secret, username, password, with that property's message; succeeds exactly when all five are present and non-empty, storing baseURL, key, secret and headers {username, password} |
| Configuration.AcceptedHasExactlyTheFields | src/index.ts:264-272 | an accepted configuration has exactly the five expected keys and no other |
| TokenLifecycle.Fresh | src/index.ts:221-225 | the token is fresh exactly when its issue time is defined and less than 3,500,000 ms old (an undefined issue time compares as NaN, so it is stale) |
| TokenLifecycle.GrantRequest | src/index.ts:240-247 | the grant is a POST of {app_key, app_secret} to baseURL + "/checkout/token/grant" with the credential headers |
| TokenLifecycle.RefreshRequest | src/index.ts:253-261 | the refresh is a POST of {app_key, app_secret, refresh_token} to baseURL + "/checkout/token/refresh" with the credential headers |
| TokenLifecycle.Issue | src/index.ts:213-218 | fails with `msg` exactly when the reply has a truthy status and a truthy msg, leaving the state unchanged; otherwise stores id_token, refresh_token and `now` and returns the stored token |
| TokenLifecycle.GetTokenStep | src/index.ts:208-237 | at most one request; none exactly when a truthy token is fresh, and then it returns the cached token with no state change; a grant when no truthy token is held; a refresh with the stored refresh token when stale, which for a consistent state means issued at least 3,500,000 ms ago; a failure leaves all three fields unchanged; a success returns the stored token, which is then fresh; a changed state has issue time `now`; consistency is preserved |
| TokenLifecycle.GrantOutcome | src/index.ts:209-218 | with no token: a `status` of "fail" throws "Invalid API Credentials Provided", a truthy status with a truthy msg throws msg, a transport error propagates, each leaving the state unchanged; otherwise id_token, refresh_token and `now` are stored and id_token returned |
| TokenLifecycle.FreshTokenReused | src/index.ts:221-225 | a token under 3500 s old is returned with no request and no state change |
| TokenLifecycle.StaleTokenRefreshed | src/index.ts:227-236 | a token 3500 s old or more is refreshed with the stored refresh token; a {status, msg} reply throws msg and keeps the state; otherwise the reply's tokens and `now` are stored |
| TokenLifecycle.FailedCallIsRetried | src/index.ts:228-231 | a failed call keeps the state, so the next call at the same or a later time contacts the gateway again |
| TokenLifecycle.Run | src/index.ts:208-237 | n successive calls, each with its own clock reading and gateway, give n request lists, each of at most one request |
| TokenLifecycle.CachedWindowIsSilent | src/index.ts:221-225 | no call made within 3500 s of the held token's issue sends anything, and the state is unchanged |
| TokenLifecycle.RunKeepsConsistent | src/index.ts:215-217 | token and issue time are written together, so after any run of calls, whatever the gateway answers at each, a truthy token has an issue time |
| TokenLifecycle.GrantRetriedAfterFailure | src/index.ts:209-218 | a grant that fails in any way (transport error, `status` "fail", or a `{status, msg}` reply) leaves no token, so the next call grants again; when that grant succeeds, its reply's id_token and refresh_token are stored with that call's time |
| TokenLifecycle.ReuseThenRefresh | src/index.ts:221-231 | a token issued at T0 is reused at T0+3000 s and refreshed by exactly one request at T0+3600 s |
| Operations.ExecuteError | src/index.ts:120-126 | a `BkashException` is rethrown unchanged, any other error becomes the fixed timeout `BkashException` |
| Operations.CreatePaymentPayload | src/index.ts:92-98 | the create body carries currency "BDT", the order ID as merchantInvoiceNumber, amount and intent unchanged, and association info defaulting to "" |
| Operations.CreatePaymentPayloadInjective | src/index.ts:92-98 | two argument records give the same create body exactly when they agree, with absent and empty association info the same |
| Operations.CreatePaymentRequest | src/index.ts:100-101 | a POST of the create body to baseURL + "/checkout/payment/create" with the given auth headers |
| Operations.ExecutePaymentRequest | src/index.ts:115-119 | a POST of the default empty body to baseURL + "/checkout/payment/execute/" + paymentID with the given auth headers |
| Operations.QueryPaymentRequest | src/index.ts:139-140 | a GET of baseURL + "/checkout/payment/query/" + paymentID with the given auth headers |
| Operations.SearchTransactionRequest | src/index.ts:153-156 | a GET of baseURL + "/checkout/payment/query/" + trxID with the given auth headers |
| Operations.RefundTransactionRequest | src/index.ts:176-180 | a POST of the refund arguments, unchanged, to baseURL + "/checkout/payment/refund" with the given auth headers |
| Operations.RefundStatusRequest | src/index.ts:194-198 | a POST of only {trxID, paymentID} to baseURL + "/checkout/payment/refund" with the given auth headers |
| Operations.EveryOperationSendsCurrentToken | src/index.ts:201-207 | for each of the six operations, after a successful token step the one request added carries {authorization: the token now held, x-app-key: key}, and that token is fresh at `now` |
| Operations.AuthorizedCall | src/index.ts:138-141 | the token state changes exactly as `getToken` changes it; a token failure is thrown before the request is sent; otherwise exactly one request is added after the token requests, built from the header of the token now held, whose issue time is fresh (the token itself is undefined when the grant or refresh reply had no `id_token`); a parsed reply is returned unchanged, and a transport error of that request is thrown unwrapped, since these operations have no `try`/`catch` |
| Operations.ExecutePaymentCall | src/index.ts:112-127 | every error `executePayment` throws is a `BkashException` |
| Operations.ExecutePaymentErrors | src/index.ts:112-126 | a token `BkashException` is rethrown as is; a transport error in the token step or in the post becomes the timeout message; a parsed reply is returned |
| Operations.QueryAndSearchCoincide | src/index.ts:138-157 | `queryPayment(id)` and `searchTransaction(id)` send the same GET to baseURL + "/checkout/payment/query/" + id |
| Operations.RefundRequests | src/index.ts:175-199 | refund and refund status use the same endpoint; the refund amount string is posted unchanged; refund status posts only the two IDs |
| Gateway.BkashGateway.constructor | src/index.ts:64-71 | stores baseURL, key, secret and the credential headers, with no token held |
| Gateway.BkashGateway.Create | src/index.ts:58-72 | a rejected configuration creates no gateway and throws the `Configure` error; an accepted one gives a new gateway holding the accepted settings and no token |
| Gateway.BkashGateway.GetInitialToken | src/index.ts:239-250 | posts {app_key, app_secret} to baseURL + "/checkout/token/grant" with the credential headers; a `status` of "fail" throws "Invalid API Credentials Provided", anything else parsed is returned |
| Gateway.BkashGateway.NewToken | src/index.ts:252-262 | posts {app_key, app_secret, refresh_token} to baseURL + "/checkout/token/refresh" with the credential headers and returns the reply as it is |
| Gateway.BkashGateway.GetToken | src/index.ts:208-237 | updates the three token fields, returns the token or error and sends the requests exactly as `GetTokenStep` says, keeping the object invariant; with a token held, it contacts the gateway only when that token was issued at least 3,500,000 ms before `now` |
| Gateway.BkashGateway.CreateTokenHeader | src/index.ts:201-207 | one `getToken` step, then {authorization: token, x-app-key: key} |
| Gateway.BkashGateway.Authorized | src/index.ts:138-141 | the shared operation template equals `AuthorizedCall` |
| Gateway.BkashGateway.CreatePayment | src/index.ts:89-102 | equals `AuthorizedCall` with the create-payment POST |
| Gateway.BkashGateway.ExecutePayment | src/index.ts:112-127 | equals `ExecutePaymentCall`, the execute POST with errors mapped |
| Gateway.BkashGateway.QueryPayment | src/index.ts:138-141 | equals `AuthorizedCall` with the payment query GET |
| Gateway.BkashGateway.SearchTransaction | src/index.ts:152-157 | equals `AuthorizedCall` with the payment query GET on the transaction ID |
| Gateway.BkashGateway.RefundTransaction | src/index.ts:175-181 | equals `AuthorizedCall` with the refund POST of the given arguments |
| Gateway.BkashGateway.RefundStatus | src/index.ts:193-199 | equals `AuthorizedCall` with the refund POST of {trxID, paymentID} |

## Left out

- Transport internals (`src/utils/request.ts`) are left out: `node-fetch`, the default JSON headers, the 30-second `AbortController` timer and JSON parsing. A request's reply comes from the `Network` oracle, either a parsed body or a failure. An abort, a network error and a JSON parse error are all the same `Failed(reason)`.
- Response bodies are maps from field names to strings. JSON values that are not strings are not modelled, and neither are bodies that are not objects.
- The clock is read once per `getToken` call (`now`). The source reads `Date.now()` again after the grant or refresh reply. So the stored issue time can be later than `now` by the network round trip.
- `diffSeconds` uses exact real division instead of IEEE-754 floating point. For millisecond integers in the clock's range, this does not change the `< 3500` comparison.
- `amount` of `createPayment` is a `real` that is carried through unchanged. There is no validation of amounts.
- Concurrency is left out. The model treats each call as atomic and sequential, so the race where two overlapping calls both refresh a stale token is not modelled.
- Configuration values are modelled as strings, or as `undefined`/`null` (`None`). Other JavaScript values, such as numbers, are not modelled.
- `IRefundArgs` extends `Record<string, string>`. Extra keys are posted too, but the model carries only the four declared fields.
- `BkashException`'s `name` and `stack` properties are not modelled. Only its message is kept.
- The example Express server and controllers, the async-generator demo script, the build configuration and the live-gateway test suite are not part of this model.
