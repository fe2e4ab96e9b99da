# Auth proxy request pipeline, modelled in Dafny

This project models the request pipeline of a small authentication gateway, an
Express application. After the JSON body parser (src/app.js:11), every request
passes a token middleware. The middleware reads `Authorization`, requires the exact
prefix `Bearer `, takes `header.split('Bearer ')[1]` as the Firebase ID token and
asks the verifier for its uid. `/hello` then mints Google service headers for the hello-service URL, sets
`X-User-ID` to the verified uid, and forwards a `GET` to the service. The handler
maps each outcome to the client's status and body. `/health` replies `200 OK`, but
only after the same middleware has admitted the request.

The verifier, the header minting and `fetch` are foreign code. Here they are
oracles: total functions passed in (`Pipeline.Services`) that return a tagged
outcome. Each request's result is an `Exchange`: the reply plus the list of oracle
calls made, each with its argument and in order. That list lets the properties say
what the verifier was handed, that no fetch happens without a verified token, and
the exact header map sent downstream.

Files:

- `wrappers.dfy`: `Option`.
- `js_string.dfy`: `startsWith`, `indexOf`, `split` and `join` as ECMAScript
  defines them for a non-empty string separator, with the lemmas that `split`
  is undone by `join` and that no piece contains the separator.
- `bearer.dfy`: the middleware's format check and its token extraction.
- `pipeline.dfy`: the pipeline as functions. `Authenticate` is the middleware,
  `HelloExchange` the `/hello` handler, `HealthReply` the `/health` handler and
  `Handle` the whole request.
- `pipeline_properties.dfy`: the lemmas that hold for every request and every
  oracle behaviour.
- `gateway.dfy`: the application as the code runs it. `IncomingRequest` is a
  class whose `userId` field the middleware sets. `AuthProxy` holds the service
  URL and has one method per handler. Each method is proved to produce exactly
  what its pipeline function describes: `VerifyToken` that of `Authenticate`,
  `ServeHello` that of `HelloExchange` and `Serve` that of `Handle`.

The model follows the code at each of these points:

- A header of exactly `"Bearer "` passes the prefix check and sends an empty token
  to the verifier. So does a header with a second `"Bearer "` right after the first,
  as in `"Bearer Bearer x"`. Neither ends in 401 (src/app.js:43-47).
- A non-2xx downstream body is relayed as `"Error from hello-service: " + text`,
  not unchanged (src/app.js:78).
- Only the downstream status and body text are relayed. The downstream response
  headers are not copied to the client (src/app.js:82), so `Reply` has no headers.
- A 500 reply carries the failure's own message, `"Internal Server Error: " + message`
  (src/app.js:86).
- `/health` sits behind the token middleware, because `app.use` at src/app.js:40 is
  registered before the route at src/app.js:91.
- There is no service-credential cache and no single-flight refresh. Headers are
  minted afresh on every `/hello` request (src/app.js:65-66).

## Model

| member | source | states |
|---|---|---|
| `JsString.IndexOf` | src/app.js:47 | the result is the first index at or after `from` where the separator occurs; it is `None` only when there is no such index |
| `JsString.JoinSplit` | src/app.js:47 | joining the pieces of `split(sep)` with `sep` gives back the original string |
| `JsString.PiecesAvoidSeparator` | src/app.js:47 | no piece returned by `split(sep)` contains `sep` |
| `Bearer.SplitAtPrefix` | src/app.js:43-47 | a header that passed the `startsWith('Bearer ')` test splits into `""` followed by at least one more piece, so index 1 always exists |
| `Bearer.TokenBetweenOccurrences` | src/app.js:47 | the token is exactly the text after the leading `Bearer ` up to the next `Bearer ` or the end of the header |
| `Bearer.SingleOccurrenceToken` | src/app.js:47 | with only one `Bearer ` in the header, the token is everything after the prefix, possibly empty |
| `Bearer.TokenHasNoPrefix` | src/app.js:47 | the token handed to the verifier never contains `Bearer ` |
| `Bearer.TokenExamples` | src/app.js:43-47 | `"Bearer a Bearer b"` yields `"a "`; `"bearer abc"`, `"Bearer"` and no header all fail the case-sensitive check |
| `Bearer.EmptyTokenExamples` | src/app.js:43-47 | `"Bearer "` and `"Bearer Bearer x"` both pass the check and hand the verifier an empty token |
| `Pipeline.WithIdentity` | src/app.js:66-67 | the outbound map has the minted keys plus `X-User-ID`; `X-User-ID` holds the uid, overwriting any minted value; every other minted entry is unchanged |
| `PipelineProperties.UnauthorizedIffMalformed` | src/app.js:41-45 | no oracle is called exactly when the header is missing, empty or lacks the exact prefix; in that case, and only then, the reply is 401 with the fixed body |
| `PipelineProperties.VerifierGetsSplitToken` | src/app.js:47-50 | for a well-formed header the first call made is to the verifier, with `split(header, 'Bearer ')[1]` |
| `PipelineProperties.ForbiddenIffVerifyFails` | src/app.js:49-57 | for a well-formed header the reply is 403 with the fixed body exactly when the verifier rejects; then the verifier is the only call made |
| `PipelineProperties.MintOnlyAfterVerification` | src/app.js:53-66 | header minting happens only on `/hello`, after the token verified, and for the service URL as audience |
| `PipelineProperties.FetchOnlyAfterVerification` | src/app.js:61-73 | a downstream fetch happens only after verification and minting succeeded; it is a `GET` to the service URL with exactly the minted headers plus `X-User-ID` equal to the verified uid |
| `PipelineProperties.StagesInOrder` | src/app.js:40-88 | at most three calls, in the order verify, mint, fetch; each happens exactly when every earlier stage succeeded |
| `PipelineProperties.DownstreamRelayed` | src/app.js:75-82 | a readable downstream response keeps its status; a 2xx body is relayed unchanged and any other body is prefixed with `Error from hello-service: ` |
| `PipelineProperties.InternalErrors` | src/app.js:62-86 | a failure in minting, in the fetch or in reading the body yields 500 with `Internal Server Error: ` followed by that failure's message |
| `PipelineProperties.EveryPathEnds` | src/app.js:40-93 | every request that reaches the token middleware and whose collaborator calls all finish fits exactly one of five endings: the 401 with no calls, the 403 after the verifier alone, a 500 with the internal-error prefix, the admitted health reply, or the status of a downstream response whose body was read |
| `PipelineProperties.HealthIsGated` | src/app.js:40-93 | `/health` replies 200 `OK` exactly when the header is well formed and the token verifies, and the verifier is the only collaborator it calls: it never mints or fetches |
| `PipelineProperties.OnlyAuthorizationMatters` | src/app.js:41-67 | two requests on the same route with the same `authorization` header, given the same collaborator behaviour, get the same reply and the same calls, so a client-sent `X-User-ID` has no effect |
| `Gateway.AuthProxy.constructor` | src/app.js:28-33 | the application is only built with a non-empty service URL |
| `Gateway.AuthProxy.VerifyToken` | src/app.js:40-58 | the middleware either returns the 401/403 rejection and leaves `req.userId` alone, or sets `req.userId` to the verified uid and returns no reply; its calls are those of `Authenticate` |
| `Gateway.AuthProxy.ServeHello` | src/app.js:61-88 | the handler's reply and calls, with the outbound headers built by a map update of the minted headers, are exactly `HelloExchange` for the uid stored on the request |
| `Gateway.AuthProxy.Serve` | src/app.js:40-93 | middleware followed by the route's handler produces exactly `Handle`'s exchange and leaves `req.userId` set to the verified uid when admitted |

## Left out

- Firebase ID-token verification (src/app.js:50) is a foreign library call; it is the `verify` oracle, which yields a uid or an error message.
- `getIdTokenClient` and `getRequestHeaders` (src/app.js:65-66) are foreign library calls. They are merged into one `mint` oracle applied to the service URL. Either step failing is a `MintFailed` with its message.
- node-fetch transport and `response.text()` (src/app.js:70-81) are network I/O; they are the `fetch` oracle, whose response can also fail while its body is read.
- Startup is configuration and process control, so it is left out: the service-account file (src/app.js:18-23), the exit on a missing `HELLO_SERVICE_URL` (src/app.js:28-33), and `app.listen` (src/app.js:95-97). The only trace of the exit check is the `AuthProxy` constructor's precondition.
- The `express.json` body parser (src/app.js:11) runs on every request before the token middleware. A body it rejects, one that fails to parse as JSON or is too large, ends the request with the parser's error before any 401 or 403. The model starts at the middleware, so it covers only requests the parser passed on; the parsed body itself is never read by the core.
- Each collaborator call is assumed to finish. The code sets no timeout on `verifyIdToken` (src/app.js:50), `getIdTokenClient` and `getRequestHeaders` (src/app.js:65-66), `fetch` (src/app.js:70-73) or `response.text()` (src/app.js:76, 81). A call that never settles leaves the client request with no reply at all. The oracles are total functions, so the model cannot represent such a request, and every ending it proves assumes each call has settled.
- Console logging is output only and changes no reply.
- Async scheduling and concurrent requests are left out; each request is independent in this code, so one request is modelled at a time.
- Express routing is library behaviour. The model takes the matched route as given (`Hello` or `Health`), and it does not model the default 404 a request on any other path receives after passing the middleware.
- HTTP status codes from the downstream service are relayed as any integer. Express's own checks on the range of a status code are not modelled.
- JavaScript strings are sequences of UTF-16 code units. In the model, `string` characters stand for code units; a lone surrogate cannot be represented, since a Dafny `char` is a Unicode scalar value. No normalisation is done. The separator `Bearer ` is ASCII, so the split is unaffected for every header the model can represent.
