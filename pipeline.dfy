/**
 * One request through the auth proxy, as a short-circuiting sequence of stages:
 * the token middleware, then the `/hello` proxy handler or the `/health` handler.
 *
 * The three foreign collaborators are oracles passed in as total functions:
 * the Firebase ID-token verifier, the Google ID-token client that mints the
 * service headers for an audience, and the HTTP fetch. Every call the pipeline
 * makes to them is recorded, with its argument, in the order it is made.
 */
module Pipeline {
  import opened Wrappers
  import opened JsString
  import Bearer

  type Headers = map<string, string>

  /** Inbound header names arrive lower-cased, so the client's header is found under this key. */
  const AuthorizationKey: string := "authorization"
  /** The identity-assertion header set on the downstream call. */
  const IdentityHeader: string := "X-User-ID"
  const ForwardMethod: string := "GET"

  // Written as two literals so that Dafny can see `UnauthorizedBody[0]`.
  const UnauthorizedBody: string := "Unauthorized: " + "No token provided or invalid format"
  const ForbiddenBody: string := "Forbidden: Invalid or expired token"
  const UpstreamErrorPrefix: string := "Error from hello-service: "
  const InternalErrorPrefix: string := "Internal Server Error: "
  const HealthBody: string := "OK"

  /** The routes the application registers. */
  datatype Route = Hello | Health

  /** An inbound client request: the matched route and its headers. */
  datatype Request = Request(route: Route, headers: Headers)

  /** What is sent back to the client: `res.status(status).send(body)`. */
  datatype Reply = Reply(status: int, body: string)

  /** `verifyIdToken(token)`: resolves to the decoded token's uid, or rejects. */
  datatype VerifyOutcome = Verified(uid: string) | VerifyFailed(message: string)

  /** `getIdTokenClient(url)` followed by `getRequestHeaders()`: the service headers, or a rejection. */
  datatype MintOutcome = Minted(headers: Headers) | MintFailed(message: string)

  /** `response.text()`: the body text, or a rejection while reading it. */
  datatype Body = BodyText(text: string) | BodyFailed(message: string)

  /** `fetch(url, options)`: a response with its status, or a transport failure. */
  datatype FetchOutcome = Responded(status: int, body: Body) | FetchFailed(message: string)

  /** The downstream request handed to fetch. */
  datatype Outbound = Outbound(verb: string, url: string, headers: Headers)

  datatype Services = Services(
    verify: string -> VerifyOutcome,
    mint: string -> MintOutcome,
    fetch: Outbound -> FetchOutcome)

  /** One call into a foreign collaborator, with what it was given. */
  datatype Call = VerifyCall(token: string) | MintCall(audience: string) | FetchCall(request: Outbound)

  /** The reply together with the calls made to produce it. */
  datatype Exchange = Exchange(reply: Reply, calls: seq<Call>)

  /** The middleware either ends the request or passes it on with the verified uid. */
  datatype AuthStep = Rejected(reply: Reply, calls: seq<Call>) | Admitted(uid: string, calls: seq<Call>)

  /** `req.headers.authorization`. */
  function AuthorizationOf(headers: Headers): Option<string> {
    if AuthorizationKey in headers then Some(headers[AuthorizationKey]) else None
  }

  /** The token the middleware sends to the verifier, for a header that passed the format check. */
  function TokenOf(req: Request): string
    requires Bearer.WellFormed(AuthorizationOf(req.headers))
  {
    Bearer.ExtractToken(AuthorizationOf(req.headers).value)
  }

  /** The token middleware, registered for every route. */
  function Authenticate(req: Request, verify: string -> VerifyOutcome): AuthStep {
    if !Bearer.WellFormed(AuthorizationOf(req.headers)) then
      Rejected(Reply(401, UnauthorizedBody), [])
    else
      var token := TokenOf(req);
      match verify(token)
      case Verified(uid) => Admitted(uid, [VerifyCall(token)])
      case VerifyFailed(_) => Rejected(Reply(403, ForbiddenBody), [VerifyCall(token)])
  }

  /** `headers['X-User-ID'] = uid`: overwrites the one key and leaves every other as minted. */
  function WithIdentity(minted: Headers, uid: string): (h: Headers)
    ensures h.Keys == minted.Keys + {IdentityHeader}
    ensures h[IdentityHeader] == uid
    ensures forall k :: k in minted && k != IdentityHeader ==> h[k] == minted[k]
  {
    minted[IdentityHeader := uid]
  }

  /** `response.ok`. */
  predicate IsOk(status: int) {
    200 <= status <= 299
  }

  /** The reply for a downstream response, once its body has been read (or failed to be). */
  function Relay(status: int, body: Body): Reply {
    match body
    case BodyFailed(message) => Reply(500, InternalErrorPrefix + message)
    case BodyText(text) =>
      if IsOk(status) then Reply(status, text) else Reply(status, UpstreamErrorPrefix + text)
  }

  /** The outbound request for a verified uid and the minted service headers. */
  function ForwardRequest(url: string, minted: Headers, uid: string): Outbound {
    Outbound(ForwardMethod, url, WithIdentity(minted, uid))
  }

  /** The `/hello` handler, run after the middleware has admitted `uid`. */
  function HelloExchange(url: string, uid: string, mint: string -> MintOutcome, fetch: Outbound -> FetchOutcome): Exchange {
    match mint(url)
    case MintFailed(message) => Exchange(Reply(500, InternalErrorPrefix + message), [MintCall(url)])
    case Minted(minted) =>
      var out := ForwardRequest(url, minted, uid);
      var calls := [MintCall(url), FetchCall(out)];
      match fetch(out)
      case FetchFailed(message) => Exchange(Reply(500, InternalErrorPrefix + message), calls)
      case Responded(status, body) => Exchange(Relay(status, body), calls)
  }

  /** The `/health` handler. */
  function HealthReply(): Reply {
    Reply(200, HealthBody)
  }

  /** A whole request: the middleware, then the handler of the matched route. */
  function Handle(url: string, svc: Services, req: Request): Exchange {
    match Authenticate(req, svc.verify)
    case Rejected(reply, calls) => Exchange(reply, calls)
    case Admitted(uid, calls) =>
      match req.route
      case Health => Exchange(HealthReply(), calls)
      case Hello =>
        var hello := HelloExchange(url, uid, svc.mint, svc.fetch);
        Exchange(hello.reply, calls + hello.calls)
  }
}
