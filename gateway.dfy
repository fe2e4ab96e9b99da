/**
 * The application as the code runs it, step by step: the middleware records the
 * verified uid on the request object before passing it on, and the `/hello`
 * handler builds the outbound header map by a map update of the minted headers.
 * Each method is proved to produce exactly what its pipeline function describes:
 * `VerifyToken` that of `Authenticate`, `ServeHello` that of `HelloExchange` and
 * `Serve` that of `Handle`. So every property proved of those functions holds of
 * these methods.
 */
module Gateway {
  import opened Wrappers
  import opened JsString
  import Bearer
  import opened Pipeline

  /** The request object handed along the middleware chain. */
  class IncomingRequest {
    const route: Route
    const headers: Headers
    /** `req.userId`, set by the middleware once the token has been verified. */
    var userId: Option<string>

    constructor (route: Route, headers: Headers)
      ensures this.route == route && this.headers == headers && userId == None
    {
      this.route := route;
      this.headers := headers;
      userId := None;
    }

    /** The request as a value: route and inbound headers. */
    function View(): Request {
      Request(route, headers)
    }
  }

  /** The application, configured with the downstream service URL. */
  class AuthProxy {
    const serviceUrl: string

    /** The service URL is required: the process exits at startup when it is unset or empty. */
    constructor (serviceUrl: string)
      requires serviceUrl != ""
      ensures this.serviceUrl == serviceUrl
    {
      this.serviceUrl := serviceUrl;
    }

    /** The token middleware: either a reply that ends the request, or `req.userId` set and no reply. */
    method VerifyToken(req: IncomingRequest, verify: string -> VerifyOutcome)
      returns (rejection: Option<Reply>, calls: seq<Call>)
      modifies req
      ensures calls == Authenticate(req.View(), verify).calls
      ensures Authenticate(req.View(), verify).Rejected? ==>
        rejection == Some(Authenticate(req.View(), verify).reply) && req.userId == old(req.userId)
      ensures Authenticate(req.View(), verify).Admitted? ==>
        rejection == None && req.userId == Some(Authenticate(req.View(), verify).uid)
    {
      var authHeader := AuthorizationOf(req.headers);
      if authHeader.None? || authHeader.value == "" || !StartsWith(authHeader.value, Bearer.Prefix) {
        return Some(Reply(401, UnauthorizedBody)), [];
      }
      var idToken := Bearer.ExtractToken(authHeader.value);
      calls := [VerifyCall(idToken)];
      match verify(idToken)
      case Verified(uid) =>
        req.userId := Some(uid);
        rejection := None;
      case VerifyFailed(_) =>
        rejection := Some(Reply(403, ForbiddenBody));
    }

    /** The `/hello` handler, for a request the middleware has admitted. */
    method ServeHello(req: IncomingRequest, mint: string -> MintOutcome, fetch: Outbound -> FetchOutcome)
      returns (reply: Reply, calls: seq<Call>)
      requires req.userId.Some?
      ensures Exchange(reply, calls) == HelloExchange(serviceUrl, req.userId.value, mint, fetch)
    {
      calls := [MintCall(serviceUrl)];
      var client := mint(serviceUrl);
      if client.MintFailed? {
        return Reply(500, InternalErrorPrefix + client.message), calls;
      }
      var headers := client.headers;
      headers := headers[IdentityHeader := req.userId.value];
      var request := Outbound(ForwardMethod, serviceUrl, headers);
      calls := calls + [FetchCall(request)];
      var response := fetch(request);
      if response.FetchFailed? {
        return Reply(500, InternalErrorPrefix + response.message), calls;
      }
      if response.body.BodyFailed? {
        return Reply(500, InternalErrorPrefix + response.body.message), calls;
      }
      if !IsOk(response.status) {
        return Reply(response.status, UpstreamErrorPrefix + response.body.text), calls;
      }
      reply := Reply(response.status, response.body.text);
    }

    /** One request: the middleware, then the handler of its route. */
    method Serve(req: IncomingRequest, svc: Services) returns (reply: Reply, calls: seq<Call>)
      modifies req
      ensures Exchange(reply, calls) == Handle(serviceUrl, svc, req.View())
      ensures req.userId ==
        if Authenticate(req.View(), svc.verify).Admitted?
        then Some(Authenticate(req.View(), svc.verify).uid)
        else old(req.userId)
    {
      var rejection, authCalls := VerifyToken(req, svc.verify);
      if rejection.Some? {
        return rejection.value, authCalls;
      }
      match req.route
      case Health =>
        reply, calls := HealthReply(), authCalls;
      case Hello =>
        var helloCalls;
        reply, helloCalls := ServeHello(req, svc.mint, svc.fetch);
        calls := authCalls + helloCalls;
    }
  }
}
