/**
 * What the request pipeline guarantees, for every request and every behaviour
 * of the verifier, the header minting and the downstream service.
 */
module PipelineProperties {
  import opened Wrappers
  import opened JsString
  import Bearer
  import opened Pipeline

  /** A body rewritten by the non-2xx branch never equals a fixed message beginning with another letter. */
  lemma UpstreamBodyIsNot(text: string, message: string)
    requires message != [] && message[0] != 'E'
    ensures UpstreamErrorPrefix + text != message
  {
    assert (UpstreamErrorPrefix + text)[0] == 'E';
  }

  /**
   * The verifier is consulted exactly when the header passes the format check;
   * otherwise the reply is the fixed 401, and a 401 with that body arises in no other way.
   */
  lemma UnauthorizedIffMalformed(url: string, svc: Services, req: Request)
    ensures Handle(url, svc, req).calls == [] <==> !Bearer.WellFormed(AuthorizationOf(req.headers))
    ensures Handle(url, svc, req).reply == Reply(401, UnauthorizedBody)
        <==> !Bearer.WellFormed(AuthorizationOf(req.headers))
  {
    if Bearer.WellFormed(AuthorizationOf(req.headers)) {
      match svc.verify(TokenOf(req))
      case VerifyFailed(_) =>
      case Verified(uid) =>
        match req.route
        case Health =>
        case Hello =>
          match svc.mint(url)
          case MintFailed(_) =>
          case Minted(minted) =>
            match svc.fetch(ForwardRequest(url, minted, uid))
            case FetchFailed(_) =>
            case Responded(status, body) =>
              match body
              case BodyFailed(_) =>
              case BodyText(text) =>
                UpstreamBodyIsNot(text, UnauthorizedBody);
    }
  }

  /** The verifier is handed `authorization.split('Bearer ')[1]`, and it is the first call made. */
  lemma VerifierGetsSplitToken(url: string, svc: Services, req: Request)
    requires Bearer.WellFormed(AuthorizationOf(req.headers))
    ensures |Handle(url, svc, req).calls| >= 1
    ensures |Split(AuthorizationOf(req.headers).value, Bearer.Prefix)| >= 2
    ensures Handle(url, svc, req).calls[0] == VerifyCall(Split(AuthorizationOf(req.headers).value, Bearer.Prefix)[1])
  {
  }

  /**
   * For a well-formed header, the reply is the fixed 403 exactly when the verifier
   * rejects the token, and then nothing but the verifier has been called.
   */
  lemma ForbiddenIffVerifyFails(url: string, svc: Services, req: Request)
    requires Bearer.WellFormed(AuthorizationOf(req.headers))
    ensures Handle(url, svc, req).reply == Reply(403, ForbiddenBody)
        <==> svc.verify(TokenOf(req)).VerifyFailed?
    ensures svc.verify(TokenOf(req)).VerifyFailed? ==> Handle(url, svc, req).calls == [VerifyCall(TokenOf(req))]
  {
    match svc.verify(TokenOf(req))
    case VerifyFailed(_) =>
    case Verified(uid) =>
      match req.route
      case Health =>
      case Hello =>
        match svc.mint(url)
        case MintFailed(_) =>
        case Minted(minted) =>
          match svc.fetch(ForwardRequest(url, minted, uid))
          case FetchFailed(_) =>
          case Responded(status, body) =>
            match body
            case BodyFailed(_) =>
            case BodyText(text) =>
              UpstreamBodyIsNot(text, ForbiddenBody);
  }

  /** Header minting happens only for `/hello`, only after the token was verified, and for the service URL. */
  lemma MintOnlyAfterVerification(url: string, svc: Services, req: Request, audience: string)
    requires MintCall(audience) in Handle(url, svc, req).calls
    ensures req.route == Hello
    ensures Bearer.WellFormed(AuthorizationOf(req.headers))
    ensures svc.verify(TokenOf(req)).Verified?
    ensures audience == url
  {
  }

  /**
   * No downstream call without a verified token: a fetch happens only after the
   * token was verified and the service headers were minted, and it is a GET to the
   * service URL carrying exactly the minted headers with `X-User-ID` set to the uid.
   */
  lemma FetchOnlyAfterVerification(url: string, svc: Services, req: Request, out: Outbound)
    requires FetchCall(out) in Handle(url, svc, req).calls
    ensures req.route == Hello
    ensures Bearer.WellFormed(AuthorizationOf(req.headers))
    ensures svc.verify(TokenOf(req)).Verified?
    ensures svc.mint(url).Minted?
    ensures Handle(url, svc, req).calls == [VerifyCall(TokenOf(req)), MintCall(url), FetchCall(out)]
    ensures out.verb == "GET" && out.url == url
    ensures out.headers == WithIdentity(svc.mint(url).headers, svc.verify(TokenOf(req)).uid)
    ensures out.headers[IdentityHeader] == svc.verify(TokenOf(req)).uid
  {
  }

  /**
   * The stages run in order and stop at the first failure: verify, then mint, then
   * fetch, each call present only if every earlier stage succeeded.
   */
  lemma StagesInOrder(url: string, svc: Services, req: Request)
    ensures |Handle(url, svc, req).calls| <= 3
    ensures |Handle(url, svc, req).calls| >= 1 <==> Bearer.WellFormed(AuthorizationOf(req.headers))
    ensures |Handle(url, svc, req).calls| >= 1 ==> Handle(url, svc, req).calls[0] == VerifyCall(TokenOf(req))
    ensures |Handle(url, svc, req).calls| >= 2 <==>
      Bearer.WellFormed(AuthorizationOf(req.headers)) && svc.verify(TokenOf(req)).Verified? && req.route == Hello
    ensures |Handle(url, svc, req).calls| >= 2 ==> Handle(url, svc, req).calls[1] == MintCall(url)
    ensures |Handle(url, svc, req).calls| == 3 <==>
      |Handle(url, svc, req).calls| >= 2 && svc.mint(url).Minted?
    ensures |Handle(url, svc, req).calls| == 3 ==>
      Handle(url, svc, req).calls[2] ==
        FetchCall(ForwardRequest(url, svc.mint(url).headers, svc.verify(TokenOf(req)).uid))
  {
  }

  /** A downstream 2xx is relayed verbatim; any other status keeps its code and has its body prefixed. */
  lemma DownstreamRelayed(url: string, svc: Services, req: Request, status: int, text: string)
    requires req.route == Hello && Bearer.WellFormed(AuthorizationOf(req.headers))
    requires svc.verify(TokenOf(req)).Verified? && svc.mint(url).Minted?
    requires svc.fetch(ForwardRequest(url, svc.mint(url).headers, svc.verify(TokenOf(req)).uid))
      == Responded(status, BodyText(text))
    ensures Handle(url, svc, req).reply.status == status
    ensures IsOk(status) ==> Handle(url, svc, req).reply.body == text
    ensures !IsOk(status) ==> Handle(url, svc, req).reply.body == UpstreamErrorPrefix + text
  {
  }

  /** A failure to mint headers, to reach the service or to read its body yields 500 with the failure's message. */
  lemma InternalErrors(url: string, svc: Services, req: Request)
    requires req.route == Hello && Bearer.WellFormed(AuthorizationOf(req.headers))
    requires svc.verify(TokenOf(req)).Verified?
    ensures svc.mint(url).MintFailed? ==>
      Handle(url, svc, req).reply == Reply(500, InternalErrorPrefix + svc.mint(url).message)
    ensures svc.mint(url).Minted? ==>
      var fetched := svc.fetch(ForwardRequest(url, svc.mint(url).headers, svc.verify(TokenOf(req)).uid));
      && (fetched.FetchFailed? ==> Handle(url, svc, req).reply == Reply(500, InternalErrorPrefix + fetched.message))
      && (fetched.Responded? && fetched.body.BodyFailed? ==>
            Handle(url, svc, req).reply == Reply(500, InternalErrorPrefix + fetched.body.message))
  {
  }

  /** The request ended in the fixed 401, before any collaborator was called. */
  predicate EndsUnauthorized(e: Exchange) {
    e.reply == Reply(401, UnauthorizedBody) && e.calls == []
  }

  /** The request ended in the fixed 403, after the verifier alone was called. */
  predicate EndsForbidden(e: Exchange) {
    e.reply == Reply(403, ForbiddenBody) && |e.calls| == 1
  }

  /** The request ended in a 500 carrying a failure's message, after minting had been attempted. */
  predicate EndsInternal(e: Exchange) {
    e.reply.status == 500 && StartsWith(e.reply.body, InternalErrorPrefix) && |e.calls| >= 2
  }

  /** The request was a `/health` check that the middleware admitted. */
  predicate EndsHealthy(e: Exchange, req: Request) {
    e.reply == HealthReply() && req.route == Health && |e.calls| == 1
  }

  /** The request ended with the status of a downstream response whose body was read. */
  predicate EndsRelayed(e: Exchange, svc: Services) {
    && |e.calls| == 3 && e.calls[2].FetchCall?
    && svc.fetch(e.calls[2].request).Responded?
    && svc.fetch(e.calls[2].request).body.BodyText?
    && e.reply.status == svc.fetch(e.calls[2].request).status
  }

  /** How many of the five endings an exchange fits. */
  function EndingsMet(e: Exchange, svc: Services, req: Request): nat {
    (if EndsUnauthorized(e) then 1 else 0) + (if EndsForbidden(e) then 1 else 0)
    + (if EndsInternal(e) then 1 else 0) + (if EndsHealthy(e, req) then 1 else 0)
    + (if EndsRelayed(e, svc) then 1 else 0)
  }

  /** A string built as `prefix + rest` starts with `prefix`. */
  lemma PrefixedStartsWith(prefix: string, rest: string)
    ensures StartsWith(prefix + rest, prefix)
  {
    assert (prefix + rest)[..|prefix|] == prefix;
  }

  /** A body rewritten by the non-2xx branch does not start with the internal-error prefix. */
  lemma UpstreamBodyIsNotInternal(text: string)
    ensures !StartsWith(UpstreamErrorPrefix + text, InternalErrorPrefix)
  {
    assert (UpstreamErrorPrefix + text)[0] == 'E';
    assert InternalErrorPrefix[0] == 'I';
  }

  /**
   * Every request that reaches the token middleware (the JSON body parser having
   * passed it on) and whose collaborator calls all finish ends in exactly one way:
   * the 401, the 403, a 500 carrying the failure's message, the health reply, or
   * the downstream service's own status.
   */
  lemma EveryPathEnds(url: string, svc: Services, req: Request)
    ensures EndingsMet(Handle(url, svc, req), svc, req) == 1
  {
    var e := Handle(url, svc, req);
    if Bearer.WellFormed(AuthorizationOf(req.headers)) && svc.verify(TokenOf(req)).Verified? && req.route == Hello {
      var uid := svc.verify(TokenOf(req)).uid;
      match svc.mint(url)
      case MintFailed(m) =>
        PrefixedStartsWith(InternalErrorPrefix, m);
      case Minted(minted) =>
        match svc.fetch(ForwardRequest(url, minted, uid))
        case FetchFailed(m) =>
          PrefixedStartsWith(InternalErrorPrefix, m);
        case Responded(status, body) =>
          match body
          case BodyFailed(m) =>
            PrefixedStartsWith(InternalErrorPrefix, m);
          case BodyText(text) =>
            if !IsOk(status) {
              UpstreamBodyIsNotInternal(text);
            }
    }
  }

  /** `/health` sits behind the middleware: it answers 200 "OK" exactly when the token verifies, and never reaches the service. */
  lemma HealthIsGated(url: string, svc: Services, req: Request)
    requires req.route == Health
    ensures Handle(url, svc, req).reply == HealthReply()
        <==> Bearer.WellFormed(AuthorizationOf(req.headers)) && svc.verify(TokenOf(req)).Verified?
    ensures |Handle(url, svc, req).calls| <= 1
    ensures forall c :: c in Handle(url, svc, req).calls ==> c.VerifyCall?
  {
  }

  /**
   * With the collaborators behaving the same, only the route and the `authorization`
   * header of the inbound request matter: in particular a
   * client-supplied identity header can change neither the reply nor what is sent downstream.
   */
  lemma OnlyAuthorizationMatters(url: string, svc: Services, r1: Request, r2: Request)
    requires r1.route == r2.route
    requires AuthorizationOf(r1.headers) == AuthorizationOf(r2.headers)
    ensures Handle(url, svc, r1) == Handle(url, svc, r2)
  {
  }
}
