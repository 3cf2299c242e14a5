/** One method call end to end, across the wire format of types.ts: a
    request as a client encodes it passes the server's frame verification and
    is read back unchanged; the reply of a registration that routes it passes
    the client's version check, carries the request's id and settles the call
    with the listener's value (null when falsy) or rejects it with the
    encoded error reply; a listener that throws null or undefined leaves the
    call unsettled. */
module Protocol {
  import opened Json
  import opened Wire
  import opened Failures
  import opened Calls
  import opened EpicalyxServer

  /** What the caller ends up with when a registration runs on a request;
      None when no reply comes, so the call is never settled. */
  function Expected(o: Outcome): Option<Settlement> {
    match o
    case Returned(v) => Some(Resolved(if Truthy(v) then v else JNull))
    case Threw(e) =>
      match ErrorReply(e)
      case None => None
      case Some(reply) => Some(Rejected(EncodeError(reply)))
  }

  lemma RequestReachesServer(req: MethodReq)
    ensures var up := EncodeUp(MethodReqUp(req));
      && VerifyMessage(Some(up)) == Some(up)
      && Field(up, "type") == JStr("method-req")
      && ReadMethodReq(up) == Some(req)
  {
    ReadEncodedMethodReq(req);
  }

  lemma MethodCallRoundTrip(matchPath: Matcher, validate: Validator, observers: seq<ObserverId>,
                            reg: Registration, req: MethodReq, conn: MatchResult)
    requires RouteFor(matchPath, reg.pattern, req.name).Some?
    ensures var a := AnswerFor(matchPath, validate, observers, reg, req, conn);
      var route := RouteFor(matchPath, reg.pattern, req.name).value;
      var expected := Expected(Invoke(validate, reg, req.params, route.pathParams));
      && (a.Some? <==> expected.Some?)
      && (a.Some? ==>
            var down := EncodeDown(MethodResDown(a.value.res));
            && ParseDown(Some(down)) == Some(down)
            && Field(down, "type") == JStr("method-res")
            && Field(down, "id") == JStr(req.id)
            && SettlementOf(down) == expected.value)
  {
    var a := AnswerFor(matchPath, validate, observers, reg, req, conn);
    if a.Some? {
      ParseDownEncoded(MethodResDown(a.value.res));
      SettlementOfEncoded(a.value.res);
    }
  }
}
