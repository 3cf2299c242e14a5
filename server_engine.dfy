/** The newer server session engine (server/epicalyx.ts): a table of connected
    clients, each with its close callbacks and its method registrations, the
    verification of incoming frames, method dispatch by exact name or by path
    pattern, error normalisation, and ping/pong eviction of dead peers. */
module EpicalyxServer {
  import opened Json
  import opened Wire
  import opened Failures

  type ClientId = string

  /** A function passed to a context's `onClose`. */
  type CallbackId = nat

  /** A function passed to `onMethodError`. */
  type ObserverId = nat

  /** A method listener `(params, pathParams) => result`. */
  type Handler = (Json, Params) -> Outcome

  /** A function passed to `onClientAdded`. */
  type HookId = nat

  /** One `registerMethod` call: its pattern, its listener and its
      `paramsDescriptor`, null until `validateParams` sets it. */
  datatype Registration = Registration(pattern: string, handler: Handler, descriptor: Json)

  /** What a method-error observer receives. */
  datatype MethodErrorReport = MethodErrorReport(
    error: Thrown,
    connectionQuery: map<string, string>,
    connectionPathParams: Params,
    reqMethod: string,
    usedMethod: string,
    methodParams: Json)

  /** One observer call. */
  datatype Notice = Notice(observer: ObserverId, report: MethodErrorReport)

  datatype CloseParams = CloseParams(code: string, reason: string)

  // ---------------------------------------------------------------------------
  // Pure parts: frame verification, routing, invocation and the reply

  /** `verifyMessage` applied to the outcome of JSON.parse (None when it threw):
      the frame is dropped exactly when it is not JSON, its `epicalyx` is not
      "1.0" or its `type` is not a string, and is otherwise kept unchanged. */
  function VerifyMessage(parsed: Option<Json>): (r: Option<Json>)
    ensures r.None? <==>
      parsed.None? || Field(parsed.value, "epicalyx") != JStr(Version) || !IsString(Field(parsed.value, "type"))
    ensures r.Some? ==> r == parsed
  {
    var json := if parsed.Some? then parsed.value else JNull;
    if !Truthy(json) then None
    else if Field(json, "epicalyx") != JStr(Version) then None
    else if !IsString(Field(json, "type")) then None
    else Some(json)
  }

  /** Prefix a name with '/' unless it already starts with one. */
  function Slashed(s: string): (r: string)
    ensures StartsWithSlash(r)
    ensures StartsWithSlash(s) ==> r == s
    ensures !StartsWithSlash(s) ==> r == "/" + s
  {
    if StartsWithSlash(s) then s else "/" + s
  }

  /** How a registration is reached: the pattern actually used and the path parameters. */
  datatype Route = Route(usedMethod: string, pathParams: Params)

  /** Routing one registration for a requested method name: an exact match
      takes the pattern as it is with no path parameters; otherwise both are
      '/'-prefixed and handed to matchPath, whose failure means no route. */
  function RouteFor(matchPath: Matcher, pattern: string, name: string): (r: Option<Route>)
    ensures name == pattern ==> r == Some(Route(pattern, map[]))
    ensures name != pattern ==> (r.None? <==> matchPath(Slashed(pattern), Slashed(name)).None?)
    ensures name != pattern && r.Some? ==>
      r.value.usedMethod == Slashed(pattern) &&
      r.value.pathParams == matchPath(Slashed(pattern), Slashed(name)).value.params
  {
    if name == pattern then Some(Route(pattern, map[]))
    else
      match matchPath(Slashed(pattern), Slashed(name))
      case None => None
      case Some(m) => Some(Route(Slashed(pattern), m.params))
  }

  /** Running a registration: the parameters are validated only against a
      truthy descriptor, then the listener runs. */
  function Invoke(validate: Validator, reg: Registration, params: Json, pathParams: Params): (o: Outcome)
    ensures !Truthy(reg.descriptor) || validate(reg.descriptor, params).Valid? ==> o == reg.handler(params, pathParams)
    ensures Truthy(reg.descriptor) && validate(reg.descriptor, params).Invalid? ==>
      o.Threw? && o.error.Thrown? && ErrorReply(o.error).Some? &&
      var errs := validate(reg.descriptor, params).errors;
      (|errs| > 0 ==> ErrorReply(o.error).value == ResError(UserFault, JStr(FaultMessage(errs[0])))) &&
      (|errs| == 0 ==> ErrorReply(o.error).value.code == InternalError)
  {
    var failure := if Truthy(reg.descriptor) then ValidationFailure(validate(reg.descriptor, params)) else None;
    if failure.Some? then
      ValidationReply(validate(reg.descriptor, params));
      Threw(failure.value)
    else reg.handler(params, pathParams)
  }

  /** One call per method-error observer, in registration order. */
  function NoticesFor(observers: seq<ObserverId>, report: MethodErrorReport): (ns: seq<Notice>)
    ensures |ns| == |observers|
    ensures forall i :: 0 <= i < |ns| ==> ns[i] == Notice(observers[i], report)
  {
    seq(|observers|, i requires 0 <= i < |observers| => Notice(observers[i], report))
  }

  /** What one registration does with a request: the reply it sends and the
      observer calls it makes. */
  datatype Answer = Answer(res: MethodRes, notices: seq<Notice>)

  /** The answer of one registration to a request (`handleMethodReq` once the
      client is known to be in the table): none when the route does not match,
      and none when the listener throws null or undefined, since the catch
      block then throws before sending or calling an observer. */
  function AnswerFor(matchPath: Matcher, validate: Validator, observers: seq<ObserverId>,
                     reg: Registration, req: MethodReq, conn: MatchResult): (a: Option<Answer>)
    ensures RouteFor(matchPath, reg.pattern, req.name).None? ==> a.None?
    ensures a.Some? ==> a.value.res.id == req.id
    ensures RouteFor(matchPath, reg.pattern, req.name).Some? ==>
      var route := RouteFor(matchPath, reg.pattern, req.name).value;
      match Invoke(validate, reg, req.params, route.pathParams)
      case Returned(v) =>
        a.Some? && a.value.res.error.None? && a.value.notices == [] &&
        a.value.res.result == (if Truthy(v) then v else JNull)
      case Threw(e) =>
        (a.None? <==> e.ThrownNullish?) &&
        (a.Some? ==>
          a.value.res.result == JNull && a.value.res.error == ErrorReply(e) &&
          (|a.value.notices| > 0 ==> ErrorReply(e).value.code == InternalError) &&
          (ErrorReply(e).value.code == InternalError ==>
            a.value.notices == NoticesFor(observers,
              MethodErrorReport(e, conn.query, conn.params, req.name, route.usedMethod, req.params))))
  {
    match RouteFor(matchPath, reg.pattern, req.name)
    case None => None
    case Some(route) =>
      match Invoke(validate, reg, req.params, route.pathParams)
      case Returned(v) =>
        Some(Answer(MethodRes(req.id, if Truthy(v) then v else JNull, None), []))
      case Threw(e) =>
        match ErrorReply(e)
        case None => None
        case Some(reply) =>
          var report := MethodErrorReport(e, conn.query, conn.params, req.name, route.usedMethod, req.params);
          Some(Answer(MethodRes(req.id, JNull, Some(reply)),
                      if reply.code == InternalError then NoticesFor(observers, report) else []))
  }

  /** A failed validation decides the reply on its own: whatever the listener
      would have done, the answer is the same, and with a violation to report
      it is a USER_FAULT carrying that violation's message. */
  lemma ValidationFailureSkipsHandler(matchPath: Matcher, validate: Validator, observers: seq<ObserverId>,
                                      reg: Registration, other: Handler, req: MethodReq, conn: MatchResult)
    requires Truthy(reg.descriptor)
    requires validate(reg.descriptor, req.params).Invalid?
    requires RouteFor(matchPath, reg.pattern, req.name).Some?
    ensures AnswerFor(matchPath, validate, observers, reg, req, conn) ==
            AnswerFor(matchPath, validate, observers, reg.(handler := other), req, conn)
    ensures AnswerFor(matchPath, validate, observers, reg, req, conn).Some?
    ensures var errs := validate(reg.descriptor, req.params).errors;
            |errs| > 0 ==>
              AnswerFor(matchPath, validate, observers, reg, req, conn).value.res.error ==
              Some(ResError(UserFault, JStr(FaultMessage(errs[0]))))
  {
    ValidationReply(validate(reg.descriptor, req.params));
  }

  /** A falsy descriptor (null, false, 0 or "") switches validation off: the
      answer is the one the registration gives with no descriptor at all,
      whatever the validator would say. */
  lemma FalsyDescriptorSkipsValidation(matchPath: Matcher, validate: Validator, observers: seq<ObserverId>,
                                       reg: Registration, req: MethodReq, conn: MatchResult)
    requires !Truthy(reg.descriptor)
    ensures AnswerFor(matchPath, validate, observers, reg, req, conn) ==
            AnswerFor(matchPath, validate, observers, reg.(descriptor := JNull), req, conn)
  {
  }

  /** A registration under exactly the requested name hands the listener empty
      path parameters, whatever the matcher would say. */
  lemma ExactMatchEmptyPathParams(matchPath: Matcher, validate: Validator, observers: seq<ObserverId>,
                                  reg: Registration, req: MethodReq, conn: MatchResult)
    requires req.name == reg.pattern
    requires !Truthy(reg.descriptor)
    requires reg.handler(req.params, map[]).Returned?
    ensures AnswerFor(matchPath, validate, observers, reg, req, conn).Some?
    ensures var v := reg.handler(req.params, map[]).value;
            AnswerFor(matchPath, validate, observers, reg, req, conn).value.res ==
            MethodRes(req.id, if Truthy(v) then v else JNull, None)
  {
  }

  /** What one registered message listener does with a verified frame: a null
      frame makes it throw while reading `type`, a frame of another type or
      with mistyped request fields gets no reply, and a request to a client no
      longer in the table is dropped. */
  function ListenerAnswer(present: bool, matchPath: Matcher, validate: Validator, observers: seq<ObserverId>,
                          reg: Registration, msg: Option<Json>, conn: MatchResult): (a: Option<Answer>)
    ensures a.Some? ==> present && msg.Some? && ReadMethodReq(msg.value).Some?
    ensures present && msg.Some? && ReadMethodReq(msg.value).Some? ==>
      a == AnswerFor(matchPath, validate, observers, reg, ReadMethodReq(msg.value).value, conn)
  {
    if msg.None? then None
    else if Field(msg.value, "type") != JStr("method-req") then None
    else
      match ReadMethodReq(msg.value)
      case None => None
      case Some(req) => if present then AnswerFor(matchPath, validate, observers, reg, req, conn) else None
  }

  /** The answers of every registration to one frame, in registration order. */
  function FrameAnswers(present: bool, matchPath: Matcher, validate: Validator, observers: seq<ObserverId>,
                        regs: seq<Registration>, msg: Option<Json>, conn: MatchResult): seq<Answer>
    decreases |regs|
  {
    if regs == [] then []
    else
      var rest := FrameAnswers(present, matchPath, validate, observers, regs[..|regs| - 1], msg, conn);
      match ListenerAnswer(present, matchPath, validate, observers, regs[|regs| - 1], msg, conn)
      case None => rest
      case Some(a) => rest + [a]
  }

  function SentOf(answers: seq<Answer>): (out: seq<MethodRes>)
    ensures |out| == |answers|
    ensures forall i :: 0 <= i < |answers| ==> out[i] == answers[i].res
  {
    seq(|answers|, i requires 0 <= i < |answers| => answers[i].res)
  }

  function NoticesOf(answers: seq<Answer>): seq<Notice>
    decreases |answers|
  {
    if answers == [] then [] else NoticesOf(answers[..|answers| - 1]) + answers[|answers| - 1].notices
  }

  /** Whether a registration routes a request and its run ends in something
      other than a throw of null or undefined. */
  predicate Replies(matchPath: Matcher, validate: Validator, reg: Registration, req: MethodReq) {
    match RouteFor(matchPath, reg.pattern, req.name)
    case None => false
    case Some(route) =>
      var o := Invoke(validate, reg, req.params, route.pathParams);
      !(o.Threw? && o.error.ThrownNullish?)
  }

  /** How many registrations reply to a request. */
  function ReplyCount(matchPath: Matcher, validate: Validator, regs: seq<Registration>, req: MethodReq): nat
    decreases |regs|
  {
    if regs == [] then 0
    else ReplyCount(matchPath, validate, regs[..|regs| - 1], req) +
         (if Replies(matchPath, validate, regs[|regs| - 1], req) then 1 else 0)
  }

  /** A frame that failed verification reaches every listener as null; each
      of them throws and none replies. */
  lemma {:induction false} NullFrameNoReplies(present: bool, matchPath: Matcher, validate: Validator,
                                              observers: seq<ObserverId>, regs: seq<Registration>, conn: MatchResult)
    ensures FrameAnswers(present, matchPath, validate, observers, regs, None, conn) == []
    decreases |regs|
  {
    if regs != [] {
      NullFrameNoReplies(present, matchPath, validate, observers, regs[..|regs| - 1], conn);
    }
  }

  /** A request for a client that has left the table gets no reply at all. */
  lemma {:induction false} AbsentClientNoReplies(matchPath: Matcher, validate: Validator, observers: seq<ObserverId>,
                                                 regs: seq<Registration>, msg: Option<Json>, conn: MatchResult)
    ensures FrameAnswers(false, matchPath, validate, observers, regs, msg, conn) == []
    decreases |regs|
  {
    if regs != [] {
      AbsentClientNoReplies(matchPath, validate, observers, regs[..|regs| - 1], msg, conn);
    }
  }

  /** Dispatch fans out: a well-formed request gets one reply from every
      registration whose pattern routes its name (exact or by pattern) and
      whose listener does not throw null or undefined, each with the
      request's id, and no reply at all when there is none (there is no
      METHOD_NOT_FOUND reply). */
  lemma {:induction false} FanOut(matchPath: Matcher, validate: Validator, observers: seq<ObserverId>,
                                  regs: seq<Registration>, msg: Json, conn: MatchResult)
    requires ReadMethodReq(msg).Some?
    ensures var answers := FrameAnswers(true, matchPath, validate, observers, regs, Some(msg), conn);
            |answers| == ReplyCount(matchPath, validate, regs, ReadMethodReq(msg).value) &&
            forall i :: 0 <= i < |answers| ==>
              answers[i].res.id == ReadMethodReq(msg).value.id
    decreases |regs|
  {
    if regs != [] {
      FanOut(matchPath, validate, observers, regs[..|regs| - 1], msg, conn);
    }
  }

  // ---------------------------------------------------------------------------
  // Liveness: the per-session timers and the close closure

  /** The state the keepalive logic drives for one session: whether it is in
      the client table, whether its socket is closed, whether the ping interval
      and the pong grace timer are running, and how often its close callbacks
      have been run. */
  datatype Life = Life(inTable: bool, sockClosed: bool, intervalActive: bool, graceArmed: bool, closeRuns: nat)

  datatype LifeEvent =
    | PingTick      // the 10 s interval fires: ping, arm the 1 s grace timer
    | PongReceived  // a pong clears the grace timer
    | GraceElapsed  // the grace timer fires: close
    | PeerClosed    // the socket yields a close event: close
    | LocalClose    // the socket is closed without running close (a context's close, a receive failure)

  /** A freshly accepted session. */
  const Accepted: Life := Life(true, false, true, false, 0)

  /** Which events can happen: the interval only runs until cleared, and the
      1 s grace timer has always fired or been cleared before the 10 s interval
      fires again; the grace timer only fires when armed; and an open socket is
      needed for a pong or a close event. */
  predicate Enabled(l: Life, e: LifeEvent) {
    match e
    case PingTick => l.intervalActive && !l.graceArmed
    case PongReceived => !l.sockClosed
    case GraceElapsed => l.graceArmed
    case PeerClosed => !l.sockClosed
    case LocalClose => !l.sockClosed
  }

  /** `close` as written: close the socket, run the callbacks, leave the table,
      clear the interval, but leave an armed grace timer running. */
  function CloseAsWritten(l: Life): Life {
    l.(sockClosed := true, inTable := false, intervalActive := false, closeRuns := l.closeRuns + 1)
  }

  /** `close` with the grace timer cleared too. */
  function CloseLife(l: Life): (r: Life)
    ensures !r.inTable && r.sockClosed && !r.intervalActive && !r.graceArmed
    ensures r.closeRuns == l.closeRuns + 1
  {
    CloseAsWritten(l).(graceArmed := false)
  }

  function StepWith(l: Life, e: LifeEvent, corrected: bool): Life {
    if !Enabled(l, e) then l
    else
      match e
      case PingTick => l.(graceArmed := true)
      case PongReceived => l.(graceArmed := false)
      case GraceElapsed => if corrected then CloseLife(l.(graceArmed := false)) else CloseAsWritten(l.(graceArmed := false))
      case PeerClosed => if corrected then CloseLife(l) else CloseAsWritten(l)
      case LocalClose => l.(sockClosed := true)
  }

  function RunWith(l: Life, es: seq<LifeEvent>, corrected: bool): Life
    decreases |es|
  {
    if es == [] then l else RunWith(StepWith(l, es[0], corrected), es[1..], corrected)
  }

  /** As written, a peer that closes within the grace window after a ping has
      its close callbacks run twice: once for the close event and once more
      when the grace timer, which close leaves armed, fires. */
  lemma DoubleCloseAsWritten()
    ensures RunWith(Accepted, [PingTick, PeerClosed, GraceElapsed], false).closeRuns == 2
  {
  }

  ghost predicate LifeInvariant(l: Life) {
    && l.closeRuns == (if l.inTable then 0 else 1)
    && (!l.inTable ==> l.sockClosed && !l.intervalActive && !l.graceArmed)
  }

  lemma {:induction false} RunKeepsInvariant(l: Life, es: seq<LifeEvent>)
    requires LifeInvariant(l)
    ensures LifeInvariant(RunWith(l, es, true))
    decreases |es|
  {
    if es != [] {
      RunKeepsInvariant(StepWith(l, es[0], true), es[1..]);
    }
  }

  /** With close clearing the grace timer, whatever happens to a session its
      close callbacks run at most once, and exactly once when it has left the
      client table. */
  lemma CloseRunsAtMostOnce(es: seq<LifeEvent>)
    ensures RunWith(Accepted, es, true).closeRuns <= 1
    ensures !RunWith(Accepted, es, true).inTable <==> RunWith(Accepted, es, true).closeRuns == 1
  {
    RunKeepsInvariant(Accepted, es);
  }

  /** A peer that does not answer a ping within the grace window is evicted,
      its callbacks run once; one that answers stays. */
  lemma Eviction()
    ensures var l := RunWith(Accepted, [PingTick, GraceElapsed], true);
            !l.inTable && l.sockClosed && l.closeRuns == 1 && !l.intervalActive
    ensures RunWith(Accepted, [PingTick, PongReceived, GraceElapsed], true).inTable
  {
  }

  // ---------------------------------------------------------------------------
  // The imperative engine

  /** One accepted socket and the arrays its closures capture. */
  class Session {
    const id: ClientId
    const conn: MatchResult
    var closeCallbacks: seq<CallbackId>     // callOnClose
    var registrations: seq<Registration>    // callOnMessage, one listener per registerMethod
    var outbox: seq<MethodRes>              // everything sent on the socket
    var sockClosed: bool
    var intervalActive: bool
    var graceArmed: bool
    ghost var closeRuns: nat

    constructor (id: ClientId, conn: MatchResult)
      ensures this.id == id && this.conn == conn
      ensures closeCallbacks == [] && registrations == [] && outbox == []
      ensures !sockClosed && intervalActive && !graceArmed && closeRuns == 0
    {
      this.id := id;
      this.conn := conn;
      closeCallbacks, registrations, outbox := [], [], [];
      sockClosed, intervalActive, graceArmed := false, true, false;
      closeRuns := 0;
    }
  }

  /** One call of an `onClientAdded` hook, with the context of a client. */
  datatype HookCall = HookCall(hook: HookId, client: ClientId)

  /** One call per hook for a new client, in registration order. */
  function HookCallsFor(hooks: seq<HookId>, id: ClientId): (cs: seq<HookCall>)
    ensures |cs| == |hooks|
    ensures forall i :: 0 <= i < |cs| ==> cs[i] == HookCall(hooks[i], id)
  {
    seq(|hooks|, i requires 0 <= i < |hooks| => HookCall(hooks[i], id))
  }

  /** What the oak middleware does with a request. */
  datatype MiddlewareStep =
    | ServeSupport(body: Json)        // the support body, with status 200
    | UpgradeSocket(conn: MatchResult) // accept the WebSocket and run handleWs with the match
    | PassOn                          // hand the request to the next middleware

  class Server {
    const matchPath: Matcher
    const validate: Validator
    const pathPattern: string
    const docs: string
    var hooks: seq<HookId>                  // callOnClientAdded
    var hookRuns: seq<HookCall>             // every hook call so far
    var clients: map<ClientId, Session>     // the clients Map
    var observers: seq<ObserverId>          // callOnMethodError
    var notices: seq<Notice>                // every observer call so far
    var invoked: seq<CallbackId>            // every close callback run so far
    ghost var sessions: set<Session>        // every session accepted so far

    /** Every entry is filed under its own id, and ids (from the uuid source) are never reused. */
    ghost predicate Valid()
      reads this
    {
      && (forall k :: k in clients ==> clients[k] in sessions && clients[k].id == k)
      && (forall a, b :: a in sessions && b in sessions && a.id == b.id ==> a == b)
    }

    /** The liveness state of a session of this server. */
    ghost function LifeOf(s: Session): Life
      reads this, s
    {
      Life(s.id in clients, s.sockClosed, s.intervalActive, s.graceArmed, s.closeRuns)
    }

    constructor (matchPath: Matcher, validate: Validator, pathPattern: string, docs: string)
      ensures Valid()
      ensures this.matchPath == matchPath && this.validate == validate
      ensures this.pathPattern == pathPattern && this.docs == docs
      ensures hooks == [] && hookRuns == []
      ensures clients == map[] && observers == [] && notices == [] && invoked == [] && sessions == {}
    {
      this.matchPath := matchPath;
      this.validate := validate;
      this.pathPattern := pathPattern;
      this.docs := docs;
      hooks, hookRuns := [], [];
      clients, observers, notices, invoked := map[], [], [], [];
      sessions := {};
    }

    /** The oak middleware on a request's path and query string: the support
        path is answered with the version and the docs; any other path whose
        path and query the pattern matches becomes a socket of this server;
        anything else is passed on. */
    function Middleware(pathname: string, search: string): (r: MiddlewareStep)
      ensures r.ServeSupport? <==> pathname == SupportsPath
      ensures r.ServeSupport? ==> Field(r.body, "epicalyx") == JStr(Version) && Field(r.body, "docs") == JStr(docs)
      ensures pathname != SupportsPath ==> (r.UpgradeSocket? <==> matchPath(pathPattern, pathname + search).Some?)
      ensures r.UpgradeSocket? ==> r.conn == matchPath(pathPattern, pathname + search).value
    {
      if pathname == SupportsPath then ServeSupport(JObj(map["epicalyx" := JStr(Version), "docs" := JStr(docs)]))
      else
        match matchPath(pathPattern, pathname + search)
        case None => PassOn
        case Some(m) => UpgradeSocket(m)
    }

    /** `onClientAdded`. */
    method OnClientAdded(hook: HookId)
      modifies this`hooks
      ensures hooks == old(hooks) + [hook]
    {
      hooks := hooks + [hook];
    }

    /** `onMethodError`. */
    method OnMethodError(observer: ObserverId)
      modifies this`observers
      ensures observers == old(observers) + [observer]
    {
      observers := observers + [observer];
    }

    /** The start of `handleWs`: a fresh id is filed in the table with the new
        session, every `onClientAdded` hook is called with its context, in
        order, and the session's ping interval starts running. */
    method Accept(id: ClientId, conn: MatchResult) returns (s: Session)
      requires Valid()
      requires forall t :: t in sessions ==> t.id != id
      modifies this`clients, this`sessions, this`hookRuns
      ensures Valid() && fresh(s)
      ensures s.id == id && s.conn == conn && s in sessions && sessions == old(sessions) + {s}
      ensures clients == old(clients)[id := s]
      ensures hookRuns == old(hookRuns) + HookCallsFor(hooks, id)
      ensures LifeOf(s) == Accepted
      ensures s.closeCallbacks == [] && s.registrations == [] && s.outbox == []
    {
      s := new Session(id, conn);
      clients := clients[id := s];
      sessions := sessions + {s};
      var i := 0;
      while i < |hooks|
        invariant 0 <= i <= |hooks|
        invariant hookRuns == old(hookRuns) + HookCallsFor(hooks[..i], id)
        modifies this`hookRuns
      {
        hookRuns := hookRuns + [HookCall(hooks[i], id)];
        i := i + 1;
      }
      assert hooks[..i] == hooks;
    }

    /** A context's `registerMethod`: while the client is in the table a listener
        is added for the pattern and its handle is returned; otherwise nothing
        is registered. */
    method RegisterMethod(s: Session, pattern: string, handler: Handler) returns (handle: Option<nat>)
      requires Valid() && s in sessions
      modifies s`registrations
      ensures s.id in clients ==>
        s.registrations == old(s.registrations) + [Registration(pattern, handler, JNull)] &&
        handle == Some(|old(s.registrations)|)
      ensures s.id !in clients ==> s.registrations == old(s.registrations) && handle.None?
    {
      if s.id in clients {
        s.registrations := s.registrations + [Registration(pattern, handler, JNull)];
        handle := Some(|s.registrations| - 1);
      } else {
        handle := None;
      }
    }

    /** `validateParams` on a handle: it replaces the descriptor of that
        registration, so a falsy one switches validation off again. */
    method ValidateParams(s: Session, handle: Option<nat>, descriptor: Json)
      requires handle.Some? ==> handle.value < |s.registrations|
      modifies s`registrations
      ensures handle.None? ==> s.registrations == old(s.registrations)
      ensures handle.Some? ==>
        s.registrations == old(s.registrations)[handle.value := old(s.registrations)[handle.value].(descriptor := descriptor)]
    {
      if handle.Some? {
        var k := handle.value;
        s.registrations := s.registrations[k := s.registrations[k].(descriptor := descriptor)];
      }
    }

    /** A context's `onClose`: the callback waits for the close, or runs at once
        when the client has already left the table. */
    method OnClose(s: Session, callback: CallbackId)
      requires Valid() && s in sessions
      modifies this`invoked, s`closeCallbacks
      ensures s.id in clients ==> s.closeCallbacks == old(s.closeCallbacks) + [callback] && invoked == old(invoked)
      ensures s.id !in clients ==> s.closeCallbacks == old(s.closeCallbacks) && invoked == old(invoked) + [callback]
    {
      if s.id in clients {
        s.closeCallbacks := s.closeCallbacks + [callback];
      } else {
        invoked := invoked + [callback];
      }
    }

    /** A context's `close`: while the client is in the table its socket is
        closed; the code and reason are not sent. Afterwards the session is
        closed locally, as a LocalClose. */
    method CloseContext(s: Session, params: CloseParams)
      requires Valid() && s in sessions
      modifies s`sockClosed
      ensures s.sockClosed == (old(s.sockClosed) || s.id in clients)
      ensures s.id in clients && !old(s.sockClosed) ==> LifeOf(s) == StepWith(old(LifeOf(s)), LifeEvent.LocalClose, true)
    {
      if s.id in clients {
        s.sockClosed := true;
      }
    }

    /** The `close` closure of `handleWs`, with the grace timer cleared as well:
        close the socket if open, run every close callback in order, remove the
        client from the table and stop the ping interval. */
    method Close(s: Session)
      requires Valid() && s in sessions
      modifies this`invoked, this`clients, s`sockClosed, s`intervalActive, s`graceArmed, s`closeRuns
      ensures Valid()
      ensures invoked == old(invoked) + s.closeCallbacks
      ensures clients == old(clients) - {s.id}
      ensures LifeOf(s) == CloseLife(old(LifeOf(s)))
    {
      s.sockClosed := true;
      var i := 0;
      while i < |s.closeCallbacks|
        invariant 0 <= i <= |s.closeCallbacks|
        invariant invoked == old(invoked) + s.closeCallbacks[..i]
        modifies this`invoked
      {
        invoked := invoked + [s.closeCallbacks[i]];
        i := i + 1;
      }
      assert s.closeCallbacks[..i] == s.closeCallbacks;
      clients := clients - {s.id};
      s.intervalActive := false;
      s.graceArmed := false;
      s.closeRuns := s.closeRuns + 1;
    }

    /** The ping interval fires: a ping is sent and the grace timer armed. */
    method PingTick(s: Session)
      requires s.intervalActive && !s.graceArmed
      modifies s`graceArmed
      ensures LifeOf(s) == StepWith(old(LifeOf(s)), LifeEvent.PingTick, true)
    {
      s.graceArmed := true;
    }

    /** A pong arrives and clears the grace timer. */
    method Pong(s: Session)
      requires !s.sockClosed
      modifies s`graceArmed
      ensures LifeOf(s) == StepWith(old(LifeOf(s)), LifeEvent.PongReceived, true)
    {
      s.graceArmed := false;
    }

    /** The grace timer fires without a pong: the session is closed and evicted. */
    method GraceElapsed(s: Session)
      requires Valid() && s in sessions && s.graceArmed
      modifies this`invoked, this`clients, s`sockClosed, s`intervalActive, s`graceArmed, s`closeRuns
      ensures Valid()
      ensures invoked == old(invoked) + s.closeCallbacks
      ensures clients == old(clients) - {s.id}
      ensures LifeOf(s) == StepWith(old(LifeOf(s)), LifeEvent.GraceElapsed, true)
    {
      s.graceArmed := false;
      Close(s);
    }

    /** The socket yields a close event. */
    method PeerClosed(s: Session)
      requires Valid() && s in sessions && !s.sockClosed
      modifies this`invoked, this`clients, s`sockClosed, s`intervalActive, s`graceArmed, s`closeRuns
      ensures Valid()
      ensures invoked == old(invoked) + s.closeCallbacks
      ensures clients == old(clients) - {s.id}
      ensures LifeOf(s) == StepWith(old(LifeOf(s)), LifeEvent.PeerClosed, true)
    {
      Close(s);
    }

    /** Receiving a frame failed: the socket is closed, and nothing else happens. */
    method ReceiveFailed(s: Session)
      requires !s.sockClosed
      modifies s`sockClosed
      ensures LifeOf(s) == StepWith(old(LifeOf(s)), LifeEvent.LocalClose, true)
    {
      s.sockClosed := true;
    }

    /** `handleMethodReq` for one registration: nothing is sent when the client
        has left the table, the route does not match or the listener threw null
        or undefined; otherwise exactly one reply is sent and, on an internal
        error, every observer is called. */
    method HandleMethodReq(reg: Registration, req: MethodReq, id: ClientId, conn: MatchResult)
      returns (handled: bool, sent: seq<MethodRes>, calls: seq<Notice>)
      ensures var a := AnswerFor(matchPath, validate, observers, reg, req, conn);
              && (handled <==> id in clients && a.Some?)
              && (handled ==> sent == [a.value.res] && calls == a.value.notices)
              && (!handled ==> sent == [] && calls == [])
    {
      if id !in clients {
        return false, [], [];
      }
      var route := RouteFor(matchPath, reg.pattern, req.name);
      if route.None? {
        return false, [], [];
      }
      var outcome := Invoke(validate, reg, req.params, route.value.pathParams);
      calls := [];
      match outcome {
        case Returned(v) =>
          sent := [MethodRes(req.id, if Truthy(v) then v else JNull, None)];
        case Threw(e) =>
          if e.ThrownNullish? {
            return false, [], [];
          }
          var reply := ErrorReply(e).value;
          if reply.code == InternalError {
            var report := MethodErrorReport(e, conn.query, conn.params, req.name, route.value.usedMethod, req.params);
            var i := 0;
            while i < |observers|
              invariant 0 <= i <= |observers|
              invariant calls == NoticesFor(observers[..i], report)
            {
              calls := calls + [Notice(observers[i], report)];
              i := i + 1;
            }
            assert observers[..i] == observers;
          }
          sent := [MethodRes(req.id, JNull, Some(reply))];
      }
      handled := true;
    }

    /** One registered message listener run on a verified frame. */
    method RunListener(reg: Registration, msg: Option<Json>, id: ClientId, conn: MatchResult)
      returns (sent: seq<MethodRes>, calls: seq<Notice>)
      ensures var a := ListenerAnswer(id in clients, matchPath, validate, observers, reg, msg, conn);
              sent == SentOf(OptionSeq(a)) && calls == NoticesOf(OptionSeq(a))
    {
      sent, calls := [], [];
      if msg.Some? && Field(msg.value, "type") == JStr("method-req") {
        var req := ReadMethodReq(msg.value);
        if req.Some? {
          var handled;
          handled, sent, calls := HandleMethodReq(reg, req.value, id, conn);
          if handled {
            var a := AnswerFor(matchPath, validate, observers, reg, req.value, conn).value;
            assert NoticesOf([a]) == NoticesOf([]) + a.notices;
          }
        }
      }
    }

    /** A text frame arrives: it is verified and handed to every registered
        listener in order; each reply is sent and each observer call made. */
    method ReceiveText(s: Session, parsed: Option<Json>)
      requires Valid() && s in sessions
      modifies this`notices, s`outbox
      ensures var answers := FrameAnswers(s.id in clients, matchPath, validate, observers,
                                          s.registrations, VerifyMessage(parsed), s.conn);
              s.outbox == old(s.outbox) + SentOf(answers) &&
              notices == old(notices) + NoticesOf(answers)
    {
      var msg := VerifyMessage(parsed);
      var regs := s.registrations;
      var present := s.id in clients;
      ghost var answers: seq<Answer> := [];
      var out: seq<MethodRes> := [];
      var calls: seq<Notice> := [];
      var k := 0;
      while k < |regs|
        invariant 0 <= k <= |regs|
        invariant answers == FrameAnswers(present, matchPath, validate, observers, regs[..k], msg, s.conn)
        invariant out == SentOf(answers) && calls == NoticesOf(answers)
        invariant s.outbox == old(s.outbox) && notices == old(notices)
      {
        var sent, made := RunListener(regs[k], msg, s.id, s.conn);
        ghost var a := OptionSeq(ListenerAnswer(present, matchPath, validate, observers, regs[k], msg, s.conn));
        FrameAnswersStep(present, matchPath, validate, observers, regs, k, msg, s.conn);
        SentAppend(answers, a);
        answers := answers + a;
        out := out + sent;
        calls := calls + made;
        k := k + 1;
      }
      assert regs[..k] == regs;
      s.outbox := s.outbox + out;
      notices := notices + calls;
    }
  }

  lemma SentAppend(xs: seq<Answer>, ys: seq<Answer>)
    requires |ys| <= 1
    ensures SentOf(xs + ys) == SentOf(xs) + SentOf(ys)
    ensures NoticesOf(xs + ys) == NoticesOf(xs) + NoticesOf(ys)
  {
    if ys != [] {
      assert (xs + ys)[..|xs + ys| - 1] == xs;
    } else {
      assert xs + ys == xs;
    }
  }

  /** The answers to a frame grow listener by listener. */
  lemma FrameAnswersStep(present: bool, matchPath: Matcher, validate: Validator, observers: seq<ObserverId>,
                         regs: seq<Registration>, k: nat, msg: Option<Json>, conn: MatchResult)
    requires k < |regs|
    ensures var before := FrameAnswers(present, matchPath, validate, observers, regs[..k], msg, conn);
            var after := FrameAnswers(present, matchPath, validate, observers, regs[..k + 1], msg, conn);
            var a := OptionSeq(ListenerAnswer(present, matchPath, validate, observers, regs[k], msg, conn));
            after == before + a
  {
    assert regs[..k + 1][..k] == regs[..k];
  }
}
