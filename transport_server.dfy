/** The older server engine (server.ts): a connection keeps an exact-name
    method registry, each method with its own chain of parameter validators,
    answers unknown names with METHOD_NOT_FOUND, and fans its close callbacks
    out when the transport reports the close. */
module TransportServer {
  import opened Json
  import opened Wire
  import opened Failures

  /** A function passed to `onClose`. */
  type CallbackId = nat

  /** A function passed to the server's `onClientAdded`. */
  type HookId = nat

  /** A method listener `params => result`. */
  type Handler = Json -> Outcome

  /** One `registerMethod` call: the name, the listener and the descriptors its
      `validateParams` calls added, in order. */
  datatype MethodSlot = MethodSlot(name: string, handler: Handler, descriptors: seq<Json>)

  /** The message of a METHOD_NOT_FOUND reply. */
  function NotFoundMessage(name: string): (m: string)
    ensures |m| == |name| + 23
    ensures m[..8] == "Method '" && m[8..8 + |name|] == name && m[8 + |name|..] == "' was not found"
  {
    "Method '" + name + "' was not found"
  }

  /** The failure of the first validator of a chain that rejects the
      parameters, run in order; None when all accept them. */
  function FirstFailure(validate: Validator, descriptors: seq<Json>, params: Json): (t: Option<Thrown>)
    ensures t.None? <==> forall i :: 0 <= i < |descriptors| ==> validate(descriptors[i], params).Valid?
    ensures t.Some? ==>
      exists i :: 0 <= i < |descriptors| && validate(descriptors[i], params).Invalid? &&
        (forall j :: 0 <= j < i ==> validate(descriptors[j], params).Valid?) &&
        t == ValidationFailure(validate(descriptors[i], params))
    decreases |descriptors|
  {
    if descriptors == [] then None
    else
      match ValidationFailure(validate(descriptors[0], params))
      case Some(e) => Some(e)
      case None =>
        var rest := FirstFailure(validate, descriptors[1..], params);
        assert forall i :: 1 <= i < |descriptors| ==> descriptors[i] == descriptors[1..][i - 1];
        rest
  }

  /** Running a registered method: its validators first, then its listener. */
  function CallSlot(validate: Validator, slot: MethodSlot, params: Json): Outcome {
    match FirstFailure(validate, slot.descriptors, params)
    case Some(e) => Threw(e)
    case None => slot.handler(params)
  }

  /** The reply to a request once its method has run: on success the result is
      passed through as it is, with no error; a throw of null or undefined
      makes the catch block throw, and then nothing is sent. */
  function SlotReply(id: string, o: Outcome): (r: Option<MethodRes>)
    ensures r.None? <==> o.Threw? && o.error.ThrownNullish?
    ensures r.Some? ==> r.value.id == id
    ensures o.Returned? ==> r.Some? && r.value.result == o.value && r.value.error.None?
    ensures o.Threw? && r.Some? ==> r.value.result == JNull && r.value.error == ErrorReply(o.error)
  {
    match o
    case Returned(v) => Some(MethodRes(id, v, None))
    case Threw(e) =>
      match ErrorReply(e)
      case None => None
      case Some(reply) => Some(MethodRes(id, JNull, Some(reply)))
  }

  /** A chain with a rejecting validator decides the reply without the
      listener: whatever the listener would do, the reply is the same. */
  lemma RejectedBeforeHandler(validate: Validator, slot: MethodSlot, other: Handler, params: Json, id: string)
    requires exists i :: 0 <= i < |slot.descriptors| && validate(slot.descriptors[i], params).Invalid?
    ensures SlotReply(id, CallSlot(validate, slot, params)) == SlotReply(id, CallSlot(validate, slot.(handler := other), params))
    ensures SlotReply(id, CallSlot(validate, slot, params)).Some?
    ensures SlotReply(id, CallSlot(validate, slot, params)).value.error.Some?
  {
    var i :| 0 <= i < |slot.descriptors| && validate(slot.descriptors[i], params).Invalid?;
    assert !validate(slot.descriptors[i], params).Valid?;
  }

  /** The first rejecting validator's first violation reaches the wire as a USER_FAULT. */
  lemma FirstRejectionReported(validate: Validator, slot: MethodSlot, params: Json, id: string, k: nat)
    requires k < |slot.descriptors|
    requires forall j :: 0 <= j < k ==> validate(slot.descriptors[j], params).Valid?
    requires validate(slot.descriptors[k], params).Invalid?
    requires |validate(slot.descriptors[k], params).errors| > 0
    ensures SlotReply(id, CallSlot(validate, slot, params)).Some?
    ensures SlotReply(id, CallSlot(validate, slot, params)).value.error ==
            Some(ResError(UserFault, JStr(FaultMessage(validate(slot.descriptors[k], params).errors[0]))))
  {
    var t := FirstFailure(validate, slot.descriptors, params);
    assert !validate(slot.descriptors[k], params).Valid?;
    var i :| 0 <= i < |slot.descriptors| && validate(slot.descriptors[i], params).Invalid? &&
        (forall j :: 0 <= j < i ==> validate(slot.descriptors[j], params).Valid?) &&
        t == ValidationFailure(validate(slot.descriptors[i], params));
    assert i == k;
    ValidationReply(validate(slot.descriptors[k], params));
  }

  /** One entry of the server's `clients` list. */
  datatype ClientRep = ClientRep(id: string, conn: Connection)

  class Server {
    const matchPath: Matcher
    const validate: Validator
    const pathPattern: string
    const docs: string
    var hooks: seq<HookId>             // callOnClientAdded
    var clients: seq<ClientRep>
    var hookRuns: seq<HookId>          // every hook call so far, in order

    constructor (matchPath: Matcher, validate: Validator, pathPattern: string, docs: string)
      ensures this.matchPath == matchPath && this.validate == validate
      ensures this.pathPattern == pathPattern && this.docs == docs
      ensures hooks == [] && clients == [] && hookRuns == []
    {
      this.matchPath := matchPath;
      this.validate := validate;
      this.pathPattern := pathPattern;
      this.docs := docs;
      hooks, clients, hookRuns := [], [], [];
    }

    /** `canAcceptSocket`: the pattern matched against a path; the transport
        accepts a socket exactly when the match is not null, and hands the
        match back as the new client's parameters. */
    function CanAcceptSocket(path: string): Option<MatchResult>
    {
      matchPath(pathPattern, path)
    }

    /** The body served at `/supports-epicalyx-v1`. */
    function SupportsResponse(): (j: Json)
      ensures Field(j, "epicalyx") == JStr(Version) && Field(j, "docs") == JStr(docs)
    {
      JObj(map["epicalyx" := JStr(Version), "docs" := JStr(docs)])
    }

    /** `onClientAdded`. */
    method OnClientAdded(hook: HookId)
      modifies this`hooks
      ensures hooks == old(hooks) + [hook]
    {
      hooks := hooks + [hook];
    }

    /** `handleNewClient` for a socket the transport accepted on a path: a
        connection with empty registries is made with the path's match as
        its parameters, and every hook is called with it, in order. */
    method HandleNewClient(path: string) returns (c: Connection)
      requires CanAcceptSocket(path).Some?
      modifies this`hookRuns
      ensures fresh(c) && c.server == this && c.validate == validate
      ensures c.conn == matchPath(pathPattern, path).value
      ensures c.callOnClose == [] && c.methods == map[] && c.slots == [] && c.invoked == []
      ensures c.Valid()
      ensures hookRuns == old(hookRuns) + hooks
    {
      c := new Connection(this, CanAcceptSocket(path).value);
      var i := 0;
      while i < |hooks|
        invariant 0 <= i <= |hooks|
        invariant hookRuns == old(hookRuns) + hooks[..i]
        modifies this`hookRuns
      {
        hookRuns := hookRuns + [hooks[i]];
        i := i + 1;
      }
      assert hooks[..i] == hooks;
    }
  }

  /** What `handleNewClient` keeps for one socket: the close callbacks, the
      method registry and the slots it points into. */
  class Connection {
    const server: Server
    const validate: Validator
    const conn: MatchResult
    var callOnClose: seq<CallbackId>
    var methods: map<string, nat>       // name to its current slot
    var slots: seq<MethodSlot>          // every registerMethod call, in order
    var invoked: seq<CallbackId>        // every close callback run so far

    /** Each registered name points at a slot registered under that name. */
    ghost predicate Valid()
      reads this
    {
      forall n :: n in methods ==> methods[n] < |slots| && slots[methods[n]].name == n
    }

    constructor (server: Server, conn: MatchResult)
      ensures this.server == server && this.validate == server.validate && this.conn == conn
      ensures callOnClose == [] && methods == map[] && slots == [] && invoked == []
      ensures Valid()
    {
      this.server := server;
      this.validate := server.validate;
      this.conn := conn;
      callOnClose, methods, slots, invoked := [], map[], [], [];
    }

    /** `registerClient`: the id is appended to the server's clients with this connection. */
    method RegisterClient(id: string)
      modifies server`clients
      ensures server.clients == old(server.clients) + [ClientRep(id, this)]
    {
      server.clients := server.clients + [ClientRep(id, this)];
    }

    /** `onClose`. */
    method OnClose(callback: CallbackId)
      modifies this`callOnClose
      ensures callOnClose == old(callOnClose) + [callback]
    {
      callOnClose := callOnClose + [callback];
    }

    /** `registerMethod`: the name now leads to the new slot, replacing any
        earlier registration under it; the handle names the slot. */
    method RegisterMethod(name: string, handler: Handler) returns (handle: nat)
      requires Valid()
      modifies this`methods, this`slots
      ensures Valid()
      ensures slots == old(slots) + [MethodSlot(name, handler, [])]
      ensures methods == old(methods)[name := handle] && handle == |old(slots)|
    {
      handle := |slots|;
      slots := slots + [MethodSlot(name, handler, [])];
      methods := methods[name := handle];
    }

    /** `validateParams` on a handle: its slot's chain gets the descriptor at the end. */
    method ValidateParams(handle: nat, descriptor: Json)
      requires Valid() && handle < |slots|
      modifies this`slots
      ensures Valid()
      ensures slots == old(slots)[handle := old(slots)[handle].(descriptors := old(slots)[handle].descriptors + [descriptor])]
    {
      slots := slots[handle := slots[handle].(descriptors := slots[handle].descriptors + [descriptor])];
    }

    /** The validator chain of a slot, run in order until one throws. */
    method RunValidators(slot: MethodSlot, params: Json) returns (failure: Option<Thrown>)
      ensures failure == FirstFailure(validate, slot.descriptors, params)
    {
      var ds := slot.descriptors;
      var i := 0;
      while i < |ds|
        invariant 0 <= i <= |ds|
        invariant forall j :: 0 <= j < i ==> validate(ds[j], params).Valid?
        invariant FirstFailure(validate, ds, params) == FirstFailure(validate, ds[i..], params)
      {
        var f := ValidationFailure(validate(ds[i], params));
        if f.Some? {
          return f;
        }
        assert ds[i..][1..] == ds[i + 1..];
        i := i + 1;
      }
      failure := None;
    }

    /** `onMessage` on the outcome of JSON.parse (None when it threw). It
        throws when parsing failed or the message is null; it ignores a
        message of another version or type; otherwise it answers the request
        with one reply, METHOD_NOT_FOUND for a name not registered, unless the
        method threw null or undefined. */
    method OnMessage(parsed: Option<Json>) returns (threw: bool, sent: seq<MethodRes>)
      requires Valid()
      ensures threw <==> parsed.None? || parsed.value == JNull
      ensures threw || Field(parsed.value, "epicalyx") != JStr(Version) || ReadMethodReq(parsed.value).None? ==> sent == []
      ensures !threw && Field(parsed.value, "epicalyx") == JStr(Version) && ReadMethodReq(parsed.value).Some? ==>
        var req := ReadMethodReq(parsed.value).value;
        if req.name in methods then
          sent == OptionSeq(SlotReply(req.id, CallSlot(validate, slots[methods[req.name]], req.params)))
        else
          sent == [MethodRes(req.id, JNull, Some(ResError(MethodNotFound, JStr(NotFoundMessage(req.name)))))]
    {
      if parsed.None? || parsed.value == JNull {
        return true, [];
      }
      var msg := parsed.value;
      threw, sent := false, [];
      if Field(msg, "epicalyx") != JStr(Version) {
        return;
      }
      var req := ReadMethodReq(msg);
      if req.None? {
        return;
      }
      var r := req.value;
      if r.name !in methods {
        sent := [MethodRes(r.id, JNull, Some(ResError(MethodNotFound, JStr(NotFoundMessage(r.name)))))];
        return;
      }
      var slot := slots[methods[r.name]];
      var failure := RunValidators(slot, r.params);
      var outcome := if failure.Some? then Threw(failure.value) else slot.handler(r.params);
      sent := OptionSeq(SlotReply(r.id, outcome));
    }

    /** The transport reports the close: every close callback runs, in order. */
    method Closed()
      modifies this`invoked
      ensures invoked == old(invoked) + callOnClose
    {
      var i := 0;
      while i < |callOnClose|
        invariant 0 <= i <= |callOnClose|
        invariant invoked == old(invoked) + callOnClose[..i]
      {
        invoked := invoked + [callOnClose[i]];
        i := i + 1;
      }
      assert callOnClose[..i] == callOnClose;
    }
  }
}
