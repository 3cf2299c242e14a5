/** The Epicalyx wire vocabulary (types.ts): the closed set of envelope
    variants, split into the messages a client sends up to a server and the
    messages a server sends down to a client, and their JSON form. */
module Wire {
  import opened Json

  /** The protocol version every envelope carries in its `epicalyx` field. */
  const Version: string := "1.0"

  /** The path on which a server answers the support probe. */
  const SupportsPath: string := "/supports-epicalyx-v1"

  const UpTypes: set<string> := {"transmission-update", "transmission-req", "listen-req", "method-req"}
  const DownTypes: set<string> :=
    {"connection-closing", "transmission-update-recall", "transmission-update",
     "transmission-res", "listen-beam", "listen-res", "method-res"}

  /** A structured error; its code is typically INTERNAL_ERROR, FORBIDDEN or USER_FAULT. */
  datatype ResError = ResError(code: string, message: Json)

  datatype MethodReq = MethodReq(id: string, name: string, params: Json)
  datatype MethodRes = MethodRes(id: string, result: Json, error: Option<ResError>)
  datatype ListenReq = ListenReq(id: string, scope: string, params: Json)
  datatype ListenRes = ListenRes(id: string, error: Option<ResError>)
  datatype ListenBeam = ListenBeam(id: string, data: Json)
  datatype TransmissionReq = TransmissionReq(id: string, resource: string, stashedChangesOverview: map<string, int>)

  /** A change to a transmitted resource: the index pair it spans and its data. */
  datatype DataUpdate = DataUpdate(from: int, to: int, data: string)

  datatype CatchUpData =
    | Replace(data: string, last30Updates: map<string, seq<DataUpdate>>)
    | Fill(changes: map<string, seq<DataUpdate>>)

  /** Either an error and no catch-up data, or catch-up data and no error. */
  datatype TransmissionRes =
    | TransmissionResError(id: string, error: ResError)
    | TransmissionResOk(id: string, catchUpData: CatchUpData)

  datatype TransmissionUpdate = TransmissionUpdate(id: string, timestamp: string, changes: seq<DataUpdate>)

  /** Its `index` is the literal 0, so it carries no index of its own. */
  datatype TransmissionUpdateRecall = TransmissionUpdateRecall(id: string, timestamp: string)

  datatype ConnectionClosing = ConnectionClosing(code: string, reason: string)

  /** EpicalyxMessageDown: what a server sends. */
  datatype MessageDown =
    | ClosingDown(closing: ConnectionClosing)
    | RecallDown(recall: TransmissionUpdateRecall)
    | UpdateDown(update: TransmissionUpdate)
    | TransmissionResDown(tres: TransmissionRes)
    | BeamDown(beam: ListenBeam)
    | ListenResDown(lres: ListenRes)
    | MethodResDown(res: MethodRes)

  /** EpicalyxMessageUp: what a client sends. */
  datatype MessageUp =
    | UpdateUp(update: TransmissionUpdate)
    | TransmissionReqUp(treq: TransmissionReq)
    | ListenReqUp(lreq: ListenReq)
    | MethodReqUp(req: MethodReq)

  /** The literal `type` discriminator of a downward message. */
  function DownType(m: MessageDown): (t: string)
    ensures t in DownTypes
    ensures t != "method-req"
    ensures t == "method-res" <==> m.MethodResDown?
    ensures t == "connection-closing" <==> m.ClosingDown?
  {
    match m
    case ClosingDown(_) => "connection-closing"
    case RecallDown(_) => "transmission-update-recall"
    case UpdateDown(_) => "transmission-update"
    case TransmissionResDown(_) => "transmission-res"
    case BeamDown(_) => "listen-beam"
    case ListenResDown(_) => "listen-res"
    case MethodResDown(_) => "method-res"
  }

  /** The literal `type` discriminator of an upward message. */
  function UpType(m: MessageUp): (t: string)
    ensures t in UpTypes
    ensures t != "method-res" && t != "connection-closing"
    ensures t == "method-req" <==> m.MethodReqUp?
  {
    match m
    case UpdateUp(_) => "transmission-update"
    case TransmissionReqUp(_) => "transmission-req"
    case ListenReqUp(_) => "listen-req"
    case MethodReqUp(_) => "method-req"
  }

  /** An envelope: the version, the discriminator and the variant's own fields. */
  function Envelope(t: string, body: map<string, Json>): (j: Json)
    ensures Field(j, "epicalyx") == JStr(Version)
    ensures Field(j, "type") == JStr(t)
    ensures forall k :: k in body && k != "epicalyx" && k != "type" ==> Field(j, k) == body[k]
  {
    JObj(body["epicalyx" := JStr(Version)]["type" := JStr(t)])
  }

  function EncodeError(e: ResError): (j: Json)
    ensures Truthy(j)
    ensures Field(j, "code") == JStr(e.code) && Field(j, "message") == e.message
  {
    JObj(map["code" := JStr(e.code), "message" := e.message])
  }

  /** `ResError | null`. */
  function EncodeOptError(e: Option<ResError>): (j: Json)
    ensures e.None? <==> j == JNull
    ensures e.Some? ==> j == EncodeError(e.value)
  {
    match e
    case None => JNull
    case Some(err) => EncodeError(err)
  }

  function EncodeUpdate(u: DataUpdate): Json {
    JObj(map["indexes" := JArr([JNum(u.from), JNum(u.to)]), "data" := JStr(u.data)])
  }

  function EncodeUpdates(us: seq<DataUpdate>): (j: Json)
    ensures j.JArr? && |j.items| == |us|
    ensures forall i :: 0 <= i < |us| ==>
      j.items[i] == JObj(map["indexes" := JArr([JNum(us[i].from), JNum(us[i].to)]), "data" := JStr(us[i].data)])
  {
    JArr(seq(|us|, i requires 0 <= i < |us| => EncodeUpdate(us[i])))
  }

  function EncodeLog(m: map<string, seq<DataUpdate>>): Json {
    JObj(map k | k in m :: EncodeUpdates(m[k]))
  }

  function EncodeCatchUp(c: CatchUpData): (j: Json)
    ensures Truthy(j)
    ensures Field(j, "strategy") == JStr("replace") || Field(j, "strategy") == JStr("fill")
    ensures Field(j, "strategy") == JStr("replace") <==> c.Replace?
  {
    match c
    case Replace(data, log) =>
      JObj(map["strategy" := JStr("replace"), "data" := JStr(data), "last30Updates" := EncodeLog(log)])
    case Fill(changes) =>
      JObj(map["strategy" := JStr("fill"), "changes" := EncodeLog(changes)])
  }

  function EncodeMethodReq(r: MethodReq): (j: Json)
    ensures Field(j, "type") == JStr("method-req")
    ensures Field(j, "id") == JStr(r.id) && Field(j, "method") == JStr(r.name)
    ensures Field(j, "params") == r.params
  {
    Envelope("method-req", map["id" := JStr(r.id), "method" := JStr(r.name), "params" := r.params])
  }

  /** A `method-res` answers the request with the same id; its error is an
      object exactly when it is set and null otherwise. */
  function EncodeMethodRes(r: MethodRes): (j: Json)
    ensures Field(j, "type") == JStr("method-res")
    ensures Field(j, "id") == JStr(r.id) && Field(j, "result") == r.result
    ensures Field(j, "error") == EncodeOptError(r.error)
    ensures Truthy(Field(j, "error")) <==> r.error.Some?
  {
    Envelope("method-res", map["id" := JStr(r.id), "result" := r.result, "error" := EncodeOptError(r.error)])
  }

  /** Exactly one of `error` and `catchUpData` is null. */
  function EncodeTransmissionRes(r: TransmissionRes): (j: Json)
    ensures (Field(j, "error") == JNull) != (Field(j, "catchUpData") == JNull)
    ensures r.TransmissionResError? <==> Field(j, "catchUpData") == JNull
    ensures r.TransmissionResOk? ==>
      var c := Field(j, "catchUpData");
      Field(c, "strategy") == JStr("replace") || Field(c, "strategy") == JStr("fill")
  {
    match r
    case TransmissionResError(id, e) =>
      Envelope("transmission-res", map["id" := JStr(id), "error" := EncodeError(e), "catchUpData" := JNull])
    case TransmissionResOk(id, c) =>
      Envelope("transmission-res", map["id" := JStr(id), "error" := JNull, "catchUpData" := EncodeCatchUp(c)])
  }

  function EncodeTransmissionUpdate(u: TransmissionUpdate): Json {
    Envelope("transmission-update",
      map["id" := JStr(u.id), "timestamp" := JStr(u.timestamp), "changes" := EncodeUpdates(u.changes)])
  }

  /** JSON.stringify of a downward message: every variant carries the version
      and its own literal discriminator. */
  function EncodeDown(m: MessageDown): (j: Json)
    ensures Field(j, "epicalyx") == JStr(Version)
    ensures Field(j, "type") == JStr(DownType(m))
    ensures m.RecallDown? ==> Field(j, "index") == JNum(0)
    ensures m.MethodResDown? ==> j == EncodeMethodRes(m.res)
    ensures m.ClosingDown? ==>
      Field(j, "code") == JStr(m.closing.code) && Field(j, "reason") == JStr(m.closing.reason)
  {
    match m
    case ClosingDown(c) =>
      Envelope("connection-closing", map["code" := JStr(c.code), "reason" := JStr(c.reason)])
    case RecallDown(r) =>
      Envelope("transmission-update-recall",
        map["id" := JStr(r.id), "timestamp" := JStr(r.timestamp), "index" := JNum(0)])
    case UpdateDown(u) => EncodeTransmissionUpdate(u)
    case TransmissionResDown(r) => EncodeTransmissionRes(r)
    case BeamDown(b) => Envelope("listen-beam", map["id" := JStr(b.id), "data" := b.data])
    case ListenResDown(r) => Envelope("listen-res", map["id" := JStr(r.id), "error" := EncodeOptError(r.error)])
    case MethodResDown(r) => EncodeMethodRes(r)
  }

  /** JSON.stringify of an upward message. */
  function EncodeUp(m: MessageUp): (j: Json)
    ensures Field(j, "epicalyx") == JStr(Version)
    ensures Field(j, "type") == JStr(UpType(m))
    ensures m.MethodReqUp? ==> j == EncodeMethodReq(m.req)
  {
    match m
    case UpdateUp(u) => EncodeTransmissionUpdate(u)
    case TransmissionReqUp(r) =>
      Envelope("transmission-req",
        map["id" := JStr(r.id), "resource" := JStr(r.resource),
            "stashedChangesOverview" := JObj(map k | k in r.stashedChangesOverview :: JNum(r.stashedChangesOverview[k]))])
    case ListenReqUp(r) =>
      Envelope("listen-req", map["id" := JStr(r.id), "scope" := JStr(r.scope), "params" := r.params])
    case MethodReqUp(r) => EncodeMethodReq(r)
  }

  /** How the servers read a received `method-req`: its `id` and `method` as
      strings and its `params`. A message of another type, or one whose id or
      method is not a string, is not read as a request. */
  function ReadMethodReq(j: Json): (r: Option<MethodReq>)
    ensures r.Some? ==> Field(j, "type") == JStr("method-req") && r.value.params == Field(j, "params")
    ensures r.Some? ==> Field(j, "id") == JStr(r.value.id) && Field(j, "method") == JStr(r.value.name)
  {
    if Field(j, "type") == JStr("method-req") && Field(j, "id").JStr? && Field(j, "method").JStr?
    then Some(MethodReq(Field(j, "id").s, Field(j, "method").s, Field(j, "params")))
    else None
  }

  /** Reading a sent request gives back the request. */
  lemma ReadEncodedMethodReq(r: MethodReq)
    ensures ReadMethodReq(EncodeUp(MethodReqUp(r))) == Some(r)
  {
  }

  /** An upward envelope other than a method-req is never read as a request. */
  lemma OtherUpNotRequest(m: MessageUp)
    requires !m.MethodReqUp?
    ensures ReadMethodReq(EncodeUp(m)) == None
  {
  }

  /** A downward message is never read as a request. */
  lemma DownNotRequest(m: MessageDown)
    ensures ReadMethodReq(EncodeDown(m)) == None
  {
  }
}
