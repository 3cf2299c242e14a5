/** What both client generations do with a `method-res`: the pending call's
    promise rejects with the `error` when it is set and resolves with the
    `result` otherwise; a promise settles once, later settlements are lost. */
module Calls {
  import opened Json
  import opened Wire

  /** How a call's promise ends. */
  datatype Settlement = Resolved(value: Json) | Rejected(reason: Json)

  /** The callback stored for a call, applied to the response. */
  function SettlementOf(msg: Json): (s: Settlement)
    ensures s.Rejected? <==> Truthy(Field(msg, "error"))
    ensures s.Rejected? ==> s.reason == Field(msg, "error")
    ensures s.Resolved? ==> s.value == Field(msg, "result")
  {
    if Truthy(Field(msg, "error")) then Rejected(Field(msg, "error")) else Resolved(Field(msg, "result"))
  }

  /** A promise keeps its first settlement. */
  function Settle(outcomes: map<string, Settlement>, id: string, s: Settlement): (r: map<string, Settlement>)
    ensures id in r && r[id] == (if id in outcomes then outcomes[id] else s)
    ensures r.Keys == outcomes.Keys + {id}
    ensures forall k :: k in outcomes ==> k in r && r[k] == outcomes[k]
  {
    if id in outcomes then outcomes else outcomes[id := s]
  }

  /** A response as a server encodes it settles the call the way the server
      meant: rejected with the encoded error exactly when it carries one,
      resolved with the result otherwise. */
  lemma SettlementOfEncoded(res: MethodRes)
    ensures res.error.Some? ==> SettlementOf(EncodeMethodRes(res)) == Rejected(EncodeError(res.error.value))
    ensures res.error.None? ==> SettlementOf(EncodeMethodRes(res)) == Resolved(res.result)
  {
  }

  /** `parseMessage` of client.ts on the outcome of JSON.parse (None when it
      threw): a message is kept unchanged exactly when its `epicalyx` is "1.0". */
  function ParseDown(parsed: Option<Json>): (r: Option<Json>)
    ensures r.None? <==> parsed.None? || Field(parsed.value, "epicalyx") != JStr(Version)
    ensures r.Some? ==> r == parsed
  {
    var json := if parsed.Some? then parsed.value else JNull;
    if !Truthy(json) then None
    else if Field(json, "epicalyx") != JStr(Version) then None
    else Some(json)
  }

  /** Every downward message a server encodes passes the client's check. */
  lemma ParseDownEncoded(m: MessageDown)
    ensures ParseDown(Some(EncodeDown(m))) == Some(EncodeDown(m))
  {
  }
}
