/** The newer client (client/epicalyx.ts): a connection whose first listener
    settles method calls. A call enters its id in the table and sends its
    request through the connection; a `method-res` for a known id settles
    that call by its `error`. */
module ConnectionClient {
  import opened Json
  import opened Wire
  import opened Status
  import opened Calls
  import opened ClientConnection

  class EpicalyxClient {
    const conn: Connection
    const own: ListenerId               // the listener the constructor registers
    var pending: set<string>            // ids in ongoingMethodCalls
    var outcomes: map<string, Settlement>

    ghost predicate Valid()
      reads this, conn
    {
      && conn.Valid()
      && |conn.listeners| > 0 && conn.listeners[0] == own
      && outcomes.Keys <= pending
    }

    constructor (url: string, parseUrl: UrlParser, shouldRetry: RetryPolicy, retryTimeout: Option<int>, own: ListenerId)
      ensures Valid() && fresh(conn)
      ensures conn.url == url && conn.parseUrl == parseUrl && conn.shouldRetry == shouldRetry
      ensures conn.retryTimeout == retryTimeout
      ensures conn.statusCode == Off && conn.listeners == [own] && conn.waiting == [] && conn.sent == []
      ensures this.own == own && pending == {} && outcomes == map[]
    {
      var c := new Connection(url, parseUrl, shouldRetry, retryTimeout);
      c.OnMessage(own);
      conn := c;
      this.own := own;
      pending, outcomes := {}, map[];
    }

    /** `onMessage` for a listener of the application's. */
    method OnMessage(listener: ListenerId)
      requires Valid()
      modifies conn`listeners
      ensures Valid()
      ensures conn.listeners == old(conn.listeners) + [listener]
    {
      conn.OnMessage(listener);
    }

    /** `callMethod` with a fresh id: the call is entered in the table and its
        request goes through `sendMessage`: at once when connected, otherwise
        on the next connection. */
    method CallMethod(name: string, params: Json, id: string)
      requires Valid() && id !in pending
      modifies this`pending, conn`sent, conn`waiting
      ensures Valid()
      ensures pending == old(pending) + {id}
      ensures var m := MethodReqUp(MethodReq(id, name, params));
        && (IsConnected(conn.statusCode) ==> conn.sent == old(conn.sent) + [m] && conn.waiting == old(conn.waiting))
        && (!IsConnected(conn.statusCode) ==> conn.waiting == old(conn.waiting) + [m] && conn.sent == old(conn.sent))
    {
      pending := pending + {id};
      conn.SendMessage(MethodReqUp(MethodReq(id, name, params)));
    }

    /** `handleMessage`: a `method-res` whose id is in the table settles that
        call; anything else changes nothing. No version check is made here. */
    method HandleMessage(msg: Json)
      requires Valid()
      modifies this`outcomes
      ensures Valid()
      ensures if Field(msg, "type") == JStr("method-res") && Field(msg, "id").JStr? && Field(msg, "id").s in pending
        then outcomes == Settle(old(outcomes), Field(msg, "id").s, SettlementOf(msg))
        else outcomes == old(outcomes)
    {
      if Field(msg, "type") != JStr("method-res") {
        return;
      }
      var id := Field(msg, "id");
      if id.JStr? && id.s in pending {
        outcomes := Settle(outcomes, id.s, SettlementOf(msg));
      }
    }

    /** A text frame: the connection handles it, and a message it passes on
        reaches this client's own listener, which settles calls. */
    method SocketMessage(parsed: Option<Json>) returns (threw: bool, forwarded: Option<Json>)
      requires Valid()
      modifies this`outcomes, conn`statusCode, conn`retries, conn`closedSockets, conn`delivered
      ensures Valid()
      ensures conn.ReceivedText(parsed, threw, forwarded)
      ensures !threw && Field(parsed.value, "type") != JStr("connection-closing") ==>
        Delivery(own, parsed.value) in conn.delivered[|old(conn.delivered)|..]
      ensures if !threw && Field(parsed.value, "type") == JStr("method-res") &&
                 Field(parsed.value, "id").JStr? && Field(parsed.value, "id").s in pending
        then outcomes == Settle(old(outcomes), Field(parsed.value, "id").s, SettlementOf(parsed.value))
        else outcomes == old(outcomes)
    {
      threw, forwarded := conn.SocketMessage(parsed);
      if forwarded.Some? {
        HandleMessage(forwarded.value);
      }
    }
  }

  /** End to end: a response the server encodes for a call this client made
      settles that call as the server meant, rejected with the encoded error
      exactly when it carries one. */
  lemma ResponseSettlesCall(res: MethodRes, outcomes: map<string, Settlement>)
    requires res.id !in outcomes
    ensures var msg := EncodeMethodRes(res);
      && Field(msg, "type") == JStr("method-res") && Field(msg, "id") == JStr(res.id)
      && Settle(outcomes, res.id, SettlementOf(msg))[res.id] ==
         (if res.error.Some? then Rejected(EncodeError(res.error.value)) else Resolved(res.result))
  {
    SettlementOfEncoded(res);
  }
}
