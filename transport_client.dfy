/** The older client (client.ts): a status code driven by `setUrl`, the support
    probe, `connect` racing the transport against a timeout, `turnOff` and the
    reconnect timer; and a table of pending calls settled by `method-res`. */
module TransportClient {
  import opened Json
  import opened Wire
  import opened Status
  import opened Calls

  /** The transport result of the k-th `connect` call is socket k. */
  type SocketId = nat

  /** One `connect` call: whether its transport promise is still pending, and
      whether its race against the timeout is over. */
  datatype Attempt = Attempt(openPending: bool, raceOver: bool)

  // ---------------------------------------------------------------------------
  // The first run of a call's `connected` subscriber

  /** What the subscriber a call puts on `connected` does when it first runs
      (at once, on subscribing), and whether it sends again later. */
  datatype CallDelivery =
    | Rejects               // it throws, so the call's promise rejects
    | SendsNow              // it sends on the current transport, once
    | SendsNowAndOnConnect  // it sends now and once more on the next connection

  /** As written, the subscriber has no early return when not connected: it
      throws when there has been no transport yet, and otherwise sends on the
      current transport, which may be one `turnOff` closed. */
  function CallDeliveryAsWritten(connected: bool, hasTransport: bool): CallDelivery {
    if !hasTransport then Rejects
    else if connected then SendsNow
    else SendsNowAndOnConnect
  }

  function SendCount(d: CallDelivery): nat {
    match d
    case Rejects => 0
    case SendsNow => 1
    case SendsNowAndOnConnect => 2
  }

  /** A call made before the first connection rejects, and one made after a
      `turnOff` is sent twice. */
  lemma CallWhileDisconnectedAsWritten()
    ensures CallDeliveryAsWritten(false, false) == Rejects
    ensures SendCount(CallDeliveryAsWritten(false, true)) == 2
  {
  }

  // ---------------------------------------------------------------------------
  // Requests by id

  function Ids(rs: seq<MethodReq>): set<string> {
    set i | 0 <= i < |rs| :: rs[i].id
  }

  /** No id occurs twice. */
  predicate DistinctIds(rs: seq<MethodReq>) {
    forall i, j :: 0 <= i < j < |rs| ==> rs[i].id != rs[j].id
  }

  /** A request with a fresh id extends a list of distinct ids. */
  lemma AppendFresh(rs: seq<MethodReq>, r: MethodReq)
    requires DistinctIds(rs) && r.id !in Ids(rs)
    ensures DistinctIds(rs + [r]) && Ids(rs + [r]) == Ids(rs) + {r.id}
  {
    var t := rs + [r];
    forall i, j | 0 <= i < j < |t|
      ensures t[i].id != t[j].id
    {
      if j == |rs| {
        assert t[i] == rs[i];
      }
    }
    forall x | x in Ids(t)
      ensures x in Ids(rs) + {r.id}
    {
      var i :| 0 <= i < |t| && t[i].id == x;
      if i < |rs| {
        assert t[i] == rs[i];
      }
    }
    forall x | x in Ids(rs) + {r.id}
      ensures x in Ids(t)
    {
      if x == r.id {
        assert t[|rs|].id == x;
      } else {
        var i :| 0 <= i < |rs| && rs[i].id == x;
        assert t[i].id == x;
      }
    }
  }

  lemma IdsConcat(a: seq<MethodReq>, b: seq<MethodReq>)
    ensures Ids(a + b) == Ids(a) + Ids(b)
  {
    var t := a + b;
    forall x | x in Ids(t)
      ensures x in Ids(a) + Ids(b)
    {
      var i :| 0 <= i < |t| && t[i].id == x;
      if i < |a| {
        assert t[i] == a[i];
      } else {
        assert t[i] == b[i - |a|];
      }
    }
    forall x | x in Ids(a) + Ids(b)
      ensures x in Ids(t)
    {
      if x in Ids(a) {
        var i :| 0 <= i < |a| && a[i].id == x;
        assert t[i].id == x;
      } else {
        var i :| 0 <= i < |b| && b[i].id == x;
        assert t[|a| + i].id == x;
      }
    }
  }

  // ---------------------------------------------------------------------------

  class EpicalyxClient {
    const parseUrl: UrlParser
    const timeout: int                      // the retry and probe delay, 3000 ms
    var statusCode: int
    var currentUrl: Option<string>
    var shouldConnectAtAll: bool
    var wsClientResult: Option<SocketId>
    var pending: set<string>                // the ids in ongoingMethodCalls
    var outcomes: map<string, Settlement>   // how each call's promise has settled
    var waiting: seq<MethodReq>             // calls waiting for the next connection
    var sent: seq<MethodReq>                // requests written to a transport
    var closedSockets: seq<SocketId>        // transports this client closed
    var reconnects: nat                     // reconnect timers scheduled and not yet fired
    var probes: nat                         // checkSupport calls awaiting their race
    var attempts: map<nat, Attempt>         // every connect call so far
    var nextAttempt: nat
    var openedSockets: set<SocketId>        // transports that have opened

    ghost predicate Valid()
      reads this
    {
      && KnownCode(statusCode)
      && (IsConnected(statusCode) ==> wsClientResult.Some? && waiting == [])
      && (currentUrl.Some? ==>
            parseUrl(currentUrl.value).Some? && WebSocketScheme(parseUrl(currentUrl.value).value))
      && outcomes.Keys <= pending
      && (forall k :: k in attempts ==> k < nextAttempt)
      && EachCallOnce()
    }

    /** Every call in the table has exactly one request, either already
        written to a transport or waiting for the next connection, and no
        request is written twice. */
    ghost predicate EachCallOnce()
      reads this
    {
      pending == Ids(sent) + Ids(waiting) && DistinctIds(sent + waiting)
    }

    constructor (parseUrl: UrlParser)
      ensures Valid()
      ensures this.parseUrl == parseUrl && timeout == DefaultTimeout
      ensures statusCode == 0 && currentUrl.None? && !shouldConnectAtAll && wsClientResult.None?
      ensures pending == {} && outcomes == map[] && waiting == [] && sent == [] && closedSockets == []
      ensures reconnects == 0 && probes == 0 && attempts == map[] && nextAttempt == 0 && openedSockets == {}
    {
      this.parseUrl := parseUrl;
      timeout := DefaultTimeout;
      statusCode, currentUrl, shouldConnectAtAll, wsClientResult := 0, None, false, None;
      pending, outcomes, waiting, sent, closedSockets := {}, map[], [], [], [];
      reconnects, probes, attempts, nextAttempt, openedSockets := 0, 0, map[], 0, {};
      assert Ids([]) == {};
    }

    /** `turnOff(canReconnect)`: reconnects are enabled or not, the current
        transport (if any) is closed, and the status is 0. The transport stays
        referenced. */
    method TurnOff(canReconnect: bool)
      requires Valid()
      modifies this`shouldConnectAtAll, this`closedSockets, this`statusCode
      ensures Valid()
      ensures shouldConnectAtAll == canReconnect && statusCode == Off
      ensures closedSockets == old(closedSockets) + (if wsClientResult.Some? then [wsClientResult.value] else [])
    {
      shouldConnectAtAll := canReconnect;
      if wsClientResult.Some? {
        closedSockets := closedSockets + [wsClientResult.value];
      }
      statusCode := Off;
    }

    /** `setUrl`: the same URL again changes nothing. Otherwise a connected
        client is turned off first (with reconnects enabled); then an
        unparseable URL sets -1, a URL of another scheme -2, both keeping
        the current URL, and a ws: or wss: URL becomes the current one. */
    method SetUrl(url: string)
      requires Valid()
      modifies this`shouldConnectAtAll, this`closedSockets, this`statusCode, this`currentUrl
      ensures Valid()
      ensures old(currentUrl) == Some(url) ==>
        currentUrl == old(currentUrl) && statusCode == old(statusCode) &&
        shouldConnectAtAll == old(shouldConnectAtAll) && closedSockets == old(closedSockets)
      ensures old(currentUrl) != Some(url) ==>
        var wasConnected := old(IsConnected(statusCode));
        && shouldConnectAtAll == (wasConnected || old(shouldConnectAtAll))
        && closedSockets == old(closedSockets) + (if wasConnected then [wsClientResult.value] else [])
        && (parseUrl(url).None? ==> statusCode == -1 && currentUrl == old(currentUrl))
        && (parseUrl(url).Some? && !WebSocketScheme(parseUrl(url).value) ==>
              statusCode == -2 && currentUrl == old(currentUrl))
        && (parseUrl(url).Some? && WebSocketScheme(parseUrl(url).value) ==>
              currentUrl == Some(url) && statusCode == (if wasConnected then Off else old(statusCode)))
    {
      if currentUrl == Some(url) {
        return;
      }
      if IsConnected(statusCode) {
        TurnOff(true);
      }
      var parsed := parseUrl(url);
      if parsed.None? {
        statusCode := -1;
      } else if !WebSocketScheme(parsed.value) {
        statusCode := -2;
      } else {
        currentUrl := Some(url);
      }
    }

    /** The part of `checkSupport` before its race: without a URL it throws;
        otherwise the status is 1 and the probe request is made. */
    method BeginCheckSupport() returns (threw: bool, reqUrl: string)
      requires Valid()
      modifies this`statusCode, this`probes
      ensures Valid()
      ensures threw <==> currentUrl.None?
      ensures threw ==> statusCode == old(statusCode) && probes == old(probes)
      ensures !threw ==>
        statusCode == 1 && probes == old(probes) + 1 && reqUrl == ProbeUrl(parseUrl(currentUrl.value).value)
    {
      if currentUrl.None? {
        return true, "";
      }
      statusCode := 1;
      probes := probes + 1;
      threw, reqUrl := false, ProbeUrl(parseUrl(currentUrl.value).value);
    }

    /** The part of `checkSupport` after its race: the status follows the
        probe's findings, which are returned. */
    method FinishCheckSupport(outcome: ProbeOutcome) returns (summary: ProbeSummary)
      requires Valid() && probes > 0
      modifies this`statusCode, this`probes
      ensures Valid()
      ensures summary == Probe(outcome)
      ensures statusCode == ProbeStatus(summary) && probes == old(probes) - 1
    {
      summary := Probe(outcome);
      statusCode := ProbeStatus(summary);
      probes := probes - 1;
    }

    /** The effect of the part of `connect` before its race. */
    twostate predicate BeganConnect(attempt: nat)
      reads this
    {
      var wasConnected := old(IsConnected(statusCode)) && old(wsClientResult).Some?;
      && shouldConnectAtAll && statusCode == 3
      && closedSockets == old(closedSockets) + (if wasConnected then [old(wsClientResult).value] else [])
      && attempt == old(nextAttempt) && nextAttempt == old(nextAttempt) + 1
      && attempts == old(attempts)[attempt := Attempt(true, false)]
    }

    /** The part of `connect` before its race: without a URL it throws;
        otherwise a connected client is turned off, reconnects are enabled,
        the status is 3 and the transport is requested. */
    method BeginConnect() returns (threw: bool, attempt: nat)
      requires Valid()
      modifies this`shouldConnectAtAll, this`closedSockets, this`statusCode, this`attempts, this`nextAttempt
      ensures Valid()
      ensures threw <==> currentUrl.None?
      ensures threw ==> statusCode == old(statusCode) && shouldConnectAtAll == old(shouldConnectAtAll) &&
                        closedSockets == old(closedSockets) && attempts == old(attempts) && nextAttempt == old(nextAttempt)
      ensures !threw ==> BeganConnect(attempt)
    {
      if currentUrl.None? {
        return true, 0;
      }
      if IsConnected(statusCode) {
        TurnOff(false);
      }
      shouldConnectAtAll := true;
      statusCode := 3;
      attempt := nextAttempt;
      attempts := attempts[attempt := Attempt(true, false)];
      nextAttempt := nextAttempt + 1;
      threw := false;
    }

    /** An attempt's transport opens. While reconnects are enabled it is
        adopted, and if the race is still on the status becomes 4 and the
        waiting calls are sent; once `turnOff` has disabled them it is closed
        instead and the status is left as it is. */
    method Opened(k: nat)
      requires Valid() && k in attempts && attempts[k].openPending
      modifies this`wsClientResult, this`closedSockets, this`statusCode, this`attempts, this`sent,
               this`waiting, this`openedSockets
      ensures Valid()
      ensures attempts == old(attempts)[k := Attempt(false, true)] && openedSockets == old(openedSockets) + {k}
      ensures old(shouldConnectAtAll) ==> wsClientResult == Some(k) && closedSockets == old(closedSockets)
      ensures !old(shouldConnectAtAll) ==>
        wsClientResult == old(wsClientResult) && closedSockets == old(closedSockets) + [k]
      ensures old(shouldConnectAtAll) && !old(attempts[k].raceOver) ==>
        statusCode == Connected && sent == old(sent) + old(waiting) && waiting == []
      ensures !old(shouldConnectAtAll) || old(attempts[k].raceOver) ==>
        statusCode == old(statusCode) && sent == old(sent) && waiting == old(waiting)
    {
      var raceOver := attempts[k].raceOver;
      attempts := attempts[k := Attempt(false, true)];
      openedSockets := openedSockets + {k};
      if shouldConnectAtAll {
        wsClientResult := Some(k);
        if !raceOver {
          IdsConcat(sent, waiting);
          assert Ids([]) == {};
          statusCode := Connected;
          sent := sent + waiting;
          waiting := [];
          assert sent + waiting == sent;
        }
      } else {
        closedSockets := closedSockets + [k];
      }
    }

    /** An attempt's transport fails to open: while the race is on, the status
        is -5 and a reconnect is scheduled; afterwards nothing happens. */
    method Failed(k: nat)
      requires Valid() && k in attempts && attempts[k].openPending
      modifies this`statusCode, this`attempts, this`reconnects
      ensures Valid()
      ensures attempts == old(attempts)[k := Attempt(false, true)]
      ensures !old(attempts[k].raceOver) ==> statusCode == -5 && reconnects == old(reconnects) + 1
      ensures old(attempts[k].raceOver) ==> statusCode == old(statusCode) && reconnects == old(reconnects)
    {
      if !attempts[k].raceOver {
        statusCode := -5;
        reconnects := reconnects + 1;
      }
      attempts := attempts[k := Attempt(false, true)];
    }

    /** An attempt's timeout wins the race: the status is -5 and a reconnect
        is scheduled; a transport that opens later is still handled. */
    method TimedOut(k: nat)
      requires Valid() && k in attempts && !attempts[k].raceOver
      modifies this`statusCode, this`attempts, this`reconnects
      ensures Valid()
      ensures attempts == old(attempts)[k := Attempt(old(attempts[k].openPending), true)]
      ensures statusCode == -5 && reconnects == old(reconnects) + 1
    {
      attempts := attempts[k := Attempt(attempts[k].openPending, true)];
      statusCode := -5;
      reconnects := reconnects + 1;
    }

    /** The `onClose` given to the transport: the status is 5 and a reconnect is scheduled. */
    method TransportClosed(k: SocketId)
      requires Valid() && k in openedSockets
      modifies this`statusCode, this`reconnects
      ensures Valid()
      ensures statusCode == 5 && reconnects == old(reconnects) + 1
    {
      statusCode := 5;
      reconnects := reconnects + 1;
    }

    /** A reconnect timer fires: `connect` runs only while reconnects are enabled. */
    method ReconnectFired() returns (connecting: bool, threw: bool, attempt: nat)
      requires Valid() && reconnects > 0
      modifies this`shouldConnectAtAll, this`closedSockets, this`statusCode, this`attempts, this`nextAttempt,
               this`reconnects
      ensures Valid()
      ensures reconnects == old(reconnects) - 1
      ensures connecting == old(shouldConnectAtAll)
      ensures !connecting ==>
        statusCode == old(statusCode) && closedSockets == old(closedSockets) &&
        attempts == old(attempts) && nextAttempt == old(nextAttempt) && shouldConnectAtAll == old(shouldConnectAtAll)
      ensures connecting ==> (threw <==> currentUrl.None?) && (!threw ==> BeganConnect(attempt))
    {
      reconnects := reconnects - 1;
      connecting, threw, attempt := shouldConnectAtAll, false, 0;
      if shouldConnectAtAll {
        threw, attempt := BeginConnect();
      }
    }

    /** `callMethod` with a fresh id: the call is entered in the table, and its
        request is sent at once when connected and otherwise on the next
        connection, never both (the invariant `EachCallOnce`). */
    method CallMethod(name: string, params: Json, id: string)
      requires Valid() && id !in pending
      modifies this`pending, this`sent, this`waiting
      ensures Valid()
      ensures pending == old(pending) + {id}
      ensures IsConnected(statusCode) ==> sent == old(sent) + [MethodReq(id, name, params)] && waiting == old(waiting)
      ensures !IsConnected(statusCode) ==> waiting == old(waiting) + [MethodReq(id, name, params)] && sent == old(sent)
    {
      pending := pending + {id};
      var req := MethodReq(id, name, params);
      IdsConcat(sent, waiting);
      AppendFresh(sent + waiting, req);
      assert Ids([req]) == {id} by {
        assert [req][0].id == id;
      }
      if IsConnected(statusCode) {
        IdsConcat(sent, [req]);
        assert sent + waiting == sent;
        sent := sent + [req];
        assert sent + waiting == sent;
      } else {
        IdsConcat(waiting, [req]);
        waiting := waiting + [req];
        assert sent + waiting == old(sent) + old(waiting) + [req];
      }
    }

    /** `handleMessage` on the outcome of JSON.parse: a supported `method-res`
        for a pending call settles it by its `error`; any other message, and
        a response to an unknown id, changes nothing. */
    method HandleMessage(parsed: Option<Json>)
      requires Valid()
      modifies this`outcomes
      ensures Valid()
      ensures var msg := ParseDown(parsed);
        if msg.Some? && Field(msg.value, "type") == JStr("method-res") &&
           Field(msg.value, "id").JStr? && Field(msg.value, "id").s in pending
        then outcomes == Settle(old(outcomes), Field(msg.value, "id").s, SettlementOf(msg.value))
        else outcomes == old(outcomes)
    {
      var msg := ParseDown(parsed);
      if msg.None? || Field(msg.value, "type") != JStr("method-res") {
        return;
      }
      var id := Field(msg.value, "id");
      if id.JStr? && id.s in pending {
        outcomes := Settle(outcomes, id.s, SettlementOf(msg.value));
      }
    }
  }
}
