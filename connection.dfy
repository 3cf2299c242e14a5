/** The newer client's connection (client/connection.ts): `turnOn` probes the
    server and then opens a WebSocket; every close or connection error goes
    through the `shouldRetryConnection` policy, which either turns the client
    off or schedules a retry; messages sent while not connected wait for the
    next connection; a `connection-closing` message closes the socket and is
    not passed on, every other message reaches every listener. */
module ClientConnection {
  import opened Json
  import opened Wire
  import opened Status

  /** The k-th WebSocket this connection creates is socket k. */
  type SocketId = nat

  /** A function passed to `onMessage`. */
  type ListenerId = nat

  /** One `checkSupport` call awaiting its race. */
  type ProbeId = nat

  /** `shouldRetryConnection(disconnectCode, disconnectReason)`, supplied by the application. */
  type RetryPolicy = (Json, Json) -> bool

  const ErrorConnect: string := "ERROR_CONNECT"
  const ConnectionClosed: string := "CONNECTION_CLOSED"
  const ErrorConnectReason: string := "There was an error while opening a ws connection with the server"
  const ConnectionClosedReason: string := "The connection was unexpectedly and unexplainably closed"

  /** One listener call. */
  datatype Delivery = Delivery(listener: ListenerId, msg: Json)

  /** One call per listener, in registration order. */
  function DeliveriesTo(listeners: seq<ListenerId>, msg: Json): (ds: seq<Delivery>)
    ensures |ds| == |listeners|
    ensures forall i :: 0 <= i < |ds| ==> ds[i] == Delivery(listeners[i], msg)
  {
    seq(|listeners|, i requires 0 <= i < |listeners| => Delivery(listeners[i], msg))
  }

  /** The status `closed` leaves for a code: 0 when no retry is wanted, else
      -5 for a connection error and 5 for any other code. */
  function ClosedStatus(retry: bool, code: Json): (s: int)
    ensures KnownCode(s)
    ensures s == Off <==> !retry
    ensures s == -5 <==> retry && code == JStr(ErrorConnect)
    ensures s == 5 <==> retry && code != JStr(ErrorConnect)
  {
    if !retry then Off else if code == JStr(ErrorConnect) then -5 else 5
  }

  class Connection {
    const url: string
    const parseUrl: UrlParser
    const shouldRetry: RetryPolicy
    const retryTimeout: Option<int>
    var statusCode: int
    var ws: Option<SocketId>
    var nextSocket: nat
    var docs: Json
    var listeners: seq<ListenerId>      // callOnMessageReceived
    var waiting: seq<MessageUp>         // messages waiting for the next connection
    var sent: seq<MessageUp>            // messages written to the socket
    var closedSockets: seq<SocketId>    // sockets this connection closed
    var retries: nat                    // retry timers scheduled and not yet fired
    var probes: map<ProbeId, bool>      // probes awaiting their race; true for turnOn's
    var nextProbe: nat
    var delivered: seq<Delivery>        // every listener call so far

    ghost predicate Valid()
      reads this
    {
      && KnownCode(statusCode)
      && (IsConnected(statusCode) ==> ws.Some? && waiting == [])
      && (ws.Some? ==> ws.value < nextSocket)
      && (forall p :: p in probes ==> p < nextProbe)
    }

    constructor (url: string, parseUrl: UrlParser, shouldRetry: RetryPolicy, retryTimeout: Option<int>)
      ensures Valid()
      ensures this.url == url && this.parseUrl == parseUrl && this.shouldRetry == shouldRetry
      ensures this.retryTimeout == retryTimeout
      ensures statusCode == Off && ws.None? && nextSocket == 0 && docs == JStr("")
      ensures listeners == [] && waiting == [] && sent == [] && closedSockets == [] && retries == 0
      ensures probes == map[] && nextProbe == 0 && delivered == []
    {
      this.url := url;
      this.parseUrl := parseUrl;
      this.shouldRetry := shouldRetry;
      this.retryTimeout := retryTimeout;
      statusCode, ws, nextSocket, docs := Off, None, 0, JStr("");
      listeners, waiting, sent, closedSockets, retries := [], [], [], [], 0;
      probes, nextProbe, delivered := map[], 0, [];
    }

    /** The status text the connection shows, with the retry delay in it. */
    function Text(): string
      reads this
    {
      StatusText(statusCode, RetryDelay(retryTimeout))
    }

    /** `onMessage`. */
    method OnMessage(listener: ListenerId)
      modifies this`listeners
      ensures listeners == old(listeners) + [listener]
    {
      listeners := listeners + [listener];
    }

    /** The part of `checkSupport` before its race: the status is 1; a URL
        that does not parse makes it throw; otherwise the probe is made. */
    method StartProbe(forTurnOn: bool) returns (threw: bool, probe: ProbeId, reqUrl: string)
      requires Valid()
      modifies this`statusCode, this`probes, this`nextProbe
      ensures Valid()
      ensures statusCode == 1
      ensures threw <==> parseUrl(url).None?
      ensures threw ==> probes == old(probes) && nextProbe == old(nextProbe)
      ensures !threw ==>
        probe == old(nextProbe) && probes == old(probes)[probe := forTurnOn] && nextProbe == old(nextProbe) + 1 &&
        reqUrl == ProbeUrl(parseUrl(url).value)
    {
      statusCode := 1;
      var parsed := parseUrl(url);
      if parsed.None? {
        return true, 0, "";
      }
      probe := nextProbe;
      probes := probes[probe := forTurnOn];
      nextProbe := nextProbe + 1;
      threw, reqUrl := false, ProbeUrl(parsed.value);
    }

    /** `checkSupport` up to its race. */
    method CheckSupport() returns (threw: bool, probe: ProbeId, reqUrl: string)
      requires Valid()
      modifies this`statusCode, this`probes, this`nextProbe
      ensures Valid()
      ensures statusCode == 1 && (threw <==> parseUrl(url).None?)
      ensures !threw ==> probe == old(nextProbe) && probes == old(probes)[probe := false] && reqUrl == ProbeUrl(parseUrl(url).value)
      ensures threw ==> probes == old(probes)
    {
      threw, probe, reqUrl := StartProbe(false);
    }

    /** `turnOn`: only a client that is off starts; it probes the server, and
        connects once the probe is over. */
    method TurnOn() returns (started: bool, threw: bool, probe: ProbeId)
      requires Valid()
      modifies this`statusCode, this`probes, this`nextProbe
      ensures Valid()
      ensures started == old(IsOff(statusCode))
      ensures !started ==> statusCode == old(statusCode) && probes == old(probes) && nextProbe == old(nextProbe)
      ensures started ==> statusCode == 1 && (threw <==> parseUrl(url).None?)
      ensures started && !threw ==> probe == old(nextProbe) && probes == old(probes)[probe := true]
      ensures started && threw ==> probes == old(probes)
    {
      if !IsOff(statusCode) {
        return false, false, 0;
      }
      var reqUrl;
      started := true;
      threw, probe, reqUrl := StartProbe(true);
    }

    /** `connect`: a new socket replaces the current one, which is not closed. */
    method Connect()
      requires Valid()
      modifies this`ws, this`nextSocket
      ensures Valid()
      ensures ws == Some(old(nextSocket)) && nextSocket == old(nextSocket) + 1
    {
      ws := Some(nextSocket);
      nextSocket := nextSocket + 1;
    }

    /** A probe's race is over: the status follows its findings, its docs are
        kept and whether the server supports Epicalyx is returned; the probe of
        a `turnOn` then connects, whatever the findings. */
    method FinishProbe(probe: ProbeId, outcome: ProbeOutcome) returns (supportsEpicalyx: bool)
      requires Valid() && probe in probes
      modifies this`statusCode, this`docs, this`probes, this`ws, this`nextSocket
      ensures Valid()
      ensures supportsEpicalyx == Probe(outcome).supportsEpicalyx
      ensures statusCode == ProbeStatus(Probe(outcome)) && docs == Probe(outcome).docs
      ensures probes == old(probes) - {probe}
      ensures old(probes[probe]) ==> ws == Some(old(nextSocket)) && nextSocket == old(nextSocket) + 1
      ensures !old(probes[probe]) ==> ws == old(ws) && nextSocket == old(nextSocket)
    {
      var summary := Probe(outcome);
      statusCode := ProbeStatus(summary);
      docs := summary.docs;
      var connectAfter := probes[probe];
      probes := probes - {probe};
      supportsEpicalyx := summary.supportsEpicalyx;
      if connectAfter {
        Connect();
      }
    }

    /** `turnOff`: an off client stays as it is; otherwise the status is 0
        and the socket, if any, is closed. */
    method TurnOff()
      requires Valid()
      modifies this`statusCode, this`closedSockets
      ensures Valid()
      ensures old(IsOff(statusCode)) ==> closedSockets == old(closedSockets)
      ensures !old(IsOff(statusCode)) ==> closedSockets == old(closedSockets) + (if ws.Some? then [ws.value] else [])
      ensures statusCode == Off
    {
      if IsOff(statusCode) {
        return;
      }
      statusCode := Off;
      if ws.Some? {
        closedSockets := closedSockets + [ws.value];
      }
    }

    /** `sendMessage`: sent at once when connected, otherwise on the next connection. */
    method SendMessage(m: MessageUp)
      requires Valid()
      modifies this`sent, this`waiting
      ensures Valid()
      ensures IsConnected(statusCode) ==> sent == old(sent) + [m] && waiting == old(waiting)
      ensures !IsConnected(statusCode) ==> waiting == old(waiting) + [m] && sent == old(sent)
    {
      if IsConnected(statusCode) {
        sent := sent + [m];
      } else {
        waiting := waiting + [m];
      }
    }

    /** The socket's `onopen`: the status is 4 and the waiting messages are
        sent, in the order they were given. */
    method SocketOpened()
      requires Valid() && ws.Some?
      modifies this`statusCode, this`sent, this`waiting
      ensures Valid()
      ensures statusCode == Connected && sent == old(sent) + old(waiting) && waiting == []
    {
      statusCode := Connected;
      sent := sent + waiting;
      waiting := [];
    }

    /** The effect of `closed(code, reason)`. */
    twostate predicate ClosedWith(new code: Json, new reason: Json)
      reads this
    {
      var retry := shouldRetry(code, reason);
      && statusCode == ClosedStatus(retry, code)
      && retries == old(retries) + (if retry then 1 else 0)
    }

    /** `closed`: the policy decides; without a retry the client is off, with
        one the status tells a connection error from a close and a retry is
        scheduled. */
    method Closed(code: Json, reason: Json)
      requires Valid()
      modifies this`statusCode, this`retries
      ensures Valid()
      ensures ClosedWith(code, reason)
    {
      var retry := shouldRetry(code, reason);
      statusCode := ClosedStatus(retry, code);
      if retry {
        retries := retries + 1;
      }
    }

    /** The socket's `onerror`. */
    method SocketErrored()
      requires Valid() && ws.Some?
      modifies this`statusCode, this`retries
      ensures Valid()
      ensures ClosedWith(JStr(ErrorConnect), JStr(ErrorConnectReason))
    {
      Closed(JStr(ErrorConnect), JStr(ErrorConnectReason));
    }

    /** The socket's `onclose`. */
    method SocketClosed()
      requires Valid() && ws.Some?
      modifies this`statusCode, this`retries
      ensures Valid()
      ensures ClosedWith(JStr(ConnectionClosed), JStr(ConnectionClosedReason))
    {
      Closed(JStr(ConnectionClosed), JStr(ConnectionClosedReason));
    }

    /** A retry timer fires: `connect` runs, whatever the status is. */
    method RetryFired()
      requires Valid() && retries > 0
      modifies this`retries, this`ws, this`nextSocket
      ensures Valid()
      ensures retries == old(retries) - 1
      ensures ws == Some(old(nextSocket)) && nextSocket == old(nextSocket) + 1
    {
      retries := retries - 1;
      Connect();
    }

    /** The effect of a text frame on the socket. */
    twostate predicate ReceivedText(new parsed: Option<Json>, new threw: bool, new forwarded: Option<Json>)
      reads this
    {
      && (threw <==> parsed.None? || parsed.value == JNull)
      && (threw ==>
            forwarded.None? && statusCode == old(statusCode) && retries == old(retries) &&
            closedSockets == old(closedSockets) && delivered == old(delivered))
      && (!threw && Field(parsed.value, "type") == JStr("connection-closing") ==>
            && forwarded.None? && delivered == old(delivered)
            && closedSockets == old(closedSockets) + (if ws.Some? then [ws.value] else [])
            && ClosedWith(Field(parsed.value, "code"), Field(parsed.value, "reason")))
      && (!threw && Field(parsed.value, "type") != JStr("connection-closing") ==>
            && forwarded == parsed
            && delivered == old(delivered) + DeliveriesTo(listeners, parsed.value)
            && statusCode == old(statusCode) && retries == old(retries) && closedSockets == old(closedSockets))
    }

    /** The socket's `onmessage` on the outcome of JSON.parse: it throws when
        the text is not JSON or is null; a `connection-closing` closes the
        socket and goes through `closed` with the message's code and reason;
        any other message goes to every listener, in order, and is returned. */
    method SocketMessage(parsed: Option<Json>) returns (threw: bool, forwarded: Option<Json>)
      requires Valid()
      modifies this`statusCode, this`retries, this`closedSockets, this`delivered
      ensures Valid()
      ensures ReceivedText(parsed, threw, forwarded)
    {
      if parsed.None? || parsed.value == JNull {
        return true, None;
      }
      var msg := parsed.value;
      threw := false;
      if Field(msg, "type") == JStr("connection-closing") {
        if ws.Some? {
          closedSockets := closedSockets + [ws.value];
        }
        Closed(Field(msg, "code"), Field(msg, "reason"));
        forwarded := None;
        return;
      }
      var i := 0;
      while i < |listeners|
        invariant 0 <= i <= |listeners|
        invariant delivered == old(delivered) + DeliveriesTo(listeners[..i], msg)
        modifies this`delivered
      {
        delivered := delivered + [Delivery(listeners[i], msg)];
        i := i + 1;
      }
      assert listeners[..i] == listeners;
      forwarded := parsed;
    }
  }
}
