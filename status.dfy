/** What both client generations share: the signed status code (-5 to 5)
    and its projections `connected`, `isOff` and `statusText`, the decision
    taken on the outcome of the `/supports-epicalyx-v1` probe, and the retry
    delay default. */
module Status {
  import opened Json
  import opened Wire

  const Off: int := 0
  const Connected: int := 4

  /** `connected = derive(statusCode, code => code === 4)`. */
  predicate IsConnected(code: int) {
    code == Connected
  }

  /** `isOff = derive(statusCode, code => code === 0)`. */
  predicate IsOff(code: int) {
    code == Off
  }

  /** The codes the engines ever set. */
  predicate KnownCode(code: int) {
    -5 <= code <= 5
  }

  // ---------------------------------------------------------------------------
  // Number rendering, as JavaScript's template literals render integers and
  // thousandths

  function Digit(d: nat): (c: char)
    requires d < 10
    ensures '0' <= c <= '9'
  {
    "0123456789"[d]
  }

  /** The decimal digits of a natural number, with no leading zero. */
  function NatText(n: nat): (s: string)
    ensures |s| >= 1
    ensures n >= 10 <==> |s| >= 2
    ensures forall i :: 0 <= i < |s| ==> '0' <= s[i] <= '9'
    ensures n > 0 ==> s[0] != '0'
    decreases n
  {
    if n < 10 then [Digit(n)] else NatText(n / 10) + [Digit(n % 10)]
  }

  lemma DigitInjective(a: nat, b: nat)
    requires a < 10 && b < 10 && Digit(a) == Digit(b)
    ensures a == b
  {
  }

  /** Different numbers are rendered differently. */
  lemma {:induction false} NatTextInjective(a: nat, b: nat)
    requires NatText(a) == NatText(b)
    ensures a == b
    decreases a
  {
    if a >= 10 {
      var sa, sb := NatText(a), NatText(b);
      assert sa[..|sa| - 1] == NatText(a / 10) && sb[..|sb| - 1] == NatText(b / 10);
      NatTextInjective(a / 10, b / 10);
      DigitInjective(a % 10, b % 10);
    } else {
      DigitInjective(a, b);
    }
  }

  /** An integer in decimal, with a leading '-' when negative. */
  function IntText(n: int): (s: string)
    ensures |s| >= 1
    ensures n < 0 <==> s[0] == '-'
  {
    if n < 0 then "-" + NatText(-n) else NatText(n)
  }

  lemma IntTextInjective(a: int, b: int)
    requires IntText(a) == IntText(b)
    ensures a == b
  {
    if a < 0 {
      assert IntText(a)[1..] == NatText(-a) && IntText(b)[1..] == NatText(-b);
      NatTextInjective(-a, -b);
    } else {
      NatTextInjective(a, b);
    }
  }

  /** The fraction digits of thousandths, trailing zeros dropped. */
  function FractionText(f: nat): string
    requires 0 < f < 1000
  {
    var d1, d2, d3 := f / 100, (f / 10) % 10, f % 10;
    if d3 != 0 then [Digit(d1), Digit(d2), Digit(d3)]
    else if d2 != 0 then [Digit(d1), Digit(d2)]
    else [Digit(d1)]
  }

  /** `${ms / 1000}`: the whole seconds, and the thousandths when there are any. */
  function SecondsText(ms: int): (s: string)
    ensures ms % 1000 == 0 && ms >= 0 ==> s == NatText(ms / 1000)
    ensures ms == 3000 ==> s == "3"
  {
    var a: nat := if ms < 0 then -ms else ms;
    var whole := NatText(a / 1000);
    var body := if a % 1000 == 0 then whole else whole + "." + FractionText(a % 1000);
    if ms < 0 then "-" + body else body
  }

  /** `Retrying in ${seconds} second${seconds === 1 ? '' : 's'}...`. */
  function RetryMessage(ms: int): (s: string)
    ensures ms == 1000 ==> s == "Retrying in 1 second..."
    ensures ms == 3000 ==> s == "Retrying in 3 seconds..."
  {
    "Retrying in " + SecondsText(ms) + " second" + (if ms == 1000 then "" else "s") + "..."
  }

  /** "second" takes its plural ending exactly when the delay is not one
      second: the fourth character from the end is that 's'. */
  lemma RetryMessagePlural(ms: int)
    ensures var s := RetryMessage(ms); |s| >= 4 && (s[|s| - 4] == 's' <==> ms != 1000)
  {
  }

  const UnknownPrefix: string := "Unknown code: "
  const LostPrefix: string := "Could not open a websocket connection with host. "

  /** `statusText` for a code and the retry delay in milliseconds. */
  function StatusText(code: int, ms: int): string {
    if code == -5 then LostPrefix + RetryMessage(ms)
    else if code == -4 then "Server does not support Epicalyx."
    else if code == -3 then "Server did not respond."
    else if code == -2 then "URL must start with 'ws:' or 'wss:'."
    else if code == -1 then "Invalid URL."
    else if code == 0 then "Not connected."
    else if code == 1 then "Checking host support..."
    else if code == 2 then "Host supports Epicalyx!"
    else if code == 3 then "Connecting..."
    else if code == 4 then "Connected!"
    else if code == 5 then "Disconnected.  " + RetryMessage(ms)
    else UnknownPrefix + IntText(code)
  }

  /** Four characters that tell the texts apart. */
  function Key(t: string): (char, char, char, char)
    requires |t| >= 9
  {
    (t[0], t[2], t[7], t[8])
  }

  /** The code whose text has a given key; 6 stands for an unknown code. */
  function KeyCode(k: (char, char, char, char)): int {
    if k == ('C', 'u', 'o', 't') then -5 else if k == ('S', 'r', 'd', 'o') then -4 else if k == ('S', 'r', 'd', 'i') then -3
    else if k == ('U', 'L', 't', ' ') then -2 else if k == ('I', 'v', ' ', 'U') then -1 else if k == ('N', 't', 'n', 'e') then 0
    else if k == ('C', 'e', 'g', ' ') then 1 else if k == ('H', 's', 'p', 'p') then 2 else if k == ('C', 'n', 'i', 'n') then 3
    else if k == ('C', 'n', 'e', 'd') then 4 else if k == ('D', 's', 'e', 'c') then 5 else 6
  }

  lemma PrefixKey(prefix: string, rest: string)
    requires |prefix| >= 9
    ensures Key(prefix + rest) == Key(prefix)
  {
  }

  /** The keys of the texts of the codes -4 to 4. */
  lemma PlainKeys()
    ensures Key("Server does not support Epicalyx.") == ('S', 'r', 'd', 'o')
    ensures Key("Server did not respond.") == ('S', 'r', 'd', 'i')
    ensures Key("URL must start with 'ws:' or 'wss:'.") == ('U', 'L', 't', ' ')
    ensures Key("Invalid URL.") == ('I', 'v', ' ', 'U')
    ensures Key("Not connected.") == ('N', 't', 'n', 'e')
    ensures Key("Checking host support...") == ('C', 'e', 'g', ' ')
    ensures Key("Host supports Epicalyx!") == ('H', 's', 'p', 'p')
    ensures Key("Connecting...") == ('C', 'n', 'i', 'n')
    ensures Key("Connected!") == ('C', 'n', 'e', 'd')
  {
  }

  /** Whatever follows it, the prefix of the code -5 text fixes the key. */
  lemma LostPrefixKey(rest: string)
    ensures |LostPrefix + rest| >= 9 && Key(LostPrefix + rest) == ('C', 'u', 'o', 't')
  {
    assert LostPrefix == "Could not " + "open a websocket connection with host. ";
    PrefixKey(LostPrefix, rest);
  }

  lemma LostKey(ms: int)
    ensures |StatusText(-5, ms)| >= 9 && Key(StatusText(-5, ms)) == ('C', 'u', 'o', 't')
  {
    LostPrefixKey(RetryMessage(ms));
  }

  lemma DisconnectedKey(ms: int)
    ensures |StatusText(5, ms)| >= 9 && Key(StatusText(5, ms)) == ('D', 's', 'e', 'c')
  {
    PrefixKey("Disconnected.  ", RetryMessage(ms));
  }

  lemma PlainCodeKey(code: int, ms: int)
    requires -4 <= code <= 4
    ensures |StatusText(code, ms)| >= 9 && KeyCode(Key(StatusText(code, ms))) == code
  {
    PlainKeys();
    if code == -4 {
      assert StatusText(code, ms) == "Server does not support Epicalyx.";
    } else if code == -3 {
      assert StatusText(code, ms) == "Server did not respond.";
    } else if code == -2 {
      assert StatusText(code, ms) == "URL must start with 'ws:' or 'wss:'.";
    } else if code == -1 {
      assert StatusText(code, ms) == "Invalid URL.";
    } else if code == 0 {
      assert StatusText(code, ms) == "Not connected.";
    } else if code == 1 {
      assert StatusText(code, ms) == "Checking host support...";
    } else if code == 2 {
      assert StatusText(code, ms) == "Host supports Epicalyx!";
    } else if code == 3 {
      assert StatusText(code, ms) == "Connecting...";
    } else {
      assert StatusText(code, ms) == "Connected!";
    }
  }

  /** A known code is recovered from its text's key. */
  lemma KnownCodeKey(code: int, ms: int)
    requires KnownCode(code)
    ensures |StatusText(code, ms)| >= 9 && KeyCode(Key(StatusText(code, ms))) == code
  {
    if code == -5 {
      LostKey(ms);
    } else if code == 5 {
      DisconnectedKey(ms);
    } else {
      PlainCodeKey(code, ms);
    }
  }

  /** An unknown code's text is "Unknown code: " and the code, with a key of no known code. */
  lemma UnknownCodeKey(code: int, ms: int)
    requires !KnownCode(code)
    ensures StatusText(code, ms) == UnknownPrefix + IntText(code)
    ensures |StatusText(code, ms)| >= 9 && KeyCode(Key(StatusText(code, ms))) == 6
  {
    PrefixKey(UnknownPrefix, IntText(code));
    assert Key(UnknownPrefix) == ('U', 'k', ' ', 'c');
  }

  /** No two codes share a text: the status can be read back from `statusText`. */
  lemma StatusTextInjective(c1: int, c2: int, ms: int)
    requires StatusText(c1, ms) == StatusText(c2, ms)
    ensures c1 == c2
  {
    if KnownCode(c1) { KnownCodeKey(c1, ms); } else { UnknownCodeKey(c1, ms); }
    if KnownCode(c2) { KnownCodeKey(c2, ms); } else { UnknownCodeKey(c2, ms); }
    if !KnownCode(c1) && !KnownCode(c2) {
      var t := StatusText(c1, ms);
      assert t[|UnknownPrefix|..] == IntText(c1) && StatusText(c2, ms)[|UnknownPrefix|..] == IntText(c2);
      IntTextInjective(c1, c2);
    }
  }

  /** `connected` and `isOff` agree with `statusText`: the text is
      "Connected!" exactly when connected and "Not connected." exactly when off. */
  lemma ProjectionsAgree(code: int, ms: int)
    ensures IsConnected(code) <==> StatusText(code, ms) == "Connected!"
    ensures IsOff(code) <==> StatusText(code, ms) == "Not connected."
    ensures !(IsConnected(code) && IsOff(code))
  {
    if StatusText(code, ms) == "Connected!" {
      StatusTextInjective(code, Connected, ms);
    }
    if StatusText(code, ms) == "Not connected." {
      StatusTextInjective(code, Off, ms);
    }
  }

  // ---------------------------------------------------------------------------
  // The support probe

  /** The parts of a parsed URL the clients read. */
  datatype Url = Url(protocol: string, host: string)

  /** `new URL(s)`: the parse, or None where the constructor throws. */
  type UrlParser = string -> Option<Url>

  predicate WebSocketScheme(u: Url) {
    u.protocol == "ws:" || u.protocol == "wss:"
  }

  /** The probe request: https exactly for a wss: URL, the same host, and the
      support path the servers answer on. */
  function ProbeUrl(u: Url): (r: string)
    ensures u.protocol == "wss:" ==> r == "https://" + u.host + SupportsPath
    ensures u.protocol != "wss:" ==> r == "http://" + u.host + SupportsPath
  {
    "http" + (if u.protocol == "wss:" then "s" else "") + "://" + u.host + SupportsPath
  }

  /** How the probe raced against the timeout: no response in time (or a
      network failure), or a response with its `ok` flag and its body as JSON
      (None when the body could not be read as JSON before the timeout). */
  datatype ProbeOutcome = NoResponse | Responded(ok: bool, body: Option<Json>)

  datatype ProbeSummary = ProbeSummary(supportsEpicalyx: bool, docs: Json, serverDoesRespond: bool)

  /** The probe's findings: a server responds when any response came; it
      supports Epicalyx when the response was ok and its body's `epicalyx` is
      "1.0", and then its `docs` are taken; otherwise docs stay empty. */
  function Probe(o: ProbeOutcome): (p: ProbeSummary)
    ensures p.supportsEpicalyx ==> p.serverDoesRespond
    ensures p.serverDoesRespond <==> o.Responded?
    ensures p.supportsEpicalyx <==>
      o.Responded? && o.ok && o.body.Some? && Field(o.body.value, "epicalyx") == JStr(Version)
    ensures p.supportsEpicalyx ==> p.docs == Field(o.body.value, "docs")
    ensures !p.supportsEpicalyx ==> p.docs == JStr("")
  {
    match o
    case NoResponse => ProbeSummary(false, JStr(""), false)
    case Responded(ok, body) =>
      if ok && body.Some? && Field(body.value, "epicalyx") == JStr(Version)
      then ProbeSummary(true, Field(body.value, "docs"), true)
      else ProbeSummary(false, JStr(""), true)
  }

  /** The status a finished probe leaves: -3 without a response, -4 with one
      but no support, 2 with support. */
  function ProbeStatus(p: ProbeSummary): (code: int)
    ensures code == -3 || code == -4 || code == 2
    ensures code == -3 <==> !p.serverDoesRespond
    ensures code == 2 <==> p.serverDoesRespond && p.supportsEpicalyx
  {
    if !p.serverDoesRespond then -3 else if !p.supportsEpicalyx then -4 else 2
  }

  /** A server's own support response makes the probe succeed. */
  lemma ProbeOfSupportsResponse(docs: Json)
    ensures var body := JObj(map["epicalyx" := JStr(Version), "docs" := docs]);
            var p := Probe(Responded(true, Some(body)));
            p.supportsEpicalyx && p.docs == docs && ProbeStatus(p) == 2
  {
  }

  const DefaultTimeout: int := 3000

  /** `retryTimeout || 3000`: an absent or zero delay falls back to 3000 ms. */
  function RetryDelay(retryTimeout: Option<int>): (ms: int)
    ensures ms != 0
    ensures retryTimeout.None? || retryTimeout.value == 0 ==> ms == DefaultTimeout
    ensures retryTimeout.Some? && retryTimeout.value != 0 ==> ms == retryTimeout.value
  {
    if retryTimeout.None? || retryTimeout.value == 0 then DefaultTimeout else retryTimeout.value
  }
}
