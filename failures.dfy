/** What both server engines share: the two library functions they call
    (path matching and JSON validation) and how they turn a failed method call into the `error` of a
    `method-res`: the thrown value's code is kept when it is a non-empty
    string and is INTERNAL_ERROR otherwise, and an internal error never shows
    its own message on the wire. A failed parameter validation is thrown as a
    USER_FAULT carrying the first violation. */
module Failures {
  import opened Json
  import opened Wire

  const InternalError: string := "INTERNAL_ERROR"
  const UserFault: string := "USER_FAULT"
  const MethodNotFound: string := "METHOD_NOT_FOUND"

  /** The only message an INTERNAL_ERROR carries over the wire. */
  const InternalMessage: string := "Internal server error"

  /** A thrown value. Any value other than null or undefined is seen through
      its `code` and `message` properties (absent ones read as null); `throw
      null` and `throw undefined` have no properties to read. */
  datatype Thrown = Thrown(code: Json, message: Json) | ThrownNullish

  /** What a method handler did: returned a value (undefined reads as null) or threw. */
  datatype Outcome = Returned(value: Json) | Threw(error: Thrown)

  /** One violation reported by the JSON validator: its message and its JSON-pointer path. */
  datatype Violation = Violation(message: string, path: string)

  /** The validator's verdict: `{ok: true}` or `{ok: false, errors}`. */
  datatype Validation = Valid | Invalid(errors: seq<Violation>)

  /** `validateJson(descriptor, value)`, supplied by the validation library. */
  type Validator = (Json, Json) -> Validation

  type Params = map<string, string>

  /** What `matchPath` yields on a match: the named path parameters and the query. */
  datatype MatchResult = MatchResult(params: Params, query: map<string, string>)

  /** `matchPath(pattern, path)`, supplied by the path-matching library. */
  type Matcher = (string, string) -> Option<MatchResult>

  /** The TypeError raised when `res.errors[0].message` is read from an empty error list. */
  const EmptyErrorsTypeError: Thrown := Thrown(JNull, JStr("Cannot read properties of undefined (reading 'message')"))

  /** The code `e.code && typeof e.code === 'string' ? e.code : 'INTERNAL_ERROR'`. */
  predicate HasOwnCode(e: Thrown) {
    e.Thrown? && Truthy(e.code) && IsString(e.code)
  }

  /** The wire error the catch block builds for a thrown value. There is none
      for null or undefined: reading `e.code` throws inside the catch block, so
      nothing is sent and no observer is called. */
  function ErrorReply(e: Thrown): (r: Option<ResError>)
    ensures r.None? <==> e.ThrownNullish?
    ensures r.Some? ==> r.value.code != ""
    ensures r.Some? && HasOwnCode(e) ==> r.value.code == e.code.s
    ensures r.Some? && !HasOwnCode(e) ==> r.value.code == InternalError
    ensures r.Some? && r.value.code == InternalError ==> r.value.message == JStr(InternalMessage)
    ensures r.Some? && r.value.code != InternalError ==> r.value.message == e.message
  {
    if e.ThrownNullish? then None
    else
      var code := if HasOwnCode(e) then e.code.s else InternalError;
      Some(ResError(code, if code == InternalError then JStr(InternalMessage) else e.message))
  }

  /** A thrown value's message reaches the wire, whatever JSON it is, exactly
      when its code is its own non-empty string other than INTERNAL_ERROR. */
  lemma MessageRedaction(e: Thrown)
    ensures ErrorReply(e).Some? <==> e.Thrown?
    ensures e.Thrown? ==>
      (ErrorReply(e).value.message == e.message || ErrorReply(e).value.message == JStr(InternalMessage)) &&
      (ErrorReply(e).value.code != InternalError <==> HasOwnCode(e) && e.code.s != InternalError)
  {
  }

  /** The message of a USER_FAULT: the violation's message, followed by
      `\n\tat '<path>'` only when the path is not empty. */
  function FaultMessage(v: Violation): (m: string)
    ensures |m| >= |v.message| && m[..|v.message|] == v.message
    ensures m == v.message <==> v.path == ""
    ensures v.path != "" ==> m == v.message + "\n\tat '" + v.path + "'"
  {
    v.message + if |v.path| > 0 then "\n\tat '" + v.path + "'" else ""
  }

  /** What `validateParams` throws for a verdict, if anything. */
  function ValidationFailure(v: Validation): (t: Option<Thrown>)
    ensures t.None? <==> v.Valid?
    ensures v.Invalid? && |v.errors| > 0 ==> t == Some(Thrown(JStr(UserFault), JStr(FaultMessage(v.errors[0]))))
    ensures v.Invalid? && |v.errors| == 0 ==> t == Some(EmptyErrorsTypeError)
  {
    match v
    case Valid => None
    case Invalid(errs) =>
      if |errs| > 0 then Some(Thrown(JStr(UserFault), JStr(FaultMessage(errs[0])))) else Some(EmptyErrorsTypeError)
  }

  /** A validation failure with at least one violation reaches the wire as a
      USER_FAULT with the first violation's message; with none, the TypeError
      it raises reaches the wire as an INTERNAL_ERROR. */
  lemma ValidationReply(v: Validation)
    requires v.Invalid?
    ensures |v.errors| > 0 ==> ErrorReply(ValidationFailure(v).value) == Some(ResError(UserFault, JStr(FaultMessage(v.errors[0]))))
    ensures |v.errors| == 0 ==> ErrorReply(ValidationFailure(v).value) == Some(ResError(InternalError, JStr(InternalMessage)))
  {
  }
}
