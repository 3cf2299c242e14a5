/** JSON values as the protocol's peers see them after JSON.parse, with the few
    JavaScript operations the engines apply to them: truthiness and property
    access. */
module Json {

  datatype Option<+T> = None | Some(value: T)

  /** A parsed JSON value. Numbers are modelled as integers. */
  datatype Json =
    | JNull
    | JBool(b: bool)
    | JNum(n: int)
    | JStr(s: string)
    | JArr(items: seq<Json>)
    | JObj(fields: map<string, Json>)

  /** JavaScript truthiness: null, false, 0 and "" are falsy, everything else is truthy. */
  predicate Truthy(j: Json) {
    match j
    case JNull => false
    case JBool(b) => b
    case JNum(n) => n != 0
    case JStr(s) => s != ""
    case JArr(_) => true
    case JObj(_) => true
  }

  /** Property access `j.k`. A missing property (undefined) reads as null;
      only objects have properties of interest here. */
  function Field(j: Json, k: string): Json {
    if j.JObj? && k in j.fields then j.fields[k] else JNull
  }

  /** `typeof j === 'string'`. */
  predicate IsString(j: Json) {
    j.JStr?
  }

  /** An optional value as a sequence of zero or one elements. */
  function OptionSeq<T>(o: Option<T>): (r: seq<T>)
    ensures o.None? ==> r == []
    ensures o.Some? ==> r == [o.value]
  {
    if o.Some? then [o.value] else []
  }

  /** `s.startsWith('/')`. */
  predicate StartsWithSlash(s: string) {
    |s| > 0 && s[0] == '/'
  }
}
