/** The JSON values the tools exchange with the upstream task service, together
    with the few pieces of Python semantics the tools apply to them: truthiness,
    `dict.get`, what a `for` loop over a value iterates, and the exceptions that
    can escape. */
module Json {

  /** A decoded JSON document. Floating-point numbers are not modelled. */
  datatype Value =
    | Null
    | Bool(b: bool)
    | Int(i: int)
    | Str(s: string)
    | Arr(elems: seq<Value>)
    | Obj(fields: map<string, Value>)

  /** Python truthiness of the decoded value (`None`, `False`, `0`, `""`,
      `[]` and `{}` are false). */
  predicate Truthy(v: Value) {
    match v
    case Null => false
    case Bool(b) => b
    case Int(i) => i != 0
    case Str(s) => s != ""
    case Arr(xs) => xs != []
    case Obj(m) => m != map[]
  }

  /** `d.get(key)`: the value under `key`, or `None` when the key is absent. */
  function Get(d: map<string, Value>, key: string): (v: Value)
    ensures key !in d ==> v == Null
    ensures key in d ==> v == d[key]
  {
    if key in d then d[key] else Null
  }

  /** `d.get(key, default)`: the value under `key`, or `default` when the
      key is absent. A key present with a `null` value gives `null`, not
      the default. */
  function GetOr(d: map<string, Value>, key: string, default: Value): (v: Value)
    ensures key !in d ==> v == default
    ensures key in d ==> v == d[key] && v == Get(d, key)
  {
    if key in d then d[key] else default
  }

  /** The exceptions that can escape a tool invocation. */
  datatype Fault =
    | Transport        // the HTTP call raised, or its body was not JSON
    | KeyError(key: string)
    | TypeError
    | AttributeError
    | OverflowError    // a date converted outside `datetime`'s range
    | ZoneNotFound     // `ZoneInfo` rejects the name: ZoneInfoNotFoundError for an
                       // unknown key, ValueError for a malformed one (`""`, `"/UTC"`)

  /** What `for x in v` does with a decoded value: a list yields its elements,
      a string or a dict yields strings (its characters or its keys), and
      anything else raises `TypeError` before the first iteration. */
  datatype Iteration = Elements(items: seq<Value>) | Strings(count: nat) | NotIterable

  function Iterate(v: Value): (it: Iteration)
    ensures it.Elements? <==> v.Arr?
    ensures v.Arr? ==> it.items == v.elems
    ensures v.Str? ==> it == Strings(|v.s|)
    ensures v.Obj? ==> it == Strings(|v.fields|)
    ensures it.NotIterable? <==> (v.Null? || v.Bool? || v.Int?)
    ensures it.Strings? ==> (it.count == 0 <==> !Truthy(v))
  {
    match v
    case Arr(xs) => Elements(xs)
    case Str(s) => Strings(|s|)
    case Obj(m) => Strings(|m|)
    case _ => NotIterable
  }
}
