/** The values `json.loads` produces and the few Python built-ins the core
    applies to them: truthiness, `dict.get`, the `in` operator, `float()` and
    `str()`.  Parsing itself is not modelled: a JSON text is turned into a
    value by an oracle whose answer is a `Parsed`. */
module PyJson {
  import opened PyStr

  datatype Option<+T> = None | Some(value: T)

  /** A JSON value; numbers are kept as exact reals. */
  datatype Json =
    | JNull
    | JBool(b: bool)
    | JNum(n: real)
    | JStr(s: string)
    | JArr(items: seq<Json>)
    | JObj(fields: map<string, Json>)

  /** What `json.loads(text)` gives: a value, or a raised `JSONDecodeError`. */
  datatype Parsed = Parsed(value: Json) | DecodeError

  /** Python's `bool(v)`: `None`, `False`, zero, and empty texts, lists and dicts are false. */
  predicate Truthy(v: Json) {
    match v
    case JNull => false
    case JBool(b) => b
    case JNum(n) => n != 0.0
    case JStr(s) => s != ""
    case JArr(items) => items != []
    case JObj(fields) => fields != map[]
  }

  /** Python's `not s` for a value that is a text or `None`. */
  predicate Blank(s: Option<string>) {
    s == None || s == Some("")
  }

  /** `d.get(key, default)` on a dict. */
  function GetOr(fields: map<string, Json>, key: string, default: Json): (v: Json)
    ensures key in fields ==> v == fields[key]
    ensures key !in fields ==> v == default
  {
    if key in fields then fields[key] else default
  }

  /** `key in container` for a text key: membership of a dict's keys, equality
      with an element of a list, a substring of a text; `None` stands for the
      `TypeError` Python raises for any other container. */
  function In(key: string, container: Json): (r: Option<bool>)
    ensures r.None? <==> !(container.JObj? || container.JArr? || container.JStr?)
    ensures container.JObj? ==> r == Some(key in container.fields)
  {
    match container
    case JObj(fields) => Some(key in fields)
    case JArr(items) => Some(JStr(key) in items)
    case JStr(s) => Some(Contains(s, key))
    case _ => None
  }

  /** What `float(v)` does. */
  datatype Conversion = Converted(x: real) | ValueError | TypeError

  /** `float(v)`: numbers convert, `True`/`False` become 1.0/0.0, a text
      converts when `parseFloat` (Python's numeric-literal reader, an oracle
      here) accepts it and raises `ValueError` otherwise; `None`, lists and
      dicts raise `TypeError`. */
  function ToFloat(v: Json, parseFloat: string -> Option<real>): (c: Conversion)
    ensures c.TypeError? <==> (v.JNull? || v.JArr? || v.JObj?)
    ensures c.ValueError? <==> (v.JStr? && parseFloat(v.s).None?)
    ensures v.JNum? ==> c == Converted(v.n)
  {
    match v
    case JNum(n) => Converted(n)
    case JBool(b) => Converted(if b then 1.0 else 0.0)
    case JStr(s) => if parseFloat(s).Some? then Converted(parseFloat(s).value) else ValueError
    case _ => TypeError
  }

  /** Python's `str(v)`: a text is itself and the constants have fixed
      spellings; numbers, lists and dicts are rendered by `render`, which
      stands for Python's `repr` of them. */
  function Str(v: Json, render: Json -> string): (r: string)
    ensures v.JStr? ==> r == v.s
  {
    match v
    case JStr(s) => s
    case JNull => "None"
    case JBool(b) => if b then "True" else "False"
    case _ => render(v)
  }

  /** A value Python can use as a dict key (lists and dicts are unhashable). */
  predicate Hashable(v: Json) {
    !(v.JArr? || v.JObj?)
  }

  function Strs(items: seq<string>): (r: seq<Json>)
    ensures |r| == |items| && forall k :: 0 <= k < |items| ==> r[k] == JStr(items[k])
  {
    if items == [] then [] else [JStr(items[0])] + Strs(items[1..])
  }
}
