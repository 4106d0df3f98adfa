/** The JavaScript values the engine inspects: cells of parsed CSV rows, the
    optional strings of request bodies, and the truthiness tests and `||`
    chains the source applies to them. */
module Values {

  datatype Option<+T> = None | Some(value: T)

  /** A JavaScript number: a finite value or NaN (infinities are not modelled). */
  datatype JsNumber = Finite(r: real) | NaN

  /** A cell of a parsed row, by its `typeof`: booleans and objects are kept
      apart from numbers and strings only because their truthiness differs. */
  datatype Value = Num(n: JsNumber) | Str(s: string) | Bool(b: bool) | Null | Undefined | Other

  /** A parsed row, `Record<string, any>`. */
  type Row = map<string, Value>

  /** `row[key]`: a key the row lacks reads as `undefined`. */
  function Get(row: Row, key: string): Value
  {
    if key in row then row[key] else Undefined
  }

  /** JavaScript truthiness of a cell. */
  predicate Truthy(v: Value)
  {
    match v
    case Num(n) => n.Finite? && n.r != 0.0
    case Str(s) => s != ""
    case Bool(b) => b
    case Null => false
    case Undefined => false
    case Other => true
  }

  /** Truthiness of a string-or-undefined such as `userFeedback` or `headers[1]`. */
  predicate Present(o: Option<string>)
  {
    o.Some? && o.value != ""
  }

  /** `s[i]`, which is `undefined` past the end. */
  function At(s: seq<string>, i: nat): (r: Option<string>)
    ensures r.Some? <==> i < |s|
    ensures r.Some? ==> r.value == s[i]
  {
    if i < |s| then Some(s[i]) else None
  }

  /** `a || b` on strings-or-undefined: `a` when truthy, otherwise `b`. */
  function Or(a: Option<string>, b: Option<string>): (r: Option<string>)
    ensures Present(a) ==> r == a
    ensures !Present(a) ==> r == b
  {
    if Present(a) then a else b
  }

  /** What `${o}` renders and what `row[o]` looks up: `undefined` becomes "undefined". */
  function ToJsString(o: Option<string>): string
  {
    match o
    case Some(s) => s
    case None => "undefined"
  }
}
