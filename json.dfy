/** Values that `JSON.parse` produces, and the few pieces of JavaScript
    semantics the node updater applies to them: truthiness, reading a
    property, the `||` operator and `Array.isArray`. */
module Json {

  /** `None` stands for JavaScript's `undefined` (a property that is not there). */
  datatype Option<T> = None | Some(value: T)

  /** A parsed JSON document. Numbers are the values after conversion to a
      JavaScript number; JSON text can never produce NaN. */
  datatype Json =
    | JNull
    | JBool(b: bool)
    | JNum(n: real)
    | JStr(s: string)
    | JArr(elems: seq<Json>)
    | JObj(fields: map<string, Json>)

  /** JavaScript truthiness: `null`, `false`, `0` and `""` are falsy; every
      array and every object is truthy, the empty ones included. */
  predicate Truthy(v: Json) {
    match v
    case JNull => false
    case JBool(b) => b
    case JNum(n) => n != 0.0
    case JStr(s) => s != ""
    case JArr(_) => true
    case JObj(_) => true
  }

  /** Truthiness of the outcome of a property read; `undefined` is falsy. */
  predicate TruthyRead(p: Option<Json>) {
    p.Some? && Truthy(p.value)
  }

  /** The property read `v.key` on a value that is neither `null` nor
      `undefined` (reading from `null` throws, and the caller handles that).
      Only an object has own properties with names chosen by the document.
      This is exact for names that no built-in prototype defines, which holds
      for the two names the updater reads, "nodes" and "failing_nodes". */
  function Get(v: Json, key: string): Option<Json>
    requires !v.JNull?
  {
    match v
    case JObj(fields) => if key in fields then Some(fields[key]) else None
    case _ => None
  }

  /** `Array.isArray(p)` for the outcome of a property read. Every array is
      truthy, so a guard `!p || !Array.isArray(p)` is decided by its second
      half alone. */
  predicate IsArray(p: Option<Json>): (b: bool)
    ensures b ==> TruthyRead(p)
  {
    p.Some? && p.value.JArr?
  }

  /** The value of `p || fallback`: the left operand when it is truthy, the
      right operand otherwise. */
  function Or(p: Option<Json>, fallback: Json): (r: Json)
    ensures TruthyRead(p) ==> Some(r) == p
    ensures !TruthyRead(p) ==> r == fallback
    ensures Truthy(r) <==> TruthyRead(p) || Truthy(fallback)
  {
    match p
    case Some(v) => if Truthy(v) then v else fallback
    case None => fallback
  }
}
