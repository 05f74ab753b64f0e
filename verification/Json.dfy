/** JSON values as the pool passes them around, and the two ways Python looks at them. */
module Json {

  datatype Option<+T> = None | Some(value: T)

  datatype Result<+T, +E> = Ok(value: T) | Err(error: E)

  /** `JInt` and `JReal` are kept apart because Python tells an `int` from a `float`. */
  datatype Json =
    | JNull
    | JBool(b: bool)
    | JInt(i: int)
    | JReal(r: real)
    | JStr(s: string)
    | JArr(items: seq<Json>)
    | JObj(fields: map<string, Json>)

  /** Python's `dict.get(key)`: an absent key reads as None. */
  function Get(fields: map<string, Json>, key: string): Json {
    if key in fields then fields[key] else JNull
  }

  /** A bool is a number to Python's `==`. */
  function Numeric(v: Json): Option<real> {
    match v
    case JBool(b) => Some(if b then 1.0 else 0.0)
    case JInt(i) => Some(i as real)
    case JReal(r) => Some(r)
    case _ => None
  }

  /** Python's `==`: numbers compare by value across types, containers elementwise. */
  predicate PyEq(a: Json, b: Json)
    decreases a
  {
    if Numeric(a).Some? || Numeric(b).Some? then
      Numeric(a) == Numeric(b)
    else
      match a
      case JNull => b.JNull?
      case JStr(s) => b == a
      case JArr(xs) => b.JArr? && |xs| == |b.items| && forall i | 0 <= i < |xs| :: PyEq(xs[i], b.items[i])
      case JObj(m) => b.JObj? && m.Keys == b.fields.Keys && forall k | k in m :: PyEq(m[k], b.fields[k])
  }

  lemma {:induction false} PyEqReflexive(a: Json)
    ensures PyEq(a, a)
  {
    match a
    case JArr(xs) =>
      forall i | 0 <= i < |xs| ensures PyEq(xs[i], xs[i]) {
        PyEqReflexive(xs[i]);
      }
    case JObj(m) =>
      forall k | k in m ensures PyEq(m[k], m[k]) {
        PyEqReflexive(m[k]);
      }
    case _ =>
  }

  predicate PyEqFields(a: map<string, Json>, b: map<string, Json>) {
    PyEq(JObj(a), JObj(b))
  }

  /** Python's truth value of a decoded JSON value. */
  predicate Truthy(v: Json) {
    match v
    case JNull => false
    case JBool(b) => b
    case JInt(i) => i != 0
    case JReal(r) => r != 0.0
    case JStr(s) => s != ""
    case JArr(xs) => xs != []
    case JObj(m) => |m| != 0
  }
}
