/** The part of JSON Schema Validation (draft 2020-12) the published input schemas use. */
module JsonSchema {
  import opened Json

  datatype SchemaType = TString | TInteger | TNumber | TBoolean

  /** An absent keyword is None. An object schema here always forbids additional properties;
   *  `oneOf` lists the names of its `oneOf: [{required: [name]}, ...]` branches. */
  datatype Schema =
    | Typed(t: SchemaType, minLength: Option<real>, maxLength: Option<int>, minimum: Option<real>, maximum: Option<real>)
    | Enum(values: seq<Json>)
    | Object(properties: map<string, Schema>, required: set<string>, oneOf: seq<string>)

  predicate IsNumber(v: Json) {
    v.JInt? || v.JReal?
  }

  function NumberOf(v: Json): real
    requires IsNumber(v)
  {
    if v.JInt? then v.i as real else v.r
  }

  /** Section 6.1.1: an integer is any number with a zero fractional part. */
  predicate Integral(v: Json) {
    v.JInt? || (v.JReal? && v.r == (v.r.Floor as real))
  }

  predicate HasType(t: SchemaType, v: Json) {
    match t
    case TString => v.JStr?
    case TInteger => Integral(v)
    case TNumber => IsNumber(v)
    case TBoolean => v.JBool?
  }

  /** JSON equality of the scalars an enumeration lists: numbers by value, and never a boolean. */
  predicate SameScalar(a: Json, b: Json) {
    if IsNumber(a) && IsNumber(b) then NumberOf(a) == NumberOf(b) else a == b
  }

  /** Sections 6.3 (strings) and 6.2 (numbers): each keyword constrains only its own type. */
  predicate WithinBounds(s: Schema, v: Json)
    requires s.Typed?
  {
    && (v.JStr? ==>
          && (s.minLength.Some? ==> |v.s| as real >= s.minLength.value)
          && (s.maxLength.Some? ==> |v.s| <= s.maxLength.value))
    && (IsNumber(v) ==>
          && (s.minimum.Some? ==> NumberOf(v) >= s.minimum.value)
          && (s.maximum.Some? ==> NumberOf(v) <= s.maximum.value))
  }

  predicate ExactlyOne(names: seq<string>, fields: map<string, Json>) {
    exists i | 0 <= i < |names| :: names[i] in fields && forall j | 0 <= j < |names| && j != i :: names[j] !in fields
  }

  /** Whether an instance is valid against a schema. */
  predicate Conforms(s: Schema, v: Json)
    decreases s
  {
    match s
    case Typed(t, _, _, _, _) => HasType(t, v) && WithinBounds(s, v)
    case Enum(values) => exists x | x in values :: SameScalar(x, v)
    case Object(properties, required, oneOf) =>
      && v.JObj?
      && required <= v.fields.Keys
      && v.fields.Keys <= properties.Keys
      && (forall k | k in properties && k in v.fields :: Conforms(properties[k], v.fields[k]))
      && (oneOf == [] || ExactlyOne(oneOf, v.fields))
  }
}
