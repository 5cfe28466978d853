/**
 Decoded JSON as Python sees it after `response.json()`: the values the
 ingestion code reads with `dict.get`, tests for truthiness and hands to
 `int()`, and the exceptions those operations raise.
 */
module Py {
  import opened Wrappers

  /** A decoded JSON value. JSON numbers with a fraction part are not modelled. */
  datatype Json =
    | Null
    | Bool(b: bool)
    | Int(i: int)
    | Str(s: string)
    | Arr(items: seq<Json>)
    | Obj(fields: map<string, Json>)

  /** The exceptions that can escape a reconciliation run. */
  datatype PyError =
    | TypeError            // an operation applied to a value of the wrong kind
    | AttributeError       // `.get` on something that is not a dict
    | ValueError           // `int()` rejected a string
    | NotNullViolation(column: string)  // the store refused a NULL in a required column

  /** `d.get(key)`: the stored value, or `None` when the key is absent. */
  function Get(d: map<string, Json>, key: string): (r: Option<Json>)
    ensures r.Some? <==> key in d
    ensures r.Some? ==> r.value == d[key]
  {
    if key in d then Some(d[key]) else None
  }

  /** `d.get(key, default)`. */
  function GetOr(d: map<string, Json>, key: string, default: Json): (r: Json)
    ensures key in d ==> r == d[key]
    ensures key !in d ==> r == default
  {
    if key in d then d[key] else default
  }

  /** Python truthiness: `None`, `False`, `0`, `""`, `[]` and `{}` are false. */
  predicate Truthy(v: Json) {
    match v
    case Null => false
    case Bool(b) => b
    case Int(i) => i != 0
    case Str(s) => s != ""
    case Arr(items) => items != []
    case Obj(fields) => fields != map[]
  }

  /** A value a text column can take as it is: a string, or `None`. */
  predicate IsText(v: Option<Json>) {
    v.None? || v.value.Null? || v.value.Str?
  }

  /** The column value of a text field: `None` for an absent or null field. */
  function Text(v: Option<Json>): (r: Option<string>)
    requires IsText(v)
    ensures r.Some? <==> v.Some? && v.value.Str?
    ensures r.Some? ==> v.value == Str(r.value)
  {
    if v.Some? && v.value.Str? then Some(v.value.s) else None
  }

  /**
   The fields named in `keys` of a record are strings or null wherever present.
   Anything that is not a dict is left to the ingestion code's own error path.
   */
  predicate TextFields(item: Json, keys: set<string>) {
    item.Obj? ==> forall k :: k in keys && k in item.fields ==> IsText(Some(item.fields[k]))
  }
}
