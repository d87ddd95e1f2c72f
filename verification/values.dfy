/**
 Values exchanged with the outside world: the JSON documents that requests,
 webhooks and the document store carry, and the two failure-compatible
 wrappers used throughout the model (`Option` for "absent", `Res` for a
 Python exception that escapes the modelled code).
 */
module Values {
  import opened Text

  datatype Option<+T> = None | Some(value: T) {
    predicate IsFailure() { None? }

    function PropagateFailure<U>(): Option<U>
      requires None?
    {
      None
    }

    function Extract(): T
      requires Some?
    {
      value
    }

    function GetOr(default: T): T {
      if Some? then value else default
    }
  }

  /** The outcome of Python code that may raise: `Raise` carries the exception text. */
  datatype Res<+T> = Ok(value: T) | Raise(reason: string) {
    predicate IsFailure() { Raise? }

    function PropagateFailure<U>(): Res<U>
      requires Raise?
    {
      Raise(reason)
    }

    function Extract(): T
      requires Ok?
    {
      value
    }
  }

  /**
   A decoded JSON value or stored document field. `JTime` is a timestamp
   the store keeps as a datetime (seconds on an abstract clock); floating
   point numbers are not modelled.
   */
  datatype Json =
    | JNull
    | JBool(b: bool)
    | JInt(i: int)
    | JStr(s: string)
    | JArr(items: seq<Json>)
    | JObj(fields: map<string, Json>)
    | JTime(stamp: int)

  type Doc = map<string, Json>

  const EmptyObj: Json := JObj(map[])

  /** Python truthiness of a decoded JSON value. */
  predicate Truthy(j: Json) {
    match j
    case JNull => false
    case JBool(b) => b
    case JInt(i) => i != 0
    case JStr(s) => s != ""
    case JArr(items) => |items| > 0
    case JObj(fields) => |fields| > 0
    case JTime(_) => true
  }

  /** `d.get(key, default)` on a dictionary. */
  function GetOr(d: Doc, key: string, default: Json): (r: Json)
    ensures key in d ==> r == d[key]
    ensures key !in d ==> r == default
  {
    if key in d then d[key] else default
  }

  /** The dictionary holds `value` under `key`. */
  predicate Holds(d: Doc, key: string, value: Json) {
    key in d && d[key] == value
  }

  /** The exception `x.get(...)` raises when `x` is not a dictionary. */
  const NoGet := "AttributeError: object has no attribute 'get'"

  /** `j.get(key, default)` where `j` may not be a dictionary (then Python raises). */
  function Field(j: Json, key: string, default: Json): (r: Res<Json>)
    ensures r.Ok? <==> j.JObj?
    ensures r.Ok? ==> r.value == GetOr(j.fields, key, default)
  {
    if j.JObj? then Ok(GetOr(j.fields, key, default)) else Raise(NoGet)
  }

  /** Python's `a or b`. */
  function Or(a: Json, b: Json): (r: Json)
    ensures Truthy(a) ==> r == a
    ensures !Truthy(a) ==> r == b
  {
    if Truthy(a) then a else b
  }

  /** The numeric value of a JSON number; `bool` counts as 0/1, as in Python. */
  function AsNumber(j: Json): Option<int> {
    match j
    case JInt(i) => Some(i)
    case JBool(b) => Some(if b then 1 else 0)
    case _ => None
  }

  /** Python's `a + b` on decoded JSON values: numbers add, strings and lists concatenate. */
  function Add(a: Json, b: Json): (r: Res<Json>)
    ensures AsNumber(a).Some? && AsNumber(b).Some? ==> r == Ok(JInt(AsNumber(a).value + AsNumber(b).value))
    ensures a.JStr? && b.JStr? ==> r == Ok(JStr(a.s + b.s))
    ensures r.Ok? <==> (AsNumber(a).Some? && AsNumber(b).Some?) || (a.JStr? && b.JStr?) || (a.JArr? && b.JArr?)
  {
    if AsNumber(a).Some? && AsNumber(b).Some? then Ok(JInt(AsNumber(a).value + AsNumber(b).value))
    else if a.JStr? && b.JStr? then Ok(JStr(a.s + b.s))
    else if a.JArr? && b.JArr? then Ok(JArr(a.items + b.items))
    else Raise("TypeError: unsupported operand type(s) for +")
  }

  /** `value[:n]`: strings and lists are cut to at most `n` entries; anything else cannot be sliced. */
  function Prefix(value: Json, n: nat): (r: Res<Json>)
    ensures r.Ok? <==> value.JStr? || value.JArr?
    ensures value.JStr? ==> r == Ok(JStr(Take(value.s, n)))
    ensures value.JArr? ==> r == Ok(JArr(Take(value.items, n)))
  {
    match value
    case JStr(s) => Ok(JStr(Take(s, n)))
    case JArr(items) => Ok(JArr(Take(items, n)))
    case _ => Raise("TypeError: object is not subscriptable")
  }

  /** Python's `len(j)`; defined for strings, lists and dictionaries only. */
  function Len(j: Json): (r: Res<nat>)
    ensures j.JStr? ==> r == Ok(|j.s|)
    ensures j.JArr? ==> r == Ok(|j.items|)
    ensures r.Ok? <==> j.JStr? || j.JArr? || j.JObj?
  {
    match j
    case JStr(s) => Ok(|s|)
    case JArr(items) => Ok(|items|)
    case JObj(fields) => Ok(|fields|)
    case _ => Raise("TypeError: object has no len()")
  }

  /** `j[0]`: the first entry of a list or the first character of a string; dictionaries have no key 0. */
  function First(j: Json): (r: Res<Json>)
    ensures r.Ok? <==> (j.JArr? && |j.items| > 0) || (j.JStr? && |j.s| > 0)
    ensures j.JArr? && |j.items| > 0 ==> r == Ok(j.items[0])
    ensures j.JStr? && |j.s| > 0 ==> r == Ok(JStr([j.s[0]]))
  {
    match j
    case JArr(items) => if |items| > 0 then Ok(items[0]) else Raise("IndexError: list index out of range")
    case JStr(s) => if |s| > 0 then Ok(JStr([s[0]])) else Raise("IndexError: string index out of range")
    case JObj(_) => Raise("KeyError: 0")
    case _ => Raise("TypeError: object is not subscriptable")
  }

  /** `j[key]` on a dictionary: a missing key raises `KeyError`. */
  function Subscript(j: Json, key: string): (r: Res<Json>)
    ensures r.Ok? <==> j.JObj? && key in j.fields
    ensures r.Ok? ==> r.value == j.fields[key]
  {
    if j.JObj? && key in j.fields then Ok(j.fields[key]) else Raise("KeyError: " + key)
  }
}
