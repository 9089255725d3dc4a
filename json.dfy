/** Decoded JSON documents, with the Python semantics the weather clients
    rely on: truthiness, `d[key]`, `l[0]`, iteration and numeric equality. */
module Json {
  import opened Errors

  /** A document as `json.load` returns it. Numbers are reals, so that an
      integer and a float with the same value are the same number, as they
      are for Python's `==`. */
  datatype Json =
    | JNull
    | JBool(b: bool)
    | JNumber(n: real)
    | JString(s: string)
    | JArray(items: seq<Json>)
    | JObject(fields: map<string, Json>)

  /** Python's truth value of a decoded document: `None`, `False`, `0`, `""`,
      `[]` and `{}` are false, everything else is true. */
  predicate Truthy(j: Json) {
    match j
    case JNull => false
    case JBool(b) => b
    case JNumber(n) => n != 0.0
    case JString(s) => s != ""
    case JArray(a) => a != []
    case JObject(m) => m != map[]
  }

  /** `j[key]` with a string key: a dictionary yields the value or raises
      `KeyError`; any other value raises `TypeError`. */
  function Get(j: Json, key: string): (r: Result<Json>)
    ensures r.Ok? <==> j.JObject? && key in j.fields
    ensures r.Ok? ==> r.value == j.fields[key]
    ensures r.Err? ==> r.error == (if j.JObject? then KeyError else TypeError)
  {
    match j
    case JObject(m) => if key in m then Ok(m[key]) else Err(KeyError)
    case _ => Err(TypeError)
  }

  /** `j[i]` with a non-negative integer index: a list or a string yields the
      element (a string's element is a one-character string) or raises
      `IndexError`; a dictionary raises `KeyError`, because JSON keys are
      strings; anything else raises `TypeError`. */
  function Index(j: Json, i: nat): (r: Result<Json>)
    ensures r.Ok? <==> (j.JArray? && i < |j.items|) || (j.JString? && i < |j.s|)
    ensures r.Ok? && j.JArray? ==> r.value == j.items[i]
    ensures r.Err? && (j.JArray? || j.JString?) ==> r.error == IndexError
    ensures r.Err? && j.JObject? ==> r.error == KeyError
    ensures r.Err? && !(j.JArray? || j.JString? || j.JObject?) ==> r.error == TypeError
  {
    match j
    case JArray(a) => if i < |a| then Ok(a[i]) else Err(IndexError)
    case JString(s) => if i < |s| then Ok(JString([s[i]])) else Err(IndexError)
    case JObject(_) => Err(KeyError)
    case _ => Err(TypeError)
  }

  /** The number a value stands for in `==`, `in (...)` and
      `datetime.fromtimestamp`: `bool` is a subclass of `int` in Python. */
  function AsNumber(j: Json): (r: Option<real>)
    ensures r.Some? <==> j.JNumber? || j.JBool?
    ensures j.JNumber? ==> r == Some(j.n)
  {
    match j
    case JNumber(n) => Some(n)
    case JBool(b) => Some(if b then 1.0 else 0.0)
    case _ => None
  }

  /** Python's `j == n` for a number `n`. */
  predicate EqualsNumber(j: Json, n: real) {
    AsNumber(j) == Some(n)
  }

  /** The items a `for item in j` loop sees, for loop bodies whose first step
      subscripts `item` with a string key. A list yields its elements and a
      string its characters. A non-empty dictionary yields its keys, which
      are strings, so the body's first subscript raises `TypeError`; the
      model raises it here, because the key order does not matter. Numbers,
      booleans and `None` are not iterable (`TypeError`). */
  function Elements(j: Json): (r: Result<seq<Json>>)
    ensures j.JArray? ==> r == Ok(j.items)
    ensures r.Ok? && j.JString? ==> |r.value| == |j.s|
    ensures r.Ok? <==> j.JArray? || j.JString? || j == JObject(map[])
    ensures r.Err? ==> r.error == TypeError
  {
    match j
    case JArray(a) => Ok(a)
    case JString(s) => Ok(seq(|s|, i requires 0 <= i < |s| => JString([s[i]])))
    case JObject(m) => if m == map[] then Ok([]) else Err(TypeError)
    case _ => Err(TypeError)
  }

  /** `d[key] = v` on a dictionary; the weather code only does this on a
      value it has just subscripted successfully. */
  function Set(j: Json, key: string, v: Json): (r: Json)
    requires j.JObject?
    ensures r.JObject? && r.fields.Keys == j.fields.Keys + {key}
    ensures r.fields[key] == v
    ensures forall k :: k in j.fields && k != key ==> r.fields[k] == j.fields[k]
  {
    JObject(j.fields[key := v])
  }
}
