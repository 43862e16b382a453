/** Decoded JSON values as the Python script sees them, and the few Python
    operations the script applies to them (`in`, `[...]`, `.get`, `.items()`,
    iteration, `[0]`, `[-1]`, truthiness). Each operation either yields a value
    or raises; which exception it raises is recorded, although every exception
    raised inside `fetch_metric` ends in the same way (the fetch gives no data). */
module PyJson {

  datatype Option<T> = None | Some(value: T) {
    function GetOr(default: T): T {
      match this
      case Some(v) => v
      case None => default
    }
  }

  /** The Python exceptions the script's dictionary and list accesses can raise. */
  datatype Exception = KeyError | IndexError | TypeError | AttributeError

  datatype Result<T> = Ok(value: T) | Raise(exc: Exception) {
    predicate IsFailure() { Raise? }
    function PropagateFailure<U>(): Result<U> requires Raise? { Raise(exc) }
    function Extract(): T requires Ok? { value }
  }

  /** A decoded JSON document. Objects keep their keys in document order,
      as a Python dict built by `json` does; `null` is Python's `None`. */
  datatype Json =
    | JNull
    | JBool(b: bool)
    | JNum(n: real)
    | JStr(s: string)
    | JArr(items: seq<Json>)
    | JObj(fields: seq<(string, Json)>)

  /** Where the first binding of `k` is; `|fields|` when there is none. */
  function KeyIndex(fields: seq<(string, Json)>, k: string): (i: nat)
    ensures i <= |fields|
    ensures i < |fields| ==> fields[i].0 == k
    ensures forall j :: 0 <= j < i ==> fields[j].0 != k
  {
    if fields == [] || fields[0].0 == k then 0 else 1 + KeyIndex(fields[1..], k)
  }

  /** The value bound to `k` (the first binding, the only one in a dict). */
  function Lookup(fields: seq<(string, Json)>, k: string): (r: Option<Json>)
    ensures r == if KeyIndex(fields, k) < |fields| then Some(fields[KeyIndex(fields, k)].1) else None
  {
    if fields == [] then None
    else if fields[0].0 == k then Some(fields[0].1)
    else Lookup(fields[1..], k)
  }

  /** Python truthiness: `None`, `False`, zero, and empty strings, lists and
      dicts are false. */
  predicate Truthy(j: Json) {
    match j
    case JNull => false
    case JBool(b) => b
    case JNum(n) => n != 0.0
    case JStr(s) => s != ""
    case JArr(a) => a != []
    case JObj(f) => f != []
  }

  predicate IsSubstring(k: string, s: string) {
    k <= s || (s != [] && IsSubstring(k, s[1..]))
  }

  /** `key in j`: a key test on a dict, a membership test on a list, a
      substring test on a string, and a TypeError on anything else. */
  function Contains(key: string, j: Json): (r: Result<bool>)
    ensures j.JObj? ==> r == Ok(Lookup(j.fields, key).Some?)
    ensures j.JArr? ==> r == Ok(JStr(key) in j.items)
    ensures j.JStr? ==> r == Ok(IsSubstring(key, j.s))
    ensures r.Raise? <==> !(j.JObj? || j.JArr? || j.JStr?)
  {
    match j
    case JObj(f) => Ok(Lookup(f, key).Some?)
    case JArr(a) => Ok(JStr(key) in a)
    case JStr(s) => Ok(IsSubstring(key, s))
    case _ => Raise(TypeError)
  }

  /** `j[key]` with a string key: only a dict holding the key answers; a dict
      without it raises KeyError, lists and strings refuse string indices and
      scalars are not subscriptable. */
  function Index(j: Json, key: string): (r: Result<Json>)
    ensures r.Ok? <==> j.JObj? && Lookup(j.fields, key).Some?
    ensures r.Ok? ==> r.value == Lookup(j.fields, key).value
  {
    match j
    case JObj(f) =>
      (match Lookup(f, key)
       case Some(v) => Ok(v)
       case None => Raise(KeyError))
    case _ => Raise(TypeError)
  }

  /** `j.get(key, default)`: only dicts have `get`. */
  function Get(j: Json, key: string, default: Json): (r: Result<Json>)
    ensures r.Ok? <==> j.JObj?
    ensures r.Ok? && Lookup(j.fields, key).None? ==> r.value == default
    ensures r.Ok? && Lookup(j.fields, key).Some? ==> r.value == Lookup(j.fields, key).value
  {
    match j
    case JObj(f) => Ok(Lookup(f, key).GetOr(default))
    case _ => Raise(AttributeError)
  }

  /** `j.items()`: only dicts have `items`. */
  function Items(j: Json): (r: Result<seq<(string, Json)>>)
    ensures r.Ok? <==> j.JObj?
    ensures r.Ok? ==> r.value == j.fields
  {
    match j
    case JObj(f) => Ok(f)
    case _ => Raise(AttributeError)
  }

  /** What `for x in j` visits: the elements of a list, the keys of a dict,
      the one-character strings of a string; other values are not iterable. */
  function Iterate(j: Json): (r: Result<seq<Json>>)
    ensures r.Ok? <==> j.JArr? || j.JObj? || j.JStr?
    ensures j.JArr? ==> r == Ok(j.items)
    ensures r.Ok? && j.JObj? ==>
      |r.value| == |j.fields| && forall i :: 0 <= i < |j.fields| ==> r.value[i] == JStr(j.fields[i].0)
    ensures r.Ok? && j.JStr? ==>
      |r.value| == |j.s| && forall i :: 0 <= i < |j.s| ==> r.value[i] == JStr([j.s[i]])
  {
    match j
    case JArr(a) => Ok(a)
    case JObj(f) => Ok(seq(|f|, i requires 0 <= i < |f| => JStr(f[i].0)))
    case JStr(s) => Ok(seq(|s|, i requires 0 <= i < |s| => JStr([s[i]])))
    case _ => Raise(TypeError)
  }

  /** `j[0]`. JSON dict keys are strings, so an integer subscript on a dict
      raises KeyError. */
  function First(j: Json): (r: Result<Json>)
    ensures r.Ok? <==> (j.JArr? && j.items != []) || (j.JStr? && j.s != "")
    ensures r.Ok? && j.JArr? ==> r.value == j.items[0]
    ensures r.Ok? && j.JStr? ==> r.value == JStr([j.s[0]])
  {
    match j
    case JArr(a) => if a == [] then Raise(IndexError) else Ok(a[0])
    case JStr(s) => if s == "" then Raise(IndexError) else Ok(JStr([s[0]]))
    case JObj(_) => Raise(KeyError)
    case _ => Raise(TypeError)
  }

  /** `j[-1]`, with the same failures as `j[0]`. */
  function Last(j: Json): (r: Result<Json>)
    ensures r.Ok? <==> (j.JArr? && j.items != []) || (j.JStr? && j.s != "")
    ensures r.Ok? && j.JArr? ==> r.value == j.items[|j.items| - 1]
    ensures r.Ok? && j.JStr? ==> r.value == JStr([j.s[|j.s| - 1]])
  {
    match j
    case JArr(a) => if a == [] then Raise(IndexError) else Ok(a[|a| - 1])
    case JStr(s) => if s == "" then Raise(IndexError) else Ok(JStr([s[|s| - 1]]))
    case JObj(_) => Raise(KeyError)
    case _ => Raise(TypeError)
  }
}
