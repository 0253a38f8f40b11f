/**
 * JSON documents as the Python runtime hands them to the client, and the few Python
 * operations the client applies to them: `d[key]`, `d.get(key, default)`, iteration
 * and `str(v)`. Parsing, serialising and Python's textual rendering of non-string
 * values are library code; they reach the model as the functions of a `Library`.
 */
module Json {
  import opened Wrappers

  /** A JSON value; objects keep their members in document order. Only integral numbers are modelled. */
  datatype Json =
    | JNull
    | JBool(b: bool)
    | JNumber(n: int)
    | JString(s: string)
    | JArray(items: seq<Json>)
    | JObject(members: seq<(string, Json)>)

  /**
   * The library code the client relies on: `json.loads` (its error text on a document
   * that does not parse), `json.dumps`, and `str(v)` for a value that is not a string.
   */
  datatype Library = Library(
    loads: string -> Result<Json>,
    dumps: Json -> string,
    repr: Json -> string)

  /** The value stored under `key` in a dict built from `members`: the last member with that key wins. */
  function Lookup(members: seq<(string, Json)>, key: string): (r: Option<Json>)
    ensures r.Some? ==> |members| > 0
    decreases |members|
  {
    if |members| == 0 then None
    else if members[|members| - 1].0 == key then Some(members[|members| - 1].1)
    else Lookup(members[..|members| - 1], key)
  }

  /** The name Python gives the type of a value, as it appears in error messages. */
  function TypeName(v: Json): string {
    match v
    case JNull => "NoneType"
    case JBool(_) => "bool"
    case JNumber(_) => "int"
    case JString(_) => "str"
    case JArray(_) => "list"
    case JObject(_) => "dict"
  }

  /** `str(v)`: a string is its own text; any other value is rendered by the library. */
  function Str(lib: Library, v: Json): string {
    if v.JString? then v.s else lib.repr(v)
  }

  /**
   * `v[key]` with a string key, or the text of the error Python raises: a KeyError on a
   * dict without the key (whose `str` is the quoted key), a TypeError on anything else.
   */
  function Subscript(v: Json, key: string): (r: Result<Json>)
    ensures r.Success? <==> v.JObject? && Lookup(v.members, key).Some?
    ensures r.Success? ==> r.value == Lookup(v.members, key).value
  {
    match v
    case JObject(members) =>
      (match Lookup(members, key)
       case Some(x) => Success(x)
       case None => Failure("'" + key + "'"))
    case JArray(_) => Failure("list indices must be integers or slices, not str")
    case JString(_) => Failure("string indices must be integers, not 'str'")
    case _ => Failure("'" + TypeName(v) + "' object is not subscriptable")
  }

  /** `v.get(key, default)`: only a dict has `get`; any other value raises an AttributeError. */
  function Get(v: Json, key: string, default: Json): (r: Result<Json>)
    ensures r.Success? <==> v.JObject?
    ensures r.Success? ==> r.value == Lookup(v.members, key).GetOr(default)
  {
    match v
    case JObject(members) => Success(Lookup(members, key).GetOr(default))
    case _ => Failure("'" + TypeName(v) + "' object has no attribute 'get'")
  }

  /**
   * The values a Python `for` loop visits: the items of a list, the keys of a dict
   * (as strings) and the characters of a string; other values are not iterable.
   * A dict with duplicate keys lists each occurrence, which no caller can observe:
   * the client fails on the first key it visits.
   */
  function Iterate(v: Json): (r: Result<seq<Json>>)
    ensures v.JArray? ==> r == Success(v.items)
    ensures r.Success? <==> v.JArray? || v.JObject? || v.JString?
    ensures r.Success? && !v.JArray? ==> forall x :: x in r.value ==> x.JString?
  {
    match v
    case JArray(items) => Success(items)
    case JObject(members) => Success(seq(|members|, i requires 0 <= i < |members| => JString(members[i].0)))
    case JString(s) => Success(seq(|s|, i requires 0 <= i < |s| => JString([s[i]])))
    case _ => Failure("'" + TypeName(v) + "' object is not iterable")
  }

  /** A later member shadows an earlier one: lookup in `a + b` answers from `b` first. */
  lemma {:induction false} LookupAppend(a: seq<(string, Json)>, b: seq<(string, Json)>, key: string)
    ensures Lookup(a + b, key) == if Lookup(b, key).Some? then Lookup(b, key) else Lookup(a, key)
    decreases |b|
  {
    if b != [] {
      assert (a + b)[..|a + b| - 1] == a + b[..|b| - 1];
      assert (a + b)[|a + b| - 1] == b[|b| - 1];
      LookupAppend(a, b[..|b| - 1], key);
    } else {
      assert a + b == a;
    }
  }
}
