/**
 The JSON values that `requests`' `.json()` hands to the bot, together with the
 few pieces of Python's object model the bot applies to them: truthiness,
 dictionary lookup, `type(v).__name__` and `str(v)`.
 */
module Json {
  import opened Wrappers

  /** A decoded JSON document. An object keeps its members in document order. */
  datatype Json =
    | JNull
    | JBool(b: bool)
    | JInt(i: int)
    | JString(s: string)
    | JArray(items: seq<Json>)
    | JObject(members: seq<Member>)

  datatype Member = Member(key: string, value: Json)

  /**
   Python's `d.get(k)` on the dict that `json.loads` builds from `members`:
   when a key repeats, the later binding wins.
   */
  function Lookup(members: seq<Member>, k: string): (r: Option<Json>)
    ensures r.Some? <==> exists i :: 0 <= i < |members| && members[i].key == k
    ensures r.Some? ==> Member(k, r.value) in members
    ensures r.Some? ==>
              exists i :: 0 <= i < |members| && members[i] == Member(k, r.value) &&
                          forall j :: i < j < |members| ==> members[j].key != k
    decreases |members|
  {
    if members == [] then None
    else if members[|members| - 1].key == k then Some(members[|members| - 1].value)
    else
      var r := Lookup(members[..|members| - 1], k);
      assert forall i :: 0 <= i < |members| - 1 ==> members[..|members| - 1][i] == members[i];
      r
  }

  /** `v[k]` when `v` is a dict holding `k`; `None` otherwise. */
  function Field(v: Json, k: string): Option<Json>
  {
    if v.JObject? then Lookup(v.members, k) else None
  }

  /** `k in v` for a dict `v`. */
  predicate HasKey(v: Json, k: string)
  {
    Field(v, k).Some?
  }

  /** `bool(v)`: `None`, `False`, `0`, `""`, `[]` and `{}` are false. */
  predicate Truthy(v: Json)
  {
    match v
    case JNull => false
    case JBool(b) => b
    case JInt(i) => i != 0
    case JString(s) => s != ""
    case JArray(items) => items != []
    case JObject(members) => members != []
  }

  /** `type(v).__name__` for the Python object `json.loads` makes of `v`. */
  function TypeName(v: Json): string
  {
    match v
    case JNull => "NoneType"
    case JBool(_) => "bool"
    case JInt(_) => "int"
    case JString(_) => "str"
    case JArray(_) => "list"
    case JObject(_) => "dict"
  }

  /** The decimal digit for `d`. */
  function Digit(d: nat): char
    requires d < 10
  {
    "0123456789"[d]
  }

  /** `str(n)` for a non-negative integer. */
  function NatToString(n: nat): (r: string)
    ensures |r| > 0
    ensures forall k :: 0 <= k < |r| ==> '0' <= r[k] <= '9'
  {
    if n < 10 then [Digit(n)] else NatToString(n / 10) + [Digit(n % 10)]
  }

  /** `str(i)` for an integer. */
  function IntToString(i: int): string
  {
    if i < 0 then "-" + NatToString(-i) else NatToString(i)
  }

  /** Python's quoting of a string in `repr`, without its escaping of special characters. */
  function Quote(s: string): string
  {
    "'" + s + "'"
  }

  /** The parts joined with `", "` between them. */
  function Join(parts: seq<string>): string
  {
    if parts == [] then ""
    else if |parts| == 1 then parts[0]
    else parts[0] + ", " + Join(parts[1..])
  }

  /** `repr(v)`, as it appears inside a list or dict. */
  function Repr(v: Json): string
    decreases v
  {
    match v
    case JNull => "None"
    case JBool(b) => if b then "True" else "False"
    case JInt(i) => IntToString(i)
    case JString(s) => Quote(s)
    case JArray(items) =>
      "[" + Join(seq(|items|, k requires 0 <= k < |items| => Repr(items[k]))) + "]"
    case JObject(members) =>
      "{" + Join(seq(|members|, k requires 0 <= k < |members| =>
                   Quote(members[k].key) + ": " + Repr(members[k].value))) + "}"
  }

  /** `str(v)`, which is what an f-string inserts for `{v}`. */
  function Str(v: Json): string
  {
    if v.JString? then v.s else Repr(v)
  }
}
