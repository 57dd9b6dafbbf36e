/** Decoded JSON payloads as Python's json module hands them to the digest script, and
    the handful of Python operations the script applies to them (`dict.get` with a
    default, `for` iteration, `[:k]` slicing, `len`, `[i]` indexing and the `str()`
    conversion an f-string performs). Every operation that can raise in Python returns
    a `Result` whose `Err` names the exception. */
module Json {

  /** A Python value produced by `json.loads`. `JObj` lists a dict's items in insertion
      order; as in any Python dict its keys are distinct. */
  datatype Json =
    | JNull
    | JBool(b: bool)
    | JNum(n: int)
    | JStr(s: string)
    | JArr(items: seq<Json>)
    | JObj(members: seq<(string, Json)>)

  /** The Python exceptions the modelled code can raise. */
  datatype Exception =
    | AttributeError
    | TypeError
    | IndexError
    | KeyError(key: string)
    | ValueError

  datatype Option<+T> = None | Some(value: T)

  datatype Result<+T> = Ok(value: T) | Err(error: Exception) {
    predicate IsFailure() {
      Err?
    }

    function PropagateFailure<U>(): Result<U>
      requires Err?
    {
      Err(error)
    }

    function Extract(): T
      requires Ok?
    {
      value
    }
  }

  /** The value stored under `key` in a dict, if any. */
  function Lookup(members: seq<(string, Json)>, key: string): (r: Option<Json>)
    ensures r.None? <==> forall i | 0 <= i < |members| :: members[i].0 != key
    ensures r.Some? ==> exists i | 0 <= i < |members| ::
      members[i] == (key, r.value) && forall j | 0 <= j < i :: members[j].0 != key
  {
    if members == [] then None
    else if members[0].0 == key then Some(members[0].1)
    else Lookup(members[1..], key)
  }

  /** `d.get(key, default)` on a dict with items `members`: the stored value when the key
      is present (even `None`), the default when it is absent. */
  function DictGet(members: seq<(string, Json)>, key: string, default: Json): (r: Json)
    ensures Lookup(members, key).None? ==> r == default
    ensures Lookup(members, key).Some? ==> r == Lookup(members, key).value
  {
    match Lookup(members, key)
    case Some(x) => x
    case None => default
  }

  /** `v.get(key, default)`: only a dict has `get`. */
  function Get(v: Json, key: string, default: Json): (r: Result<Json>)
    ensures r.Err? <==> !v.JObj?
    ensures r.Err? ==> r.error == AttributeError
    ensures v.JObj? ==> r == Ok(DictGet(v.members, key, default))
  {
    match v
    case JObj(members) => Ok(DictGet(members, key, default))
    case _ => Err(AttributeError)
  }

  /** `v.get(key, {})` is a dict again, so a further `.get` on it succeeds. */
  predicate DictAt(v: Json, key: string)
  {
    v.JObj? && (Lookup(v.members, key).None? || Lookup(v.members, key).value.JObj?)
  }

  /** The one-character strings that iterating over a Python string yields. */
  function Chars(s: string): (r: seq<Json>)
    ensures |r| == |s|
    ensures forall i | 0 <= i < |s| :: r[i] == JStr([s[i]])
  {
    seq(|s|, i requires 0 <= i < |s| => JStr([s[i]]))
  }

  /** The elements `for x in v` visits: a list's items, a string's characters, a dict's
      keys; anything else is not iterable. */
  function Iterate(v: Json): (r: Result<seq<Json>>)
    ensures r.Ok? <==> v.JArr? || v.JStr? || v.JObj?
    ensures v.JArr? ==> r == Ok(v.items)
    ensures v.JStr? ==> r == Ok(Chars(v.s))
    ensures v.JObj? ==>
      && r.Ok? && |r.value| == |v.members|
      && forall i | 0 <= i < |v.members| :: r.value[i] == JStr(v.members[i].0)
    ensures r.Ok? && !v.JArr? ==> forall x | x in r.value :: x.JStr?
    ensures r.Ok? ==> |r.value| == (match v case JArr(xs) => |xs| case JStr(s) => |s| case JObj(m) => |m| case _ => 0)
  {
    match v
    case JArr(items) => Ok(items)
    case JStr(s) => Ok(Chars(s))
    case JObj(members) => Ok(seq(|members|, i requires 0 <= i < |members| => JStr(members[i].0)))
    case _ => Err(TypeError)
  }

  /** The length of `xs[:k]` for a sequence of length `len`, with Python's meaning of a
      negative `k` (counted from the end). */
  function Cut(len: nat, k: int): (n: nat)
    ensures n <= len
    ensures k >= 0 ==> n == if k < len then k else len
    ensures k < 0 ==> n == if len + k > 0 then len + k else 0
  {
    if k >= 0 then (if k < len then k else len)
    else if len + k > 0 then len + k
    else 0
  }

  /** `v[:k]` on a list or a string; slicing a dict, `None`, a number or a bool raises. */
  function SliceTo(v: Json, k: int): (r: Result<Json>)
    ensures r.Ok? <==> v.JArr? || v.JStr?
    ensures v.JArr? ==> r == Ok(JArr(v.items[..Cut(|v.items|, k)]))
    ensures v.JStr? ==> r == Ok(JStr(v.s[..Cut(|v.s|, k)]))
  {
    match v
    case JArr(items) => Ok(JArr(items[..Cut(|items|, k)]))
    case JStr(s) => Ok(JStr(s[..Cut(|s|, k)]))
    case _ => Err(TypeError)
  }

  /** `len(v)`. */
  function Len(v: Json): (r: Result<nat>)
    ensures r.Ok? <==> v.JArr? || v.JStr? || v.JObj?
    ensures r.Ok? ==> Iterate(v).Ok? && r.value == |Iterate(v).value|
  {
    match v
    case JArr(items) => Ok(|items|)
    case JStr(s) => Ok(|s|)
    case JObj(members) => Ok(|members|)
    case _ => Err(TypeError)
  }

  /** `v[i]` for a non-negative integer `i`: a dict decoded from JSON has only string
      keys, so an integer subscript is never found in it. */
  function Index(v: Json, i: nat): (r: Result<Json>)
    ensures v.JArr? && i < |v.items| ==> r == Ok(v.items[i])
    ensures v.JStr? && i < |v.s| ==> r == Ok(JStr([v.s[i]]))
    ensures r.Ok? ==> v.JArr? || v.JStr?
    ensures r.Ok? <==> Len(v).Ok? && i < Len(v).value && !v.JObj?
  {
    match v
    case JArr(items) => if i < |items| then Ok(items[i]) else Err(IndexError)
    case JStr(s) => if i < |s| then Ok(JStr([s[i]])) else Err(IndexError)
    case JObj(_) => Err(KeyError(NatToString(i)))
    case _ => Err(TypeError)
  }

  /** Decimal digits of a natural number. */
  function NatToString(n: nat): (s: string)
    ensures |s| >= 1
    ensures forall i | 0 <= i < |s| :: '0' <= s[i] <= '9'
    decreases n
  {
    if n < 10 then [Digit(n)] else NatToString(n / 10) + [Digit(n % 10)]
  }

  function Digit(d: nat): (c: char)
    requires d < 10
    ensures '0' <= c <= '9'
  {
    ['0', '1', '2', '3', '4', '5', '6', '7', '8', '9'][d]
  }

  /** `str(v)`, which an f-string applies to each interpolated value: a string is itself,
      everything else is its `repr`. */
  function Str(v: Json): (r: string)
    ensures v.JStr? ==> r == v.s
    ensures v == JNull ==> r == "None"
  {
    match v
    case JStr(s) => s
    case _ => Repr(v)
  }

  /** `repr(v)`: `None`, `True`/`False`, decimal integers, quoted strings, and
      bracketed lists and dicts with ", " between entries. */
  function Repr(v: Json): string
    decreases v
  {
    match v
    case JNull => "None"
    case JBool(b) => if b then "True" else "False"
    case JNum(n) => if n < 0 then "-" + NatToString(-n) else NatToString(n)
    case JStr(s) => "'" + s + "'"
    case JArr(items) =>
      "[" + Join(seq(|items|, i requires 0 <= i < |items| => Repr(items[i]))) + "]"
    case JObj(members) =>
      "{" + Join(seq(|members|, i requires 0 <= i < |members| =>
                       "'" + members[i].0 + "': " + Repr(members[i].1))) + "}"
  }

  /** The strings joined with ", " between them. */
  function Join(parts: seq<string>): string
  {
    if parts == [] then ""
    else if |parts| == 1 then parts[0]
    else parts[0] + ", " + Join(parts[1..])
  }
}
