/** JSON values as Python's json module hands them to the log code, and the
    duck-typed operations the code applies to them. Every operation that
    Python would refuse for a value of the wrong shape (`.get` on a list,
    iterating over `None`, joining a number) raises `ShapeError` here. */
module JsonModel {
  import opened Wrappers
  import opened Text

  /** A decoded JSON value. An object lists its items in insertion order; a
      decoded object has distinct keys, so the first item with a key is the
      one a Python dict holds. Numbers are integers (see README). */
  datatype Json =
    | JNull
    | JBool(b: bool)
    | JNum(n: int)
    | JStr(s: string)
    | JArr(items: seq<Json>)
    | JObj(fields: seq<(string, Json)>)

  /** Python truthiness: `None`, `False`, `0` and empty strings, lists and
      dicts are false. */
  predicate Truthy(j: Json) {
    match j
    case JNull => false
    case JBool(b) => b
    case JNum(n) => n != 0
    case JStr(s) => s != []
    case JArr(xs) => xs != []
    case JObj(fs) => fs != []
  }

  /** The value stored under `key`, if any. */
  function Lookup(fields: seq<(string, Json)>, key: string): (r: Option<Json>)
    ensures r.None? <==> forall i :: 0 <= i < |fields| ==> fields[i].0 != key
    ensures r.Some? ==> exists i :: 0 <= i < |fields| && fields[i] == (key, r.value)
  {
    if fields == [] then None
    else if fields[0].0 == key then Some(fields[0].1)
    else Lookup(fields[1..], key)
  }

  /** `d.get(key, default)` where the code has already checked that `d` is a dict. */
  function Field(d: Json, key: string, default: Json): Json
    requires d.JObj?
  {
    Lookup(d.fields, key).GetOr(default)
  }

  /** Whether `block` is a dict whose `type` is `t`. */
  predicate IsBlock(block: Json, t: string) {
    block.JObj? && Field(block, "type", JNull) == JStr(t)
  }

  /** `d.get(key, default)`: a value that is not a dict has no `get`. */
  function Get(d: Json, key: string, default: Json): (r: Result<Json>)
    ensures r.Ok? <==> d.JObj?
    ensures r.Ok? ==> r.value == Field(d, key, default)
  {
    if d.JObj? then Ok(Field(d, key, default)) else Raised(ShapeError)
  }

  /** The items of a dict after `d[key] = v`: the item with that key gets the
      new value in place, or a new item is appended. */
  function Assign(fields: seq<(string, Json)>, key: string, v: Json): (r: seq<(string, Json)>)
    ensures Lookup(r, key) == Some(v)
    ensures forall k :: k != key ==> Lookup(r, k) == Lookup(fields, k)
  {
    if fields == [] then [(key, v)]
    else if fields[0].0 == key then [(key, v)] + fields[1..]
    else [fields[0]] + Assign(fields[1..], key, v)
  }

  /** `d[key] = v`: only a dict accepts a string key. */
  function SetItem(d: Json, key: string, v: Json): (r: Result<Json>)
    ensures r.Ok? <==> d.JObj?
    ensures r.Ok? ==> r.value.JObj? && Lookup(r.value.fields, key) == Some(v)
    ensures r.Ok? ==> forall k :: k != key ==> Lookup(r.value.fields, k) == Lookup(d.fields, k)
  {
    if d.JObj? then Ok(JObj(Assign(d.fields, key, v))) else Raised(ShapeError)
  }

  /** What `for x in j` visits: a list its items, a string its characters
      (as one-character strings), a dict its keys; anything else raises. */
  function Iterate(j: Json): (r: Result<seq<Json>>)
    ensures r.Ok? <==> (j.JArr? || j.JStr? || j.JObj?)
    ensures j.JArr? ==> r == Ok(j.items)
    ensures r.Ok? && !j.JArr? ==> forall i :: 0 <= i < |r.value| ==> r.value[i].JStr?
  {
    match j
    case JArr(xs) => Ok(xs)
    case JStr(s) => Ok(seq(|s|, i requires 0 <= i < |s| => JStr([s[i]])))
    case JObj(fs) => Ok(seq(|fs|, i requires 0 <= i < |fs| => JStr(fs[i].0)))
    case _ => Raised(ShapeError)
  }

  /** `j[:n]`: defined for strings and lists only. */
  function Prefix(j: Json, n: nat): (r: Result<Json>)
    ensures r.Ok? <==> (j.JStr? || j.JArr?)
    ensures j.JStr? ==> r.Ok? && r.value.JStr? && r.value.s == j.s[..if |j.s| <= n then |j.s| else n]
    ensures j.JArr? ==> r.Ok? && r.value.JArr? && r.value.items == j.items[..if |j.items| <= n then |j.items| else n]
  {
    match j
    case JStr(s) => Ok(JStr(if |s| <= n then s else s[..n]))
    case JArr(xs) => Ok(JArr(if |xs| <= n then xs else xs[..n]))
    case _ => Raised(ShapeError)
  }

  predicate AllStrings(parts: seq<Json>) {
    forall i :: 0 <= i < |parts| ==> parts[i].JStr?
  }

  /** The strings inside a list of string values. */
  function Strs(parts: seq<Json>): (r: seq<string>)
    requires AllStrings(parts)
    ensures |r| == |parts|
    ensures forall i :: 0 <= i < |parts| ==> r[i] == parts[i].s
  {
    if parts == [] then [] else [parts[0].s] + Strs(parts[1..])
  }

  /** `sep.join(parts)`: every part must be a string. */
  function JoinStrs(parts: seq<Json>, sep: string): (r: Result<string>)
    ensures r.Ok? <==> AllStrings(parts)
    ensures r.Ok? ==> r.value == Join(Strs(parts), sep)
  {
    if AllStrings(parts) then Ok(Join(Strs(parts), sep)) else Raised(ShapeError)
  }

  /** `"\n".join(parts) if parts else None`. */
  function JoinLinesIfAny(parts: seq<Json>): (r: Result<Option<string>>)
    ensures r.Ok? <==> AllStrings(parts)
    ensures r.Ok? ==> (r.value.None? <==> parts == [])
    ensures r.Ok? && parts != [] ==> r.value.value == Join(Strs(parts), "\n")
  {
    if parts == [] then Ok(None)
    else
      var s :- JoinStrs(parts, "\n");
      Ok(Some(s))
  }

  /** `str(j)`, which an f-string applies to each value it formats. Python
      renders lists and dicts with `repr`, which depends on the Unicode
      database; that rendering is the parameter `fmt`. */
  function Str(j: Json, fmt: Json -> string): (r: string)
    ensures j.JStr? ==> r == j.s
  {
    match j
    case JNull => "None"
    case JBool(b) => if b then "True" else "False"
    case JNum(n) => Decimal(n)
    case JStr(s) => s
    case _ => fmt(j)
  }

  /** The integer value of an int or a bool (Python's `bool` is an `int`). */
  function AsInt(j: Json): int
    requires j.JNum? || j.JBool?
  {
    if j.JNum? then j.n else if j.b then 1 else 0
  }

  /** `a + b`: numbers add, strings and lists concatenate, anything else raises. */
  function Add(a: Json, b: Json): (r: Result<Json>)
    ensures (a.JNum? || a.JBool?) && (b.JNum? || b.JBool?) ==> r == Ok(JNum(AsInt(a) + AsInt(b)))
    ensures r.Ok? <==> ((a.JNum? || a.JBool?) && (b.JNum? || b.JBool?)) || (a.JStr? && b.JStr?) || (a.JArr? && b.JArr?)
  {
    if (a.JNum? || a.JBool?) && (b.JNum? || b.JBool?) then Ok(JNum(AsInt(a) + AsInt(b)))
    else if a.JStr? && b.JStr? then Ok(JStr(a.s + b.s))
    else if a.JArr? && b.JArr? then Ok(JArr(a.items + b.items))
    else Raised(ShapeError)
  }
}
