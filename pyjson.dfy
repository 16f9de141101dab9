/** The JSON-shaped Python values the provider handles (parsed YAML configuration,
    decoded HTTP bodies, features) and the few Python operations on them that the
    provider's logic depends on: truthiness and `or`, `dict.get`, item assignment,
    iteration, the `in` operator and `str()`. */
module PyJson {
  import opened Text

  datatype Option<T> = None | Some(value: T)

  /** A Python computation that returns a value or raises (the string names the exception). */
  datatype Result<T, E> = Ok(value: T) | Err(error: E)

  datatype Json =
    | JNull
    | JBool(b: bool)
    | JInt(i: int)
    | JFloat(f: real)
    | JStr(s: string)
    | JArr(items: seq<Json>)
    | JObj(fields: Fields)

  /** A Python dict with string keys, in insertion order. Keys are taken to be
      distinct, as in a dict; a lookup reads the first entry for a key. */
  type Fields = seq<(string, Json)>

  /** Python's `bool(x)`: None, False, zero, and empty strings, lists and dicts are false. */
  predicate Truthy(j: Json) {
    match j
    case JNull => false
    case JBool(b) => b
    case JInt(i) => i != 0
    case JFloat(f) => f != 0.0
    case JStr(s) => s != ""
    case JArr(a) => a != []
    case JObj(fs) => fs != []
  }

  /** Python's `a or b`. */
  function Or(a: Json, b: Json): Json {
    if Truthy(a) then a else b
  }

  /** The value stored under `k`, if any. */
  function Lookup(fs: Fields, k: string): Option<Json>
    decreases |fs|
  {
    if fs == [] then None
    else if fs[0].0 == k then Some(fs[0].1)
    else Lookup(fs[1..], k)
  }

  /** `d.get(k, default)` on a dict. */
  function GetOr(fs: Fields, k: string, default: Json): Json {
    match Lookup(fs, k)
    case Some(v) => v
    case None => default
  }

  /** `d[k] = v`: replaces the value in place when `k` is present, appends otherwise. */
  function Set(fs: Fields, k: string, v: Json): Fields
    decreases |fs|
  {
    if fs == [] then [(k, v)]
    else if fs[0].0 == k then [(k, v)] + fs[1..]
    else [fs[0]] + Set(fs[1..], k, v)
  }

  /** After `d[k] = v`, `d[k]` is `v` and every other key reads as before. */
  lemma {:induction false} LookupSet(fs: Fields, k: string, v: Json, other: string)
    ensures Lookup(Set(fs, k, v), k) == Some(v)
    ensures other != k ==> Lookup(Set(fs, k, v), other) == Lookup(fs, other)
    decreases |fs|
  {
    if fs != [] && fs[0].0 != k {
      LookupSet(fs[1..], k, v, other);
      assert Set(fs, k, v)[1..] == Set(fs[1..], k, v);
    }
  }

  /** `d.get(key)` for a key of any type: string keys are looked up, other hashable
      keys never equal a string key, lists and dicts are unhashable. */
  function KeyGet(fs: Fields, key: Json): Result<Json, string> {
    match key
    case JStr(k) => Ok(GetOr(fs, k, JNull))
    case JArr(_) => Err("TypeError: unhashable type: 'list'")
    case JObj(_) => Err("TypeError: unhashable type: 'dict'")
    case _ => Ok(JNull)
  }

  /** The exception of `x.get(...)` on a value that is not a dict. */
  const NoGet := "AttributeError: object has no attribute 'get'"

  /** The exception of `for v in x` or `k in x` on a value that supports neither. */
  const NotIterable := "TypeError: object is not iterable"

  /** `x.get(k, default)`: only a dict has `get`. */
  function Get(x: Json, k: string, default: Json): Result<Json, string> {
    match x
    case JObj(fs) => Ok(GetOr(fs, k, default))
    case _ => Err(NoGet)
  }

  /** What `for v in x` visits: list items, dict keys, the characters of a string;
      None when `x` is not iterable (TypeError). */
  function Iterate(x: Json): Option<seq<Json>> {
    match x
    case JArr(a) => Some(a)
    case JObj(fs) => Some(seq(|fs|, i requires 0 <= i < |fs| => JStr(fs[i].0)))
    case JStr(s) => Some(seq(|s|, i requires 0 <= i < |s| => JStr([s[i]])))
    case _ => None
  }

  predicate IsPrefix(p: string, s: string) {
    |p| <= |s| && s[..|p|] == p
  }

  /** `p in s` for two strings. */
  predicate IsSubstring(p: string, s: string)
    decreases |s|
  {
    IsPrefix(p, s) || (s != [] && IsSubstring(p, s[1..]))
  }

  /** `key in x` for a string `key`: a dict tests its keys, a list its items, a string
      its substrings; None when `x` supports no `in` (TypeError). */
  function Contains(x: Json, key: string): Option<bool> {
    match x
    case JObj(fs) => Some(Lookup(fs, key).Some?)
    case JArr(a) => Some(JStr(key) in a)
    case JStr(s) => Some(IsSubstring(key, s))
    case _ => None
  }

  /** The parts of Python's runtime whose exact output the model does not fix:
      `repr` of a float, `float()` applied to a string, and `str()` of a list or dict. */
  datatype Builtins = Builtins(
    floatRepr: real -> string,
    parseFloat: string -> Option<real>,
    containerStr: Json -> string)

  /** Python's `str(x)`, as used by f-strings. */
  function Str(b: Builtins, x: Json): string {
    match x
    case JNull => "None"
    case JBool(v) => if v then "True" else "False"
    case JInt(i) => IntToString(i)
    case JFloat(f) => b.floatRepr(f)
    case JStr(s) => s
    case _ => b.containerStr(x)
  }

  /** Python's `float(x)`; None when it raises (TypeError or ValueError). */
  function ToFloat(b: Builtins, x: Json): Option<real> {
    match x
    case JBool(v) => Some(if v then 1.0 else 0.0)
    case JInt(i) => Some(i as real)
    case JFloat(f) => Some(f)
    case JStr(s) => b.parseFloat(s)
    case _ => None
  }
}
