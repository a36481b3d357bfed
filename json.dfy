/**
 * Parsed JSON as the Python scripts see it after `json.load`: a dict keeps
 * its members in order (a parsed object has distinct keys), and the scripts
 * read it through `dict.get`, assign through `d[key] = v`, iterate it, and
 * test values for truthiness.
 */
module Json {
  import opened Base

  datatype Json =
    | JNull
    | JBool(b: bool)
    | JNum(n: int)
    | JStr(s: string)
    | JArr(items: seq<Json>)
    | JObj(fields: seq<(string, Json)>)

  /** `d.get(key)`: the value stored under `key`, or `None` when the key is absent. */
  function Get(fields: seq<(string, Json)>, key: string): Option<Json>
  {
    if fields == [] then None
    else if fields[0].0 == key then Some(fields[0].1)
    else Get(fields[1..], key)
  }

  /** `d.get(key, default)`. */
  function GetOr(fields: seq<(string, Json)>, key: string, default: Json): Json {
    match Get(fields, key)
    case Some(v) => v
    case None => default
  }

  /**
   * `d[key] = v`: an existing member keeps its place and takes the new value,
   * a new key is appended.
   */
  function Put(fields: seq<(string, Json)>, key: string, v: Json): seq<(string, Json)>
  {
    if fields == [] then [(key, v)]
    else if fields[0].0 == key then [(key, v)] + fields[1..]
    else [fields[0]] + Put(fields[1..], key, v)
  }

  /** After `d[key] = v`, `d.get(key)` is `v` and no other key's value changes. */
  lemma {:induction false} PutGet(fields: seq<(string, Json)>, key: string, v: Json, k: string)
    ensures Get(Put(fields, key, v), k) == if k == key then Some(v) else Get(fields, k)
  {
    if fields != [] && fields[0].0 != key {
      PutGet(fields[1..], key, v, k);
      assert Put(fields, key, v)[1..] == Put(fields[1..], key, v);
    } else if fields != [] {
      assert Put(fields, key, v)[1..] == fields[1..];
    }
  }

  /** Python truthiness of a JSON value (`bool(v)`). */
  predicate Truthy(v: Json) {
    match v
    case JNull => false
    case JBool(b) => b
    case JNum(n) => n != 0
    case JStr(s) => s != ""
    case JArr(items) => items != []
    case JObj(fields) => fields != []
  }

  /**
   * What `for x in v` yields: a list's items, a dict's keys, a string's
   * characters; `None` when the value is not iterable (`TypeError`).
   */
  function Iterate(v: Json): (r: Option<seq<Json>>)
    ensures r.None? <==> (v.JNull? || v.JBool? || v.JNum?)
    ensures v.JArr? ==> r == Some(v.items)
    ensures (v.JObj? || v.JStr?) ==> r.Some? && (r.value == [] <==> !Truthy(v))
    ensures (v.JObj? || v.JStr?) ==> forall i :: 0 <= i < |r.value| ==> r.value[i].JStr?
  {
    match v
    case JArr(items) => Some(items)
    case JObj(fields) => Some(seq(|fields|, i requires 0 <= i < |fields| => JStr(fields[i].0)))
    case JStr(s) => Some(seq(|s|, i requires 0 <= i < |s| => JStr([s[i]])))
    case _ => None
  }

  /** `len(v)`; `None` when the value has no length (`TypeError`). */
  function Len(v: Json): Option<nat> {
    match v
    case JArr(items) => Some(|items|)
    case JObj(fields) => Some(|fields|)
    case JStr(s) => Some(|s|)
    case _ => None
  }
}
