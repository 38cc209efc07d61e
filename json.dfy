/**
 * A reply after `json.loads`: the decoded JSON value, with Python's view of it
 * (truthiness, `dict.get`, iteration). An object keeps its members in text order;
 * when a name repeats, the dict Python builds holds the last value.
 */
module JsonValue {
  import opened Wrappers

  datatype Json =
    | JNull
    | JBool(b: bool)
    | JInt(i: int)
    | JFloat(x: real)
    | JStr(s: string)
    | JArr(elems: seq<Json>)
    | JObj(fields: seq<(string, Json)>)

  /** `bool(v)` in Python. */
  predicate Truthy(v: Json)
  {
    match v
    case JNull => false
    case JBool(b) => b
    case JInt(i) => i != 0
    case JFloat(x) => x != 0.0
    case JStr(s) => s != ""
    case JArr(elems) => elems != []
    case JObj(fields) => fields != []
  }

  /** No member after position `i` carries the name `key`. */
  predicate LastNamed(fields: seq<(string, Json)>, key: string, i: int)
  {
    forall j :: i < j < |fields| && j >= 0 ==> fields[j].0 != key
  }

  /** The position of the last member named `key`, if any. */
  function LastIndex(fields: seq<(string, Json)>, key: string): (r: Option<nat>)
    ensures r.None? ==> forall i :: 0 <= i < |fields| ==> fields[i].0 != key
    ensures r.Some? ==> r.value < |fields| && fields[r.value].0 == key && LastNamed(fields, key, r.value)
  {
    if fields == [] then None
    else if fields[|fields| - 1].0 == key then Some(|fields| - 1)
    else LastIndex(fields[..|fields| - 1], key)
  }

  /** `d.get(key, default)` on the dict decoded from `fields`. */
  function Get(fields: seq<(string, Json)>, key: string, default: Json): (v: Json)
    ensures (forall i :: 0 <= i < |fields| ==> fields[i].0 != key) ==> v == default
    ensures forall i :: 0 <= i < |fields| && fields[i].0 == key && LastNamed(fields, key, i) ==> v == fields[i].1
  {
    match LastIndex(fields, key)
    case Some(i) => fields[i].1
    case None => default
  }

  /**
   * What a Python `for` loop over `v` visits, or None when `v` is not iterable
   * (a TypeError). A string yields its characters and a dict its keys, all strings.
   * An object whose members repeat a name yields that name once per member, where
   * Python's dict yields it once; only its first element is ever used (the add loop
   * stops on it, since a string is not an item), so the difference is never observed.
   */
  function Iterate(v: Json): (r: Option<seq<Json>>)
    ensures r.None? <==> !(v.JArr? || v.JStr? || v.JObj?)
    ensures r.Some? ==> (|r.value| == 0 <==> !Truthy(v))
    ensures r.Some? && !v.JArr? ==> forall i :: 0 <= i < |r.value| ==> r.value[i].JStr?
  {
    match v
    case JArr(elems) => Some(elems)
    case JStr(s) => Some(seq(|s|, i requires 0 <= i < |s| => JStr([s[i]])))
    case JObj(fields) => Some(seq(|fields|, i requires 0 <= i < |fields| => JStr(fields[i].0)))
    case _ => None
  }
}
