/**
  JSON-like Python values: what `json.loads` yields and what the gateway puts in
  payloads. A Python `dict` keeps insertion order, so an object is a sequence of
  key/value pairs; `Put` is `d[k] = v` (overwrite in place, or append).
*/
module JsonModel {
  import opened Wrappers

  datatype Json =
    | Null
    | Bool(b: bool)
    | Int(i: int)
    | Float(r: real)
    | Str(s: string)
    | Arr(items: seq<Json>)
    | Obj(fields: seq<(string, Json)>)

  /** The entries of a Python dict, in insertion order. */
  type Fields = seq<(string, Json)>

  /** The keys of a dict. */
  function Keys(fields: Fields): set<string> {
    if |fields| == 0 then {} else {fields[0].0} + Keys(fields[1..])
  }

  /** `d.get(key)`: the value stored under `key`, if any. */
  function Get(fields: Fields, key: string): (r: Option<Json>)
    ensures r.Some? <==> key in Keys(fields)
  {
    if |fields| == 0 then None
    else if fields[0].0 == key then Some(fields[0].1)
    else Get(fields[1..], key)
  }

  /** The value under `key` is the one in its first entry. */
  lemma {:induction false} GetAt(fields: Fields, key: string, i: nat)
    requires i < |fields| && fields[i].0 == key
    requires forall m :: 0 <= m < i ==> fields[m].0 != key
    ensures Get(fields, key) == Some(fields[i].1)
  {
    if i > 0 {
      GetAt(fields[1..], key, i - 1);
    }
  }

  /** A key that no entry carries is absent. */
  lemma {:induction false} GetAbsent(fields: Fields, key: string)
    requires forall m :: 0 <= m < |fields| ==> fields[m].0 != key
    ensures Get(fields, key) == None
  {
    if |fields| > 0 {
      GetAbsent(fields[1..], key);
    }
  }

  /**
    `d[key] = v`: an existing key keeps its position and gets the new value,
    a new key is appended at the end; no other key changes.
  */
  function Put(fields: Fields, key: string, v: Json): (r: Fields)
    ensures Get(r, key) == Some(v)
    ensures forall k :: k != key ==> Get(r, k) == Get(fields, k)
    ensures Keys(r) == Keys(fields) + {key}
    ensures key in Keys(fields) ==> |r| == |fields|
  {
    if |fields| == 0 then [(key, v)]
    else if fields[0].0 == key then
      var r := [(key, v)] + fields[1..];
      assert r[1..] == fields[1..];
      r
    else
      var rest := Put(fields[1..], key, v);
      var r := [fields[0]] + rest;
      assert r[1..] == rest;
      assert fields == [fields[0]] + fields[1..];
      r
  }

  /** The keys are the first components of the entries. */
  lemma {:induction false} KeysOf(fields: Fields)
    ensures forall k :: k in Keys(fields) ==> exists m :: 0 <= m < |fields| && fields[m].0 == k
  {
    if |fields| > 0 {
      KeysOf(fields[1..]);
      forall k | k in Keys(fields)
        ensures exists m :: 0 <= m < |fields| && fields[m].0 == k
      {
        if k != fields[0].0 {
          assert k in Keys(fields[1..]);
          var m :| 0 <= m < |fields[1..]| && fields[1..][m].0 == k;
          assert fields[m + 1].0 == k;
        }
      }
    }
  }

  /** Storing a new key appends it: a dict keeps insertion order. */
  lemma {:induction false} PutAppends(fields: Fields, key: string, v: Json)
    requires key !in Keys(fields)
    ensures Put(fields, key, v) == fields + [(key, v)]
  {
    if |fields| > 0 {
      PutAppends(fields[1..], key, v);
      assert fields == [fields[0]] + fields[1..];
    }
  }

  /** Storing an existing key replaces its first entry in place. */
  lemma {:induction false} PutAt(fields: Fields, key: string, v: Json, i: nat)
    requires i < |fields| && fields[i].0 == key
    requires forall m :: 0 <= m < i ==> fields[m].0 != key
    ensures Put(fields, key, v) == fields[i := (key, v)]
  {
    if i > 0 {
      PutAt(fields[1..], key, v, i - 1);
      assert fields[i := (key, v)] == [fields[0]] + fields[1..][i - 1 := (key, v)];
    }
  }

  /** Python truthiness: `None`, `False`, zero and empty containers are false. */
  predicate Truthy(j: Json) {
    match j
    case Null => false
    case Bool(b) => b
    case Int(i) => i != 0
    case Float(r) => r != 0.0
    case Str(s) => |s| > 0
    case Arr(items) => |items| > 0
    case Obj(fields) => |fields| > 0
  }

  /** `type(j).__name__`, as Python's error messages print it. */
  function TypeName(j: Json): string {
    match j
    case Null => "NoneType"
    case Bool(_) => "bool"
    case Int(_) => "int"
    case Float(_) => "float"
    case Str(_) => "str"
    case Arr(_) => "list"
    case Obj(_) => "dict"
  }
}
