/** JSON documents as both sides of the protocol see them.

    Objects keep their keys in insertion order, which is the order of both a
    JavaScript object literal and a Python dict: writing an existing key
    replaces its value in place, writing a new key appends it.  Integers and
    floats stay apart because the Python scripts test `isinstance(v, int)`;
    on the JavaScript side both are numbers. */
module Json {
  import opened Wrappers
  import opened Strings

  datatype Json =
    | JNull
    | JBool(b: bool)
    | JInt(i: int)
    | JFloat(r: real)
    | JStr(s: string)
    | JArr(items: seq<Json>)
    | JObj(fields: seq<(string, Json)>)

  type Fields = seq<(string, Json)>

  function Keys(fields: Fields): (ks: seq<string>)
    ensures |ks| == |fields|
    ensures forall i :: 0 <= i < |fields| ==> ks[i] == fields[i].0
  {
    seq(|fields|, i requires 0 <= i < |fields| => fields[i].0)
  }

  predicate UniqueKeys(fields: Fields) {
    forall i, j :: 0 <= i < j < |fields| ==> fields[i].0 != fields[j].0
  }

  /** The value stored under `key`; None is JavaScript's `undefined` and a
      missing Python key. */
  function Lookup(fields: Fields, key: string): (r: Option<Json>)
    ensures r.None? <==> key !in Keys(fields)
  {
    if fields == [] then None
    else if fields[0].0 == key then Some(fields[0].1)
    else (assert Keys(fields) == [fields[0].0] + Keys(fields[1..]); Lookup(fields[1..], key))
  }

  /** Lookup answers with the first entry that carries the key. */
  lemma {:induction false} LookupFirst(fields: Fields, key: string, i: nat)
    requires i < |fields| && fields[i].0 == key
    requires forall j :: 0 <= j < i ==> fields[j].0 != key
    ensures Lookup(fields, key) == Some(fields[i].1)
  {
    if i > 0 {
      assert fields[0].0 != key;
      LookupFirst(fields[1..], key, i - 1);
    }
  }

  /** In an object whose first four keys differ, each of them is found with
      its own value. */
  lemma LookupLeadingFour(fields: Fields)
    requires |fields| >= 4
    requires fields[1].0 != fields[0].0
    requires fields[2].0 != fields[0].0 && fields[2].0 != fields[1].0
    requires fields[3].0 != fields[0].0 && fields[3].0 != fields[1].0 && fields[3].0 != fields[2].0
    ensures Lookup(fields, fields[0].0) == Some(fields[0].1) && Lookup(fields, fields[1].0) == Some(fields[1].1)
    ensures Lookup(fields, fields[2].0) == Some(fields[2].1) && Lookup(fields, fields[3].0) == Some(fields[3].1)
  {
    var t1, t2, t3 := fields[1..], fields[2..], fields[3..];
    assert t1[0] == fields[1] && t2[0] == fields[2] && t3[0] == fields[3];
    assert t1[1..] == t2 && t2[1..] == t3;
    assert Lookup(fields, fields[1].0) == Lookup(t1, fields[1].0);
    assert Lookup(fields, fields[2].0) == Lookup(t1, fields[2].0) == Lookup(t2, fields[2].0);
    assert Lookup(fields, fields[3].0) == Lookup(t1, fields[3].0) == Lookup(t2, fields[3].0) == Lookup(t3, fields[3].0);
  }

  /** `o[key]` / `o.get(key)`: only objects have fields. */
  function Get(j: Json, key: string): Option<Json> {
    if j.JObj? then Lookup(j.fields, key) else None
  }

  /** `o[key] = v`: the first entry with that key is replaced where it stands,
      otherwise the pair is appended. */
  function Put(fields: Fields, key: string, v: Json): Fields
  {
    if fields == [] then [(key, v)]
    else if fields[0].0 == key then [(key, v)] + fields[1..]
    else [fields[0]] + Put(fields[1..], key, v)
  }

  /** A write is seen by the next read of the same key and by no other key. */
  lemma {:induction false} PutLookup(fields: Fields, key: string, v: Json, other: string)
    ensures Lookup(Put(fields, key, v), key) == Some(v)
    ensures other != key ==> Lookup(Put(fields, key, v), other) == Lookup(fields, other)
  {
    if fields != [] && fields[0].0 != key {
      PutLookup(fields[1..], key, v, other);
    }
  }

  lemma KeysCons(p: (string, Json), rest: Fields)
    ensures Keys([p] + rest) == [p.0] + Keys(rest)
  {
  }

  /** Writing an existing key keeps every key where it was. */
  lemma {:induction false} PutKeys(fields: Fields, key: string, v: Json)
    requires key in Keys(fields)
    ensures Keys(Put(fields, key, v)) == Keys(fields)
  {
    var p, rest := fields[0], fields[1..];
    assert fields == [p] + rest;
    KeysCons(p, rest);
    if p.0 != key {
      PutKeys(rest, key, v);
      KeysCons(p, Put(rest, key, v));
    } else {
      KeysCons((key, v), rest);
    }
  }

  /** Writing a new key appends the pair at the end. */
  lemma {:induction false} PutAppends(fields: Fields, key: string, v: Json)
    requires key !in Keys(fields)
    ensures Put(fields, key, v) == fields + [(key, v)]
  {
    if fields != [] {
      var p, rest := fields[0], fields[1..];
      assert fields == [p] + rest;
      KeysCons(p, rest);
      PutAppends(rest, key, v);
      assert fields + [(key, v)] == [p] + (rest + [(key, v)]);
    }
  }

  /** Writes of several pairs, in order: the effect of `{...target, ...extra}`
      and of `Object.assign`. */
  function Assign(target: Fields, extra: Fields): Fields
    decreases |extra|
  {
    if extra == [] then target else Assign(Put(target, extra[0].0, extra[0].1), extra[1..])
  }

  /** After a spread, a key carried by the spread object has its value and
      every other key keeps the target's value. */
  lemma {:induction false} AssignLookup(target: Fields, extra: Fields, key: string)
    requires UniqueKeys(extra)
    ensures Lookup(Assign(target, extra), key) ==
      (if key in Keys(extra) then Lookup(extra, key) else Lookup(target, key))
    decreases |extra|
  {
    if extra != [] {
      var (k0, v0) := extra[0];
      assert Keys(extra) == [k0] + Keys(extra[1..]);
      assert UniqueKeys(extra[1..]);
      AssignLookup(Put(target, k0, v0), extra[1..], key);
      PutLookup(target, k0, v0, key);
      if key == k0 {
        assert key !in Keys(extra[1..]) by {
          forall i | 0 <= i < |extra[1..]| ensures extra[1..][i].0 != k0 {
            assert extra[1..][i] == extra[i + 1];
          }
        }
      }
    }
  }

  /** The own enumerable fields that `{...v}` copies out of a value: an
      object's fields, an array's or a string's indices, nothing otherwise. */
  function SpreadFields(v: Json): Fields {
    match v
    case JObj(fields) => fields
    case JArr(items) => seq(|items|, i requires 0 <= i < |items| => (NatToString(i), items[i]))
    case JStr(s) => seq(|s|, i requires 0 <= i < |s| => (NatToString(i), JStr([s[i]])))
    case _ => []
  }

  /** JavaScript truthiness of a possibly-undefined value. */
  predicate JsTruthy(v: Option<Json>) {
    match v
    case None => false
    case Some(JNull) => false
    case Some(JBool(b)) => b
    case Some(JInt(i)) => i != 0
    case Some(JFloat(r)) => r != 0.0
    case Some(JStr(s)) => s != ""
    case Some(_) => true
  }

  /** Python truthiness: unlike JavaScript, empty lists and dicts are false. */
  predicate PyTruthy(v: Json) {
    match v
    case JNull => false
    case JBool(b) => b
    case JInt(i) => i != 0
    case JFloat(r) => r != 0.0
    case JStr(s) => s != ""
    case JArr(items) => items != []
    case JObj(fields) => fields != []
  }

  /** Python's `isinstance(v, int)`, which `True` and `False` also satisfy. */
  predicate PyIsInt(v: Json) {
    v.JInt? || v.JBool?
  }

  /** The integer a Python int (or bool) stands for. */
  function PyIntValue(v: Json): int
    requires PyIsInt(v)
  {
    if v.JInt? then v.i else if v.b then 1 else 0
  }

  /** Python's `isinstance(v, (int, float))`. */
  predicate PyIsNumber(v: Json) {
    PyIsInt(v) || v.JFloat?
  }

  function PyNumberValue(v: Json): real
    requires PyIsNumber(v)
  {
    if v.JFloat? then v.r else PyIntValue(v) as real
  }

  function Str(s: string): Json { JStr(s) }
}
