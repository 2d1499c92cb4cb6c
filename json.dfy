/** JSON values as Python's json module hands them over: objects are dicts that keep
    insertion order, so an object is a sequence of (key, value) members. */
module JsonValue {
  import opened Outcomes
  import Text

  datatype Json =
    | JNull
    | JBool(b: bool)
    | JNum(n: int)
    | JStr(s: string)
    | JArr(elems: seq<Json>)
    | JObj(members: seq<(string, Json)>)

  /** `d.get(key)`: the value of the first member named `key`. */
  function Lookup(members: seq<(string, Json)>, key: string): (r: Option<Json>)
    ensures r.None? <==> forall i :: 0 <= i < |members| ==> members[i].0 != key
    ensures r.Some? ==> exists i :: 0 <= i < |members| && members[i] == (key, r.value)
  {
    if |members| == 0 then None
    else if members[0].0 == key then Some(members[0].1)
    else
      var r := Lookup(members[1..], key);
      assert forall i :: 1 <= i < |members| ==> members[i] == members[1..][i - 1];
      r
  }

  /** `key in d` */
  predicate HasKey(members: seq<(string, Json)>, key: string)
  {
    Lookup(members, key).Some?
  }

  /** Assigning to a key that is present keeps every key where it was. */
  lemma PutKeepsKeys(members: seq<(string, Json)>, key: string, v: Json)
    requires HasKey(members, key)
    ensures |Put(members, key, v)| == |members|
    ensures forall j :: 0 <= j < |members| ==> Put(members, key, v)[j].0 == members[j].0
  {
  }

  /** Two assignments to keys that are both present keep every key where it was. */
  lemma PutTwiceKeepsKeys(members: seq<(string, Json)>, k1: string, v1: Json, k2: string, v2: Json)
    requires HasKey(members, k1) && HasKey(members, k2)
    ensures |Put(Put(members, k1, v1), k2, v2)| == |members|
    ensures forall j :: 0 <= j < |members| ==> Put(Put(members, k1, v1), k2, v2)[j].0 == members[j].0
  {
    PutKeepsKeys(members, k1, v1);
    if k1 != k2 {
      assert Lookup(Put(members, k1, v1), k2) == Lookup(members, k2);
    }
    PutKeepsKeys(Put(members, k1, v1), k2, v2);
  }

  /** The member list after `d[key] = v`, as a plain recursion. Put below states its contract
      on top of this body; the two are kept apart because the recursive calls' proofs are
      cheaper against the bare recursion. */
  function Assign(members: seq<(string, Json)>, key: string, v: Json): seq<(string, Json)>
  {
    if |members| == 0 then [(key, v)]
    else if members[0].0 == key then [(key, v)] + members[1..]
    else [members[0]] + Assign(members[1..], key, v)
  }

  lemma {:induction false} AssignLookup(members: seq<(string, Json)>, key: string, v: Json, k: string)
    ensures Lookup(Assign(members, key, v), k) == if k == key then Some(v) else Lookup(members, k)
  {
    if |members| > 0 && members[0].0 != key {
      var rest := Assign(members[1..], key, v);
      assert ([members[0]] + rest)[1..] == rest;
      AssignLookup(members[1..], key, v, k);
    } else if |members| > 0 {
      assert ([(key, v)] + members[1..])[1..] == members[1..];
    }
  }

  lemma {:induction false} AssignShape(members: seq<(string, Json)>, key: string, v: Json)
    ensures HasKey(members, key) ==>
              && |Assign(members, key, v)| == |members|
              && forall i :: 0 <= i < |members| ==> Assign(members, key, v)[i].0 == members[i].0
    ensures !HasKey(members, key) ==> Assign(members, key, v) == members + [(key, v)]
    ensures forall i :: 0 <= i < |Assign(members, key, v)| ==>
              Assign(members, key, v)[i] == (key, v) || Assign(members, key, v)[i] in members
  {
    if |members| > 0 && members[0].0 != key {
      var rest := Assign(members[1..], key, v);
      var r := [members[0]] + rest;
      AssignShape(members[1..], key, v);
      assert r[1..] == rest;
      assert HasKey(members, key) == HasKey(members[1..], key);
      forall i | 0 <= i < |r| ensures r[i] == (key, v) || r[i] in members {
        if i > 0 {
          assert r[i] == rest[i - 1];
          if rest[i - 1] in members[1..] {
            var j :| 0 <= j < |members[1..]| && members[1..][j] == rest[i - 1];
            assert members[j + 1] == r[i];
          }
        }
      }
      if HasKey(members, key) {
        forall i | 0 <= i < |members| ensures r[i].0 == members[i].0 {
          if i > 0 { assert r[i] == rest[i - 1] && members[i] == members[1..][i - 1]; }
        }
      } else {
        assert members == [members[0]] + members[1..];
      }
    } else if |members| > 0 {
      var r := [(key, v)] + members[1..];
      forall i | 0 <= i < |r| ensures r[i] == (key, v) || r[i] in members {
        if i > 0 { assert r[i] == members[i]; }
      }
    }
  }

  /** `d[key] = v`: an existing key keeps its position, a new key goes at the end. */
  function Put(members: seq<(string, Json)>, key: string, v: Json): (r: seq<(string, Json)>)
    ensures Lookup(r, key) == Some(v)
    ensures forall k :: k != key ==> Lookup(r, k) == Lookup(members, k)
    ensures HasKey(members, key) ==>
              |r| == |members| && forall i :: 0 <= i < |r| ==> r[i].0 == members[i].0
    ensures !HasKey(members, key) ==> r == members + [(key, v)]
    ensures forall i :: 0 <= i < |r| ==> r[i] == (key, v) || r[i] in members
  {
    AssignLookup(members, key, v, key);
    assert forall k :: k != key ==> Lookup(Assign(members, key, v), k) == Lookup(members, k) by {
      forall k | k != key ensures Lookup(Assign(members, key, v), k) == Lookup(members, k) {
        AssignLookup(members, key, v, k);
      }
    }
    AssignShape(members, key, v);
    Assign(members, key, v)
  }

  /** No key occurs twice: a Python dict. */
  ghost predicate DistinctKeys(members: seq<(string, Json)>)
  {
    forall i, j :: 0 <= i < j < |members| ==> members[i].0 != members[j].0
  }

  /** Every object in the tree has distinct keys, as json.load produces. */
  ghost predicate WellFormed(v: Json)
  {
    match v
    case JArr(elems) => forall i :: 0 <= i < |elems| ==> WellFormed(elems[i])
    case JObj(members) =>
      DistinctKeys(members) && forall i :: 0 <= i < |members| ==> WellFormed(members[i].1)
    case _ => true
  }

  /** Assigning a well-formed value into a dict keeps it a well-formed dict. */
  lemma PutWellFormed(members: seq<(string, Json)>, key: string, v: Json)
    requires WellFormed(JObj(members)) && WellFormed(v)
    ensures WellFormed(JObj(Put(members, key, v)))
  {
    var r := Put(members, key, v);
    assert DistinctKeys(r) by {
      if !HasKey(members, key) {
        assert forall i :: 0 <= i < |members| ==> members[i].0 != key;
      }
    }
    forall i | 0 <= i < |r| ensures WellFormed(r[i].1) {
      if r[i] != (key, v) {
        var j :| 0 <= j < |members| && members[j] == r[i];
        assert WellFormed(members[j].1);
      }
    }
  }

  /** The values held by a well-formed dict are well-formed. */
  lemma LookupWellFormed(members: seq<(string, Json)>, key: string)
    requires WellFormed(JObj(members)) && HasKey(members, key)
    ensures WellFormed(Lookup(members, key).value)
  {
    var i :| 0 <= i < |members| && members[i] == (key, Lookup(members, key).value);
  }

  /** In a dict with distinct keys, a key's lookup is the value stored with it. */
  lemma LookupDistinct(members: seq<(string, Json)>, i: nat)
    requires DistinctKeys(members) && i < |members|
    ensures Lookup(members, members[i].0) == Some(members[i].1)
  {
  }

  /** Python's str() of a JSON value, as an f-string interpolates it. */
  function PyStr(v: Json): string
  {
    if v.JStr? then v.s else Repr(v)
  }

  /** Python's repr() of a JSON value. String escaping inside quotes is not modelled. */
  function Repr(v: Json): (r: string)
    decreases v, 1, 0
    ensures |r| >= 1
    ensures r[0] == 'N' <==> v.JNull?
    ensures (r[0] == 'T' || r[0] == 'F') <==> v.JBool?
    ensures (r[0] == '-' || '0' <= r[0] <= '9') <==> v.JNum?
    ensures r[0] == '\'' <==> v.JStr?
    ensures r[0] == '[' <==> v.JArr?
    ensures r[0] == '{' <==> v.JObj?
    ensures v.JStr? || v.JArr? || v.JObj? ==> |r| >= 2 && r[|r| - 1] == (if v.JStr? then '\'' else if v.JArr? then ']' else '}')
  {
    match v
    case JNull => "None"
    case JBool(b) => if b then "True" else "False"
    case JNum(n) => Text.IntToDecimal(n)
    case JStr(s) => "'" + s + "'"
    case JArr(elems) => "[" + ReprElems(v, 0) + "]"
    case JObj(members) => "{" + ReprMembers(v, 0) + "}"
  }

  function ReprElems(v: Json, i: nat): string
    requires v.JArr? && i <= |v.elems|
    decreases v, 0, |v.elems| - i
  {
    if i == |v.elems| then ""
    else (if i == 0 then "" else ", ") + Repr(v.elems[i]) + ReprElems(v, i + 1)
  }

  function ReprMembers(v: Json, i: nat): string
    requires v.JObj? && i <= |v.members|
    decreases v, 0, |v.members| - i
  {
    if i == |v.members| then ""
    else
      (if i == 0 then "" else ", ") + "'" + v.members[i].0 + "': " + Repr(v.members[i].1)
      + ReprMembers(v, i + 1)
  }
}
