/** The attribute write of `modify_resource_attribute`: the dotted path is split on every '.',
    and every segment is used as a dict key; missing keys on the way get a new empty dict. */
module AttributePath {
  import opened Outcomes
  import opened JsonValue

  /** The value reached by following `keys` as dict keys from `node`, if every step is a
      dict holding the key. */
  function GetPath(node: Json, keys: seq<string>): Option<Json>
    decreases |keys|
  {
    if |keys| == 0 then Some(node)
    else if !node.JObj? then None
    else match Lookup(node.members, keys[0])
      case None => None
      case Some(child) => GetPath(child, keys[1..])
  }

  /** The walk of core.py:110-120 on values: each key before the last descends into the
      existing value or into a new empty dict; the last key is assigned. A container that is
      not a dict raises TypeError (`in`, item access and item assignment with a str key). */
  function SetPath(node: Json, keys: seq<string>, v: Json): Result<Json>
    requires |keys| >= 1
    decreases |keys|
  {
    if !node.JObj? then Err(TypeError)
    else if |keys| == 1 then Ok(JObj(Put(node.members, keys[0], v)))
    else
      match SetPath(Child(node.members, keys[0]), keys[1..], v)
      case Err(f) => Err(f)
      case Ok(updated) => Ok(JObj(Put(node.members, keys[0], updated)))
  }

  /** The chain of fresh single-key dicts that a write along `keys` into an empty dict builds. */
  function Nest(keys: seq<string>, v: Json): Json
    requires |keys| >= 1
    decreases |keys|
  {
    if |keys| == 1 then JObj([(keys[0], v)]) else JObj([(keys[0], Nest(keys[1..], v))])
  }

  /** The path prefix `prefix` already leads to something that is not a dict. */
  predicate Blocked(node: Json, prefix: seq<string>)
  {
    GetPath(node, prefix).Some? && !GetPath(node, prefix).value.JObj?
  }

  /** Reassembles the dicts passed on the way down, innermost last, around a new child. */
  function Rebuild(frames: seq<seq<(string, Json)>>, keys: seq<string>, child: Json): Json
    requires |frames| == |keys|
    decreases |frames|
  {
    if |frames| == 0 then child
    else
      var n := |frames| - 1;
      Rebuild(frames[..n], keys[..n], JObj(Put(frames[n], keys[n], child)))
  }

  function Wrap(frames: seq<seq<(string, Json)>>, keys: seq<string>, inner: Result<Json>): Result<Json>
    requires |frames| == |keys|
  {
    match inner
    case Err(f) => Err(f)
    case Ok(child) => Ok(Rebuild(frames, keys, child))
  }

  /** The value a key before the last descends into: the existing one or a new empty dict. */
  function Child(members: seq<(string, Json)>, key: string): Json
  {
    match Lookup(members, key) case Some(c) => c case None => JObj([])
  }

  lemma SetPathStep(node: Json, keys: seq<string>, v: Json)
    requires node.JObj? && |keys| > 1
    ensures SetPath(node, keys, v)
         == Wrap([node.members], [keys[0]], SetPath(Child(node.members, keys[0]), keys[1..], v))
  {
    match SetPath(Child(node.members, keys[0]), keys[1..], v) {
      case Err(_) =>
      case Ok(c) =>
        assert Rebuild([node.members], [keys[0]], c) == JObj(Put(node.members, keys[0], c)) by {
          assert [node.members][..0] == [];
          assert [keys[0]][..0] == [];
        }
    }
  }

  lemma RebuildSnoc(frames: seq<seq<(string, Json)>>, keys: seq<string>,
                    f: seq<(string, Json)>, k: string, child: Json)
    requires |frames| == |keys|
    ensures Rebuild(frames + [f], keys + [k], child) == Rebuild(frames, keys, JObj(Put(f, k, child)))
  {
    assert (frames + [f])[..|frames|] == frames;
    assert (keys + [k])[..|keys|] == keys;
  }

  lemma DescendStep(frames: seq<seq<(string, Json)>>, keys: seq<string>, i: nat, current: Json, v: Json)
    requires i < |keys| - 1 && |frames| == i && current.JObj?
    ensures Wrap(frames, keys[..i], SetPath(current, keys[i..], v))
         == Wrap(frames + [current.members], keys[..i + 1], SetPath(Child(current.members, keys[i]), keys[i + 1..], v))
  {
    SetPathStep(current, keys[i..], v);
    assert keys[i..][1..] == keys[i + 1..];
    assert keys[..i + 1] == keys[..i] + [keys[i]];
    match SetPath(Child(current.members, keys[i]), keys[i + 1..], v) {
      case Err(_) =>
      case Ok(c) =>
        RebuildSnoc(frames, keys[..i], current.members, keys[i], c);
    }
  }

  lemma RebuildStep(frames: seq<seq<(string, Json)>>, keys: seq<string>, i: nat, acc: Json)
    requires 0 < i <= |frames| && |frames| <= |keys|
    ensures Rebuild(frames[..i], keys[..i], acc)
         == Rebuild(frames[..i - 1], keys[..i - 1], JObj(Put(frames[i - 1], keys[i - 1], acc)))
  {
    assert frames[..i][..i - 1] == frames[..i - 1];
    assert keys[..i][..i - 1] == keys[..i - 1];
  }

  lemma NotADictStep(frames: seq<seq<(string, Json)>>, keys: seq<string>, i: nat, current: Json, v: Json)
    requires i < |keys| && |frames| == i && !current.JObj?
    ensures Wrap(frames, keys[..i], SetPath(current, keys[i..], v)) == Err(TypeError)
  {
  }

  lemma LastKeyStep(frames: seq<seq<(string, Json)>>, keys: seq<string>, current: Json, v: Json)
    requires |keys| >= 1 && |frames| == |keys| - 1 && current.JObj?
    ensures Wrap(frames, keys[..|frames|], SetPath(current, keys[|frames|..], v))
         == Ok(Rebuild(frames[..|frames|], keys[..|frames|], JObj(Put(current.members, keys[|frames|], v))))
  {
    var i := |frames|;
    assert frames[..i] == frames;
    assert keys[i..] == [keys[i]];
  }

  /** The outermost dict of a write: a container that is not a dict fails with TypeError, and a
      successful write yields a dict that holds the first key and agrees with the old one on
      every other key. The contract is kept off SetPath itself, whose unfoldings are costly. */
  lemma SetPathTopLevel(node: Json, keys: seq<string>, v: Json, k: string)
    requires |keys| >= 1
    ensures !node.JObj? ==> SetPath(node, keys, v) == Err(TypeError)
    ensures SetPath(node, keys, v).Ok? ==>
              && node.JObj? && SetPath(node, keys, v).value.JObj?
              && HasKey(SetPath(node, keys, v).value.members, keys[0])
              && (k != keys[0] ==> Lookup(SetPath(node, keys, v).value.members, k) == Lookup(node.members, k))
  {
  }

  /** After a successful write, reading the path back gives the written value. */
  lemma {:induction false} SetPathReadBack(node: Json, keys: seq<string>, v: Json)
    requires |keys| >= 1 && SetPath(node, keys, v).Ok?
    ensures GetPath(SetPath(node, keys, v).value, keys) == Some(v)
    decreases |keys|
  {
    if |keys| > 1 {
      SetPathReadBack(Child(node.members, keys[0]), keys[1..], v);
    }
  }

  /** A successful write along more than one key, one level unfolded. */
  lemma SetPathUnfold(node: Json, keys: seq<string>, v: Json)
    requires |keys| > 1 && SetPath(node, keys, v).Ok?
    ensures node.JObj? && SetPath(Child(node.members, keys[0]), keys[1..], v).Ok?
    ensures SetPath(node, keys, v).value
         == JObj(Put(node.members, keys[0], SetPath(Child(node.members, keys[0]), keys[1..], v).value))
  {
  }

  /** Reading through a dict after `d[key] = x`: the path either enters x or is read as before. */
  lemma GetPathPut(members: seq<(string, Json)>, key: string, x: Json, p: seq<string>)
    requires |p| >= 1
    ensures GetPath(JObj(Put(members, key, x)), p)
         == if p[0] == key then GetPath(x, p[1..]) else GetPath(JObj(members), p)
  {
  }

  /** Reading a path of two or more keys goes through the child a write would descend into. */
  lemma GetPathChild(node: Json, p: seq<string>)
    requires node.JObj? && |p| >= 2
    ensures GetPath(node, p) == GetPath(Child(node.members, p[0]), p[1..])
  {
    if Lookup(node.members, p[0]).None? {
      NothingBelowEmpty(p[1..]);
    }
  }

  /** Two paths that agree on `d > 0` leading segments and then differ still do so one
      segment further down. */
  lemma BranchTail(keys: seq<string>, other: seq<string>, d: nat)
    requires 0 < d < |keys| && d < |other| && other[..d] == keys[..d] && other[d] != keys[d]
    ensures other[0] == keys[0]
    ensures other[1..][..d - 1] == keys[1..][..d - 1] && other[1..][d - 1] != keys[1..][d - 1]
  {
    assert other[..d][0] == keys[..d][0];
    assert other[1..][..d - 1] == other[..d][1..];
    assert keys[1..][..d - 1] == keys[..d][1..];
  }

  /** One level of SetPathElsewhere, given the claim one level down. */
  lemma ElsewhereStep(node: Json, keys: seq<string>, v: Json, other: seq<string>)
    requires |keys| > 1 && |other| >= 2 && other[0] == keys[0] && SetPath(node, keys, v).Ok?
    requires SetPath(Child(node.members, keys[0]), keys[1..], v).Ok? ==>
               GetPath(SetPath(Child(node.members, keys[0]), keys[1..], v).value, other[1..])
               == GetPath(Child(node.members, keys[0]), other[1..])
    ensures GetPath(SetPath(node, keys, v).value, other) == GetPath(node, other)
  {
    SetPathUnfold(node, keys, v);
    GetPathPut(node.members, keys[0], SetPath(Child(node.members, keys[0]), keys[1..], v).value, other);
    GetPathChild(node, other);
  }

  /** A successful write leaves every path that branches off the written one unchanged:
      `other` agrees with `keys` on its first `d` segments and differs at segment `d`. */
  lemma {:induction false} SetPathElsewhere(node: Json, keys: seq<string>, v: Json, other: seq<string>, d: nat)
    requires |keys| >= 1 && SetPath(node, keys, v).Ok?
    requires d < |keys| && d < |other| && other[..d] == keys[..d] && other[d] != keys[d]
    ensures GetPath(SetPath(node, keys, v).value, other) == GetPath(node, other)
    decreases |keys|
  {
    if d == 0 {
      SetPathTopLevel(node, keys, v, other[0]);
    } else {
      BranchTail(keys, other, d);
      SetPathUnfold(node, keys, v);
      SetPathElsewhere(Child(node.members, keys[0]), keys[1..], v, other[1..], d - 1);
      ElsewhereStep(node, keys, v, other);
    }
  }

  /** An empty dict holds no path but the empty one. */
  lemma NothingBelowEmpty(p: seq<string>)
    requires |p| >= 1
    ensures GetPath(JObj([]), p) == None
  {
  }

  /** A write along a path into an empty dict builds exactly the chain of single-key dicts. */
  lemma {:induction false} SetPathIntoEmpty(keys: seq<string>, v: Json)
    requires |keys| >= 1
    ensures SetPath(JObj([]), keys, v) == Ok(Nest(keys, v))
    decreases |keys|
  {
    if |keys| > 1 {
      SetPathIntoEmpty(keys[1..], v);
    }
  }

  lemma {:induction false} GetPathInNest(keys: seq<string>, v: Json, j: nat)
    requires j < |keys|
    ensures GetPath(Nest(keys, v), keys[..j]) == Some(Nest(keys[j..], v))
    decreases j
  {
    if j > 0 {
      assert keys[..j][1..] == keys[1..][..j - 1];
      assert keys[1..][j - 1..] == keys[j..];
      GetPathInNest(keys[1..], v, j - 1);
    }
  }

  /** The prefix of length `j > 0` seen from one level down. */
  lemma PrefixTail(keys: seq<string>, j: nat)
    requires 0 < j < |keys|
    ensures keys[..j][0] == keys[0] && keys[..j][1..] == keys[1..][..j - 1]
    ensures keys[1..][j - 1..] == keys[j..]
  {
  }

  /** One level of SetPathVivifies, given the claim about the rewritten child. */
  lemma VivifyStep(node: Json, keys: seq<string>, v: Json, j: nat)
    requires 0 < j < |keys| && SetPath(node, keys, v).Ok?
    requires SetPath(Child(node.members, keys[0]), keys[1..], v).Ok? ==>
               GetPath(SetPath(Child(node.members, keys[0]), keys[1..], v).value, keys[1..][..j - 1])
               == Some(Nest(keys[1..][j - 1..], v))
    ensures GetPath(SetPath(node, keys, v).value, keys[..j]) == Some(Nest(keys[j..], v))
  {
    PrefixTail(keys, j);
    SetPathUnfold(node, keys, v);
    GetPathPut(node.members, keys[0], SetPath(Child(node.members, keys[0]), keys[1..], v).value, keys[..j]);
  }

  /** Auto-vivification: where a proper prefix of the path led nowhere before a successful
      write, it now leads to a new dict holding only the rest of the path. */
  lemma {:induction false} SetPathVivifies(node: Json, keys: seq<string>, v: Json, j: nat)
    requires |keys| >= 1 && SetPath(node, keys, v).Ok?
    requires j < |keys| && GetPath(node, keys[..j]) == None
    ensures GetPath(SetPath(node, keys, v).value, keys[..j]) == Some(Nest(keys[j..], v))
    decreases |keys|
  {
    assert keys[..0] == [];
    PrefixTail(keys, j);
    SetPathUnfold(node, keys, v);
    match Lookup(node.members, keys[0]) {
      case None =>
        SetPathIntoEmpty(keys[1..], v);
        GetPathInNest(keys[1..], v, j - 1);
      case Some(c) =>
        SetPathVivifies(c, keys[1..], v, j - 1);
    }
    VivifyStep(node, keys, v, j);
  }

  /** A failing write fails with TypeError at a prefix of the path that is blocked. */
  lemma {:induction false} FailureBlocked(node: Json, keys: seq<string>, v: Json) returns (j: nat)
    requires |keys| >= 1 && SetPath(node, keys, v).Err?
    ensures j < |keys| && Blocked(node, keys[..j])
    ensures SetPath(node, keys, v) == Err(TypeError)
    decreases |keys|
  {
    if !node.JObj? {
      j := 0;
      assert keys[..0] == [];
    } else {
      var child := Child(node.members, keys[0]);
      var k := FailureBlocked(child, keys[1..], v);
      j := k + 1;
      assert keys[..j][1..] == keys[1..][..k];
    }
  }

  /** A write along a path with a blocked prefix fails. */
  lemma {:induction false} BlockedFails(node: Json, keys: seq<string>, v: Json, j: nat)
    requires |keys| >= 1 && j < |keys| && Blocked(node, keys[..j])
    ensures SetPath(node, keys, v).Err?
    decreases |keys|
  {
    if j == 0 {
      assert keys[..0] == [];
    } else {
      assert keys[..j][0] == keys[0];
      assert keys[..j][1..] == keys[1..][..j - 1];
      BlockedFails(Child(node.members, keys[0]), keys[1..], v, j - 1);
    }
  }

  /** The write fails exactly when some proper prefix of the path already leads to a value
      that is not a dict; so a failing write fails before it has inserted anything. */
  lemma SetPathFailsIff(node: Json, keys: seq<string>, v: Json)
    requires |keys| >= 1
    ensures SetPath(node, keys, v).Err? <==> exists j :: 0 <= j < |keys| && Blocked(node, keys[..j])
    ensures SetPath(node, keys, v).Err? ==> SetPath(node, keys, v) == Err(TypeError)
  {
    if SetPath(node, keys, v).Err? {
      var j := FailureBlocked(node, keys, v);
    }
    if exists j :: 0 <= j < |keys| && Blocked(node, keys[..j]) {
      var j :| 0 <= j < |keys| && Blocked(node, keys[..j]);
      BlockedFails(node, keys, v, j);
    }
  }

  /** A successful write of a well-formed value keeps the tree well-formed. */
  lemma {:induction false} SetPathWellFormed(node: Json, keys: seq<string>, v: Json)
    requires |keys| >= 1 && SetPath(node, keys, v).Ok?
    requires WellFormed(node) && WellFormed(v)
    ensures WellFormed(SetPath(node, keys, v).value)
    decreases |keys|
  {
    if |keys| == 1 {
      PutWellFormed(node.members, keys[0], v);
    } else {
      var child := Child(node.members, keys[0]);
      assert WellFormed(child) by {
        if Lookup(node.members, keys[0]).Some? {
          var i :| 0 <= i < |node.members| && node.members[i] == (keys[0], child);
        }
      }
      SetPathWellFormed(child, keys[1..], v);
      PutWellFormed(node.members, keys[0], SetPath(child, keys[1..], v).value);
    }
  }

  /** The walk of core.py:110-120 as a loop. Python mutates the nested dicts in place through
      the alias `current`; on values, the dicts passed on the way down are kept in `frames`
      and put back together once the last key is assigned. */
  method WriteAttribute(resource: Json, keys: seq<string>, value: Json) returns (r: Result<Json>)
    requires |keys| >= 1
    ensures r == SetPath(resource, keys, value)
  {
    var frames: seq<seq<(string, Json)>> := [];
    var current := resource;
    var i := 0;
    while i < |keys| - 1
      invariant 0 <= i <= |keys| - 1
      invariant |frames| == i
      invariant SetPath(resource, keys, value) == Wrap(frames, keys[..i], SetPath(current, keys[i..], value))
    {
      if !current.JObj? {
        NotADictStep(frames, keys, i, current, value);
        return Err(TypeError);
      }
      DescendStep(frames, keys, i, current, value);
      frames := frames + [current.members];
      current := Child(current.members, keys[i]);
      i := i + 1;
    }
    if !current.JObj? {
      NotADictStep(frames, keys, i, current, value);
      return Err(TypeError);
    }
    LastKeyStep(frames, keys, current, value);
    var acc := JObj(Put(current.members, keys[i], value));
    while i > 0
      invariant 0 <= i <= |frames|
      invariant SetPath(resource, keys, value) == Ok(Rebuild(frames[..i], keys[..i], acc))
    {
      RebuildStep(frames, keys, i, acc);
      i := i - 1;
      acc := JObj(Put(frames[i], keys[i], acc));
    }
    return Ok(acc);
  }
}
