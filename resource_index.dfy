/** The `resources` list of a state document and the address-keyed operations that read it:
    lookup of the first match, summary listing, and the filter that deletion applies. */
module ResourceIndex {
  import opened Outcomes
  import opened JsonValue
  import opened Text

  /** `state_data.get("resources", [])` */
  function ResourcesOf(doc: Json): Json
    requires doc.JObj?
  {
    match Lookup(doc.members, "resources") case Some(v) => v case None => JArr([])
  }

  /** What a Python `for x in v` yields for a JSON value: the elements of a list, the keys
      of a dict, the characters of a str; any other value raises TypeError. */
  function Iterate(v: Json): (r: Result<seq<Json>>)
    ensures r.Ok? <==> v.JArr? || v.JObj? || v.JStr?
    ensures r.Err? ==> r == Err(TypeError)
    ensures v.JArr? ==> r == Ok(v.elems)
    ensures v.JObj? ==> r.Ok? && |r.value| == |v.members|
    ensures v.JObj? ==> forall i :: 0 <= i < |v.members| ==> r.value[i] == JStr(v.members[i].0)
    ensures v.JStr? ==> r.Ok? && |r.value| == |v.s|
    ensures v.JStr? ==> forall i :: 0 <= i < |v.s| ==> r.value[i] == JStr([v.s[i]])
  {
    match v
    case JArr(elems) => Ok(elems)
    case JObj(members) => Ok(seq(|members|, i requires 0 <= i < |members| => JStr(members[i].0)))
    case JStr(s) => Ok(seq(|s|, i requires 0 <= i < |s| => JStr([s[i]])))
    case _ => Err(TypeError)
  }

  /** `resource.get("type") == t and resource.get("name") == n` on a dict; a resource with
      that address is listed under the address `t.n`. */
  predicate HasAddress(resource: Json, t: string, n: string): (b: bool)
    ensures b <==> resource.JObj? && GetOrNull(resource.members, "type") == JStr(t)
                   && GetOrNull(resource.members, "name") == JStr(n)
    ensures b ==> AddressPart(resource.members, "type") == t && AddressPart(resource.members, "name") == n
  {
    && resource.JObj?
    && Lookup(resource.members, "type") == Some(JStr(t))
    && Lookup(resource.members, "name") == Some(JStr(n))
  }

  /** The first `k` items are dicts and none of them has address (t, n). */
  predicate Passed(items: seq<Json>, k: nat, t: string, n: string)
    requires k <= |items|
  {
    forall j :: 0 <= j < k ==> items[j].JObj? && !HasAddress(items[j], t, n)
  }

  /** The search of get_resource as a plain recursion. FindFirst below states its contract on
      top of this body; the two are kept apart because the recursive calls' proofs are cheaper
      against the bare recursion. */
  function Search(items: seq<Json>, t: string, n: string): Result<Option<nat>>
  {
    if |items| == 0 then Ok(None)
    else if !items[0].JObj? then Err(AttributeError)
    else if HasAddress(items[0], t, n) then Ok(Some(0))
    else
      match Search(items[1..], t, n)
      case Err(f) => Err(f)
      case Ok(None) => Ok(None)
      case Ok(Some(i)) => Ok(Some(i + 1))
  }

  /** Passing the first item and then k more is passing k + 1. */
  lemma PassedTail(items: seq<Json>, k: nat, t: string, n: string)
    requires 0 < |items| && k < |items|
    ensures Passed(items, k + 1, t, n) <==> items[0].JObj? && !HasAddress(items[0], t, n) && Passed(items[1..], k, t, n)
  {
    assert forall j :: 1 <= j < |items| ==> items[j] == items[1..][j - 1];
  }

  lemma {:induction false} SearchFound(items: seq<Json>, t: string, n: string)
    requires Search(items, t, n).Ok? && Search(items, t, n).value.Some?
    ensures var i := Search(items, t, n).value.value;
            i < |items| && HasAddress(items[i], t, n) && Passed(items, i, t, n)
  {
    var i := Search(items, t, n).value.value;
    if i > 0 {
      SearchFound(items[1..], t, n);
      PassedTail(items, i - 1, t, n);
    }
  }

  lemma {:induction false} SearchNone(items: seq<Json>, t: string, n: string)
    ensures Search(items, t, n) == Ok(None) <==> Passed(items, |items|, t, n)
  {
    if |items| > 0 {
      SearchNone(items[1..], t, n);
      PassedTail(items, |items| - 1, t, n);
    }
  }

  lemma {:induction false} SearchErr(items: seq<Json>, t: string, n: string)
    requires Search(items, t, n).Err?
    ensures Search(items, t, n) == Err(AttributeError)
    ensures exists j :: 0 <= j < |items| && !items[j].JObj? && Passed(items, j, t, n)
  {
    if items[0].JObj? {
      SearchErr(items[1..], t, n);
      var j :| 0 <= j < |items| - 1 && !items[1..][j].JObj? && Passed(items[1..], j, t, n);
      PassedTail(items, j, t, n);
      assert !items[j + 1].JObj?;
    } else {
      assert Passed(items, 0, t, n);
    }
  }

  /** The loop of get_resource (core.py:84-89): the index of the first item with address
      (t, n); `.get` on an item that is not a dict raises AttributeError first. */
  function FindFirst(items: seq<Json>, t: string, n: string): (r: Result<Option<nat>>)
    ensures r.Ok? && r.value.Some? ==>
              && r.value.value < |items|
              && HasAddress(items[r.value.value], t, n)
              && Passed(items, r.value.value, t, n)
    ensures r == Ok(None) <==> Passed(items, |items|, t, n)
    ensures r.Err? ==>
              && r == Err(AttributeError)
              && exists j :: 0 <= j < |items| && !items[j].JObj? && Passed(items, j, t, n)
  {
    var r := Search(items, t, n);
    if r.Ok? && r.value.Some? then SearchFound(items, t, n); r
    else if r.Err? then SearchErr(items, t, n); r
    else SearchNone(items, t, n); r
  }

  /** The loop of get_resource (core.py:84-89), returning early at the first match. */
  method FindFirstMatch(items: seq<Json>, t: string, n: string) returns (r: Result<Option<nat>>)
    ensures r == FindFirst(items, t, n)
  {
    var i := 0;
    while i < |items|
      invariant 0 <= i <= |items|
      invariant Passed(items, i, t, n)
    {
      if !items[i].JObj? {
        return Err(AttributeError);
      }
      if HasAddress(items[i], t, n) {
        return Ok(Some(i));
      }
      i := i + 1;
    }
    return Ok(None);
  }

  /** get_resource (core.py:77-89) as an index into the resources: the address is split at
      its first '.', and an address without one raises ValueError. */
  function Locate(doc: Json, address: string): (r: Result<Option<nat>>)
    requires doc.JObj?
    ensures '.' !in address <==> r == Err(InvalidAddress(address))
    ensures r.Ok? && r.value.Some? ==>
              && ResourcesOf(doc).JArr?
              && r.value.value < |ResourcesOf(doc).elems|
              && HasAddress(ResourcesOf(doc).elems[r.value.value], SplitFirst(address).value.0,
                            SplitFirst(address).value.1)
  {
    match SplitFirst(address)
    case None => Err(InvalidAddress(address))
    case Some((t, n)) =>
      match Iterate(ResourcesOf(doc))
      case Err(f) => Err(f)
      case Ok(items) => FindFirst(items, t, n)
  }

  /** Every address with a '.' splits back into the text before and after its first '.'. */
  lemma SplitFirstJoin(t: string, n: string)
    requires '.' !in t
    ensures SplitFirst(t + "." + n) == Some((t, n))
  {
    FirstDotAfterPart(t, n);
    var s := t + "." + n;
    assert s[..|t|] == t && s[|t| + 1..] == n;
  }

  /** One entry of list_resources (core.py:58-64). */
  datatype Summary = Summary(address: string, rtype: Json, name: Json, mode: Json, instances: nat)

  /** `resource.get(key)`, where Python's None and JSON null are the same value. */
  function GetOrNull(members: seq<(string, Json)>, key: string): Json
  {
    match Lookup(members, key) case Some(v) => v case None => JNull
  }

  /** `resource.get(key, 'unknown')` as the f-string renders it. */
  function AddressPart(members: seq<(string, Json)>, key: string): string
  {
    match Lookup(members, key) case Some(v) => PyStr(v) case None => "unknown"
  }

  /** `len(resource.get("instances", []))`: len of a list, dict or str; anything else raises. */
  function InstanceCount(members: seq<(string, Json)>): (r: Result<nat>)
    ensures !HasKey(members, "instances") ==> r == Ok(0)
    ensures HasKey(members, "instances") ==>
              var it := Iterate(Lookup(members, "instances").value);
              && (r.Ok? <==> it.Ok?)
              && (r.Ok? ==> r.value == |it.value|)
    ensures r.Err? ==> r == Err(TypeError)
  {
    match Lookup(members, "instances")
    case None => Ok(0)
    case Some(JArr(elems)) => Ok(|elems|)
    case Some(JObj(m)) => Ok(|m|)
    case Some(JStr(s)) => Ok(|s|)
    case Some(_) => Err(TypeError)
  }

  /** The summary dict built for one resource, before any filter is applied. */
  function Summarize(resource: Json): (r: Result<Summary>)
    ensures r.Ok? <==> resource.JObj? && InstanceCount(resource.members).Ok?
    ensures !resource.JObj? ==> r == Err(AttributeError)
    ensures r.Err? ==> r == Err(AttributeError) || r == Err(TypeError)
    ensures r.Ok? ==>
              && r.value.address
                 == (if HasKey(resource.members, "type") then PyStr(Lookup(resource.members, "type").value)
                     else "unknown")
                    + "." +
                    (if HasKey(resource.members, "name") then PyStr(Lookup(resource.members, "name").value)
                     else "unknown")
              && (if HasKey(resource.members, "type") then Lookup(resource.members, "type") == Some(r.value.rtype)
                  else r.value.rtype == JNull)
              && (if HasKey(resource.members, "name") then Lookup(resource.members, "name") == Some(r.value.name)
                  else r.value.name == JNull)
              && (if HasKey(resource.members, "mode") then Lookup(resource.members, "mode") == Some(r.value.mode)
                  else r.value.mode == JStr("managed"))
              && InstanceCount(resource.members) == Ok(r.value.instances)
  {
    if !resource.JObj? then Err(AttributeError)
    else
      var m := resource.members;
      match InstanceCount(m)
      case Err(f) => Err(f)
      case Ok(count) =>
        Ok(Summary(
          AddressPart(m, "type") + "." + AddressPart(m, "name"),
          GetOrNull(m, "type"),
          GetOrNull(m, "name"),
          match Lookup(m, "mode") case Some(v) => v case None => JStr("managed"),
          count))
  }

  /** A filter argument is applied only when it is truthy: given and non-empty. */
  predicate Active(filter: Option<string>)
  {
    filter.Some? && filter.value != ""
  }

  /** The two filters of core.py:67-71; `fnmatch` stands for fnmatch.fnmatch(address, pattern). */
  predicate Kept(s: Summary, typeFilter: Option<string>, pattern: Option<string>,
                 fnmatch: (string, string) -> bool)
  {
    && (!Active(typeFilter) || s.rtype == JStr(typeFilter.value))
    && (!Active(pattern) || fnmatch(s.address, pattern.value))
  }

  /** The loop of list_resources (core.py:57-75) over the iterated resources. */
  function Listing(items: seq<Json>, typeFilter: Option<string>, pattern: Option<string>,
                   fnmatch: (string, string) -> bool): (r: Result<seq<Summary>>)
    ensures r.Ok? ==> |r.value| <= |items|
    ensures r.Ok? ==> forall i :: 0 <= i < |r.value| ==> Kept(r.value[i], typeFilter, pattern, fnmatch)
    ensures r.Err? ==> r == Err(AttributeError) || r == Err(TypeError)
  {
    if |items| == 0 then Ok([])
    else match Summarize(items[0])
      case Err(f) => Err(f)
      case Ok(s) =>
        match Listing(items[1..], typeFilter, pattern, fnmatch)
        case Err(f) => Err(f)
        case Ok(rest) => Ok(if Kept(s, typeFilter, pattern, fnmatch) then [s] + rest else rest)
  }

  /** The result of a loop that has collected `acc` and still has to collect `rest`. */
  function Prepend<T>(acc: seq<T>, rest: Result<seq<T>>): Result<seq<T>>
  {
    match rest
    case Err(f) => Err(f)
    case Ok(tail) => Ok(acc + tail)
  }

  /** Nothing collected yet: the loop's result is what remains to be collected. */
  lemma PrependNil<T>(rest: Result<seq<T>>)
    ensures Prepend([], rest) == rest
  {
    if rest.Ok? {
      assert [] + rest.value == rest.value;
    }
  }

  /** One more item collected by a loop that is described by Prepend. */
  lemma PrependStep<T>(acc: seq<T>, x: T, rest: Result<seq<T>>)
    ensures Prepend(acc, Prepend([x], rest)) == Prepend(acc + [x], rest)
  {
    if rest.Ok? {
      assert acc + ([x] + rest.value) == (acc + [x]) + rest.value;
    }
  }

  /** Listing on a suffix, one item unfolded. */
  lemma ListingStep(items: seq<Json>, i: nat, typeFilter: Option<string>, pattern: Option<string>,
                    fnmatch: (string, string) -> bool)
    requires i < |items|
    ensures Summarize(items[i]).Err? ==>
              Listing(items[i..], typeFilter, pattern, fnmatch) == Err(Summarize(items[i]).fault)
    ensures Summarize(items[i]).Ok? && Kept(Summarize(items[i]).value, typeFilter, pattern, fnmatch) ==>
              Listing(items[i..], typeFilter, pattern, fnmatch)
              == Prepend([Summarize(items[i]).value], Listing(items[i + 1..], typeFilter, pattern, fnmatch))
    ensures Summarize(items[i]).Ok? && !Kept(Summarize(items[i]).value, typeFilter, pattern, fnmatch) ==>
              Listing(items[i..], typeFilter, pattern, fnmatch)
              == Listing(items[i + 1..], typeFilter, pattern, fnmatch)
  {
    assert items[i..][0] == items[i] && items[i..][1..] == items[i + 1..];
  }

  /** The loop of list_resources (core.py:57-75), collecting the summaries the filters keep. */
  method ListMatching(items: seq<Json>, typeFilter: Option<string>, pattern: Option<string>,
                      fnmatch: (string, string) -> bool) returns (r: Result<seq<Summary>>)
    ensures r == Listing(items, typeFilter, pattern, fnmatch)
  {
    var acc: seq<Summary> := [];
    var i := 0;
    PrependNil(Listing(items, typeFilter, pattern, fnmatch));
    assert items[0..] == items;
    while i < |items|
      invariant 0 <= i <= |items|
      invariant Listing(items, typeFilter, pattern, fnmatch)
             == Prepend(acc, Listing(items[i..], typeFilter, pattern, fnmatch))
    {
      ListingStep(items, i, typeFilter, pattern, fnmatch);
      var summary := Summarize(items[i]);
      if summary.Err? {
        return Err(summary.fault);
      }
      ghost var rest := Listing(items[i + 1..], typeFilter, pattern, fnmatch);
      if Kept(summary.value, typeFilter, pattern, fnmatch) {
        PrependStep(acc, summary.value, rest);
        acc := acc + [summary.value];
      }
      i := i + 1;
    }
    assert items[i..] == [] && acc + [] == acc;
    return Ok(acc);
  }

  /** `a` is `b` with some elements left out, the rest in their order. */
  predicate IsSubsequence<T(==)>(a: seq<T>, b: seq<T>)
    decreases |b|
  {
    || |a| == 0
    || (&& |b| > 0
        && ((a[0] == b[0] && IsSubsequence(a[1..], b[1..])) || IsSubsequence(a, b[1..])))
  }

  /** How many of the summaries pass the filters. */
  function KeptCount(ss: seq<Summary>, typeFilter: Option<string>, pattern: Option<string>,
                     fnmatch: (string, string) -> bool): nat
  {
    if |ss| == 0 then 0
    else (if Kept(ss[0], typeFilter, pattern, fnmatch) then 1 else 0)
         + KeptCount(ss[1..], typeFilter, pattern, fnmatch)
  }

  /** The summaries the filters keep, in their order. Being a subsequence made only of kept
      summaries and as long as the number of kept ones pins the result down, repeats included. */
  function KeepOnly(ss: seq<Summary>, typeFilter: Option<string>, pattern: Option<string>,
                    fnmatch: (string, string) -> bool): (r: seq<Summary>)
    ensures IsSubsequence(r, ss)
    ensures |r| == KeptCount(ss, typeFilter, pattern, fnmatch)
    ensures forall i :: 0 <= i < |r| ==> Kept(r[i], typeFilter, pattern, fnmatch)
    ensures forall i :: 0 <= i < |ss| && Kept(ss[i], typeFilter, pattern, fnmatch) ==> ss[i] in r
  {
    if |ss| == 0 then []
    else
      var rest := KeepOnly(ss[1..], typeFilter, pattern, fnmatch);
      assert forall i :: 1 <= i < |ss| ==> ss[i] == ss[1..][i - 1];
      if Kept(ss[0], typeFilter, pattern, fnmatch) then
        assert ([ss[0]] + rest)[1..] == rest;
        [ss[0]] + rest
      else
        rest
  }


  lemma {:induction false} ListingUnfilteredOk(items: seq<Json>, fnmatch: (string, string) -> bool)
    ensures Listing(items, None, None, fnmatch).Ok?
            <==> forall i :: 0 <= i < |items| ==> Summarize(items[i]).Ok?
  {
    if |items| > 0 {
      ListingUnfilteredOk(items[1..], fnmatch);
      assert forall i :: 1 <= i < |items| ==> items[i] == items[1..][i - 1];
    }
  }

  /** An unfiltered listing that succeeds on a non-empty list, one item unfolded. */
  lemma ListingUnfilteredHead(items: seq<Json>, fnmatch: (string, string) -> bool)
    requires |items| > 0 && Listing(items, None, None, fnmatch).Ok?
    ensures Summarize(items[0]).Ok? && Listing(items[1..], None, None, fnmatch).Ok?
    ensures Listing(items, None, None, fnmatch).value
         == [Summarize(items[0]).value] + Listing(items[1..], None, None, fnmatch).value
  {
    assert items[0..] == items;
    ListingStep(items, 0, None, None, fnmatch);
    assert Kept(Summarize(items[0]).value, None, None, fnmatch);
  }

  /** Summaries that match the items of the tail position by position still do so with the
      first item's summary in front. */
  lemma SummariesCons(items: seq<Json>, x: Summary, rest: seq<Summary>)
    requires |items| > 0 && Summarize(items[0]) == Ok(x) && |rest| == |items| - 1
    requires forall i :: 0 <= i < |rest| ==> Summarize(items[1..][i]) == Ok(rest[i])
    ensures forall i :: 0 <= i < |items| ==> Summarize(items[i]) == Ok(([x] + rest)[i])
  {
    forall i | 1 <= i < |items| ensures Summarize(items[i]) == Ok(([x] + rest)[i]) {
      assert items[i] == items[1..][i - 1];
    }
  }

  lemma {:induction false} ListingUnfilteredItems(items: seq<Json>, fnmatch: (string, string) -> bool)
    requires Listing(items, None, None, fnmatch).Ok?
    ensures |Listing(items, None, None, fnmatch).value| == |items|
    ensures forall i :: 0 <= i < |items| ==>
              Summarize(items[i]) == Ok(Listing(items, None, None, fnmatch).value[i])
  {
    if |items| > 0 {
      ListingUnfilteredHead(items, fnmatch);
      ListingUnfilteredItems(items[1..], fnmatch);
      SummariesCons(items, Summarize(items[0]).value, Listing(items[1..], None, None, fnmatch).value);
    }
  }

  /** With no filter, listing raises exactly when some resource cannot be summarised, and
      otherwise gives one summary per resource, in document order. */
  lemma ListingUnfiltered(items: seq<Json>, fnmatch: (string, string) -> bool)
    ensures Listing(items, None, None, fnmatch).Ok?
            <==> forall i :: 0 <= i < |items| ==> Summarize(items[i]).Ok?
    ensures Listing(items, None, None, fnmatch).Ok? ==>
              && |Listing(items, None, None, fnmatch).value| == |items|
              && forall i :: 0 <= i < |items| ==>
                   Summarize(items[i]) == Ok(Listing(items, None, None, fnmatch).value[i])
  {
    ListingUnfilteredOk(items, fnmatch);
    if Listing(items, None, None, fnmatch).Ok? {
      ListingUnfilteredItems(items, fnmatch);
    }
  }

  /** The filters only drop summaries: a filtered listing raises exactly when the unfiltered
      one does, and otherwise keeps the summaries that pass the filters, in their order. */
  lemma {:induction false} ListingFiltered(items: seq<Json>, typeFilter: Option<string>,
                                           pattern: Option<string>, fnmatch: (string, string) -> bool)
    ensures Listing(items, typeFilter, pattern, fnmatch)
         == match Listing(items, None, None, fnmatch)
            case Err(f) => Err(f)
            case Ok(all) => Ok(KeepOnly(all, typeFilter, pattern, fnmatch))
  {
    if |items| > 0 {
      ListingFiltered(items[1..], typeFilter, pattern, fnmatch);
      match Listing(items, None, None, fnmatch) {
        case Err(_) =>
        case Ok(all) =>
          assert all[1..] == Listing(items[1..], None, None, fnmatch).value;
      }
    }
  }

  /** An active type filter returns only summaries of exactly that type. */
  lemma TypeFilterExact(items: seq<Json>, typeFilter: Option<string>, pattern: Option<string>,
                        fnmatch: (string, string) -> bool)
    requires Active(typeFilter) && Listing(items, typeFilter, pattern, fnmatch).Ok?
    ensures forall s :: s in Listing(items, typeFilter, pattern, fnmatch).value ==>
              s.rtype == JStr(typeFilter.value)
  {
    ListingFiltered(items, typeFilter, pattern, fnmatch);
  }

  /** The address listed for a resource whose type (free of '.') and name are strings leads
      get_resource back to that resource, or to an earlier one with the same address. */
  lemma ListedAddressLocates(items: seq<Json>, fnmatch: (string, string) -> bool, i: nat,
                             t: string, n: string)
    requires Listing(items, None, None, fnmatch).Ok? && i < |items|
    requires HasAddress(items[i], t, n) && '.' !in t
    ensures i < |Listing(items, None, None, fnmatch).value|
    ensures SplitFirst(Listing(items, None, None, fnmatch).value[i].address) == Some((t, n))
    ensures FindFirst(items, t, n).Ok? && FindFirst(items, t, n).value.Some?
    ensures FindFirst(items, t, n).value.value <= i
  {
    ListingUnfiltered(items, fnmatch);
    SplitFirstJoin(t, n);
    assert !Passed(items, |items|, t, n);
  }

  /** How many items have address (t, n). */
  function Count(items: seq<Json>, t: string, n: string): (c: nat)
    ensures c <= |items|
  {
    if |items| == 0 then 0
    else (if HasAddress(items[0], t, n) then 1 else 0) + Count(items[1..], t, n)
  }

  /** No item has the address exactly when the count is zero. */
  lemma {:induction false} CountZero(items: seq<Json>, t: string, n: string)
    ensures Count(items, t, n) == 0 <==> forall j :: 0 <= j < |items| ==> !HasAddress(items[j], t, n)
  {
    if |items| > 0 {
      CountZero(items[1..], t, n);
      assert forall j :: 1 <= j < |items| ==> items[j] == items[1..][j - 1];
    }
  }

  /** The comprehension of delete_resource (core.py:135-138): every item without address
      (t, n), in order; `.get` on an item that is not a dict raises AttributeError. */
  function Retain(items: seq<Json>, t: string, n: string): (r: Result<seq<Json>>)
    ensures r.Ok? <==> forall j :: 0 <= j < |items| ==> items[j].JObj?
    ensures r.Err? ==> r == Err(AttributeError)
  {
    if |items| == 0 then Ok([])
    else if !items[0].JObj? then Err(AttributeError)
    else
      assert forall j :: 1 <= j < |items| ==> items[j] == items[1..][j - 1];
      match Retain(items[1..], t, n)
      case Err(f) => Err(f)
      case Ok(rest) => Ok(if HasAddress(items[0], t, n) then rest else [items[0]] + rest)
  }

  /** Retain on a non-empty list of dicts, one item unfolded. */
  lemma RetainHead(items: seq<Json>, t: string, n: string)
    requires |items| > 0 && Retain(items, t, n).Ok?
    ensures Retain(items[1..], t, n).Ok?
    ensures Retain(items, t, n).value
         == if HasAddress(items[0], t, n) then Retain(items[1..], t, n).value
            else [items[0]] + Retain(items[1..], t, n).value
  {
  }

  lemma {:induction false} RetainCount(items: seq<Json>, t: string, n: string)
    requires Retain(items, t, n).Ok?
    ensures |Retain(items, t, n).value| == |items| - Count(items, t, n)
  {
    if |items| > 0 {
      RetainHead(items, t, n);
      RetainCount(items[1..], t, n);
    }
  }

  lemma {:induction false} RetainOrder(items: seq<Json>, t: string, n: string)
    requires Retain(items, t, n).Ok?
    ensures IsSubsequence(Retain(items, t, n).value, items)
  {
    if |items| > 0 {
      RetainHead(items, t, n);
      RetainOrder(items[1..], t, n);
      var rest := Retain(items[1..], t, n).value;
      if !HasAddress(items[0], t, n) {
        assert ([items[0]] + rest)[1..] == rest;
      }
    }
  }

  lemma {:induction false} RetainMembers(items: seq<Json>, t: string, n: string)
    requires Retain(items, t, n).Ok?
    ensures forall x :: x in Retain(items, t, n).value ==> x in items && !HasAddress(x, t, n)
  {
    if |items| > 0 {
      RetainHead(items, t, n);
      RetainMembers(items[1..], t, n);
      assert forall x :: x in items[1..] ==> x in items;
    }
  }

  lemma {:induction false} RetainComplete(items: seq<Json>, t: string, n: string)
    requires Retain(items, t, n).Ok?
    ensures forall j :: 0 <= j < |items| && !HasAddress(items[j], t, n) ==> items[j] in Retain(items, t, n).value
  {
    if |items| > 0 {
      RetainHead(items, t, n);
      RetainComplete(items[1..], t, n);
      assert forall j :: 1 <= j < |items| ==> items[j] == items[1..][j - 1];
    }
  }

  /** What the comprehension keeps: exactly the items without the address, in their order,
      so the list shrinks by the number of items with it. */
  lemma RetainKeeps(items: seq<Json>, t: string, n: string)
    requires Retain(items, t, n).Ok?
    ensures var kept := Retain(items, t, n).value;
            && |kept| == |items| - Count(items, t, n)
            && IsSubsequence(kept, items)
            && (forall j :: 0 <= j < |kept| ==> kept[j] in items && !HasAddress(kept[j], t, n))
            && (forall j :: 0 <= j < |items| && !HasAddress(items[j], t, n) ==> items[j] in kept)
  {
    RetainCount(items, t, n);
    RetainOrder(items, t, n);
    RetainMembers(items, t, n);
    RetainComplete(items, t, n);
  }

  /** Retain on a suffix, one item unfolded. */
  lemma RetainStep(items: seq<Json>, i: nat, t: string, n: string)
    requires i < |items|
    ensures Retain(items[i..], t, n)
         == if !items[i].JObj? then Err(AttributeError)
            else if HasAddress(items[i], t, n) then Retain(items[i + 1..], t, n)
            else Prepend([items[i]], Retain(items[i + 1..], t, n))
  {
    assert items[i..][0] == items[i] && items[i..][1..] == items[i + 1..];
  }

  /** The comprehension of delete_resource (core.py:135-138) as a loop over the items. */
  method RetainMatching(items: seq<Json>, t: string, n: string) returns (r: Result<seq<Json>>)
    ensures r == Retain(items, t, n)
  {
    var kept: seq<Json> := [];
    var i := 0;
    PrependNil(Retain(items, t, n));
    assert items[0..] == items;
    while i < |items|
      invariant 0 <= i <= |items|
      invariant Retain(items, t, n) == Prepend(kept, Retain(items[i..], t, n))
    {
      RetainStep(items, i, t, n);
      if !items[i].JObj? {
        return Err(AttributeError);
      }
      if !HasAddress(items[i], t, n) {
        PrependStep(kept, items[i], Retain(items[i + 1..], t, n));
        kept := kept + [items[i]];
      }
      i := i + 1;
    }
    assert items[i..] == [] && kept + [] == kept;
    return Ok(kept);
  }
}
