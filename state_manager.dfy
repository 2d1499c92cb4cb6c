/** TerraformStateManager (core.py:13-193): the in-memory state document and the operations
    over its `resources` list. The document-level operations are first stated as functions
    from the old document to the outcome and the new document; the class then carries the
    document as a mutable field and its methods are proved against those functions. */
module StateManager {
  import opened Outcomes
  import opened JsonValue
  import opened Text
  import opened AttributePath
  import opened ResourceIndex
  import opened Validation

  /** The checks _load_state makes once the file is parsed (core.py:33-38). */
  function Load(doc: Json): (r: Result<Json>)
    ensures r.Ok? <==> doc.JObj? && HasKey(doc.members, "resources")
    ensures r.Ok? ==> r.value == doc
  {
    if !doc.JObj? then Err(NotAnObject)
    else if !HasKey(doc.members, "resources") then Err(MissingResourcesKey)
    else Ok(doc)
  }

  /** A loaded document never draws the two issues the load checks already rule out. */
  lemma LoadedDocumentIssues(doc: Json)
    requires Load(doc).Ok? && Validate(doc).Ok?
    ensures RootNotObject !in Validate(doc).value.1
    ensures MissingResources !in Validate(doc).value.1
  {
    ValidateDocumentIssues(doc);
  }

  /** `state_data["resources"] = items`, the rest of the document untouched. */
  function WithResources(doc: Json, items: seq<Json>): (r: Json)
    requires doc.JObj?
    ensures r.JObj? && ResourcesOf(r) == JArr(items) && Load(r).Ok?
    ensures forall k :: k != "resources" ==> Lookup(r.members, k) == Lookup(doc.members, k)
  {
    JObj(Put(doc.members, "resources", JArr(items)))
  }

  lemma WithResourcesWellFormed(doc: Json, items: seq<Json>)
    requires doc.JObj? && WellFormed(doc)
    requires forall j :: 0 <= j < |items| ==> WellFormed(items[j])
    ensures WellFormed(WithResources(doc, items))
  {
    assert WellFormed(JArr(items));
    PutWellFormed(doc.members, "resources", JArr(items));
  }

  /** The resources of a well-formed loaded document are well-formed. */
  lemma ResourcesWellFormed(doc: Json)
    requires Load(doc).Ok? && WellFormed(doc)
    ensures WellFormed(ResourcesOf(doc))
  {
    LookupWellFormed(doc.members, "resources");
  }

  /** list_resources (core.py:52-75) on a document. */
  function List(doc: Json, typeFilter: Option<string>, pattern: Option<string>,
                fnmatch: (string, string) -> bool): (r: Result<seq<Summary>>)
    requires Load(doc).Ok?
    ensures Iterate(ResourcesOf(doc)).Err? ==> r == Err(TypeError)
    ensures r.Ok? ==> Iterate(ResourcesOf(doc)).Ok? && |r.value| <= |Iterate(ResourcesOf(doc)).value|
    ensures r.Ok? ==> forall i :: 0 <= i < |r.value| ==> Kept(r.value[i], typeFilter, pattern, fnmatch)
    ensures r.Err? ==> r == Err(TypeError) || r == Err(AttributeError)
  {
    match Iterate(ResourcesOf(doc))
    case Err(f) => Err(f)
    case Ok(items) => Listing(items, typeFilter, pattern, fnmatch)
  }

  /** modify_resource_attribute (core.py:102-122): False when the address finds nothing,
      otherwise the attribute write on the resource found, in place in the list. */
  function ModifyAttribute(doc: Json, address: string, path: string, value: Json): (r: Result<(bool, Json)>)
    requires Load(doc).Ok?
    ensures r.Ok? ==> Load(r.value.1).Ok?
    ensures r == Ok((false, doc)) <==> Locate(doc, address) == Ok(None)
  {
    match Locate(doc, address)
    case Err(f) => Err(f)
    case Ok(None) => Ok((false, doc))
    case Ok(Some(i)) =>
      var items := ResourcesOf(doc).elems;
      match SetPath(items[i], SplitAll(path), value)
      case Err(f) => Err(f)
      case Ok(updated) => Ok((true, WithResources(doc, items[i := updated])))
  }

  /** The ways modify_resource_attribute raises: get_resource's ValueError for an address
      without '.', its own fault while searching, and, once a resource is found, TypeError
      exactly when a proper prefix of the attribute path leads to a value that is not a dict. */
  lemma ModifyFailsIff(doc: Json, address: string, path: string, value: Json)
    requires Load(doc).Ok?
    ensures '.' !in address <==> ModifyAttribute(doc, address, path, value) == Err(InvalidAddress(address))
    ensures Locate(doc, address).Err? ==>
              ModifyAttribute(doc, address, path, value) == Err(Locate(doc, address).fault)
    ensures Locate(doc, address).Ok? && Locate(doc, address).value.Some? ==>
              var resource := ResourcesOf(doc).elems[Locate(doc, address).value.value];
              && (ModifyAttribute(doc, address, path, value).Err?
                  <==> exists j :: 0 <= j < |SplitAll(path)| && Blocked(resource, SplitAll(path)[..j]))
              && (ModifyAttribute(doc, address, path, value).Err? ==>
                    ModifyAttribute(doc, address, path, value) == Err(TypeError))
  {
    match Locate(doc, address) {
      case Err(_) =>
      case Ok(None) =>
      case Ok(Some(i)) =>
        var resource := ResourcesOf(doc).elems[i];
        SetPathFailsIff(resource, SplitAll(path), value);
        assert ModifyAttribute(doc, address, path, value).Err?
               <==> SetPath(resource, SplitAll(path), value).Err?;
    }
  }

  /** delete_resource (core.py:124-140): keep every resource without the address; report
      whether the list got shorter. `len` of a value that has none raises TypeError, as the
      iteration does. */
  function Delete(doc: Json, address: string): (r: Result<(bool, Json)>)
    requires Load(doc).Ok?
    ensures '.' !in address <==> r == Err(InvalidAddress(address))
    ensures r.Ok? ==> Load(r.value.1).Ok? && ResourcesOf(r.value.1).JArr?
  {
    match SplitFirst(address)
    case None => Err(InvalidAddress(address))
    case Some((t, n)) =>
      match Iterate(ResourcesOf(doc))
      case Err(f) => Err(f)
      case Ok(items) =>
        match Retain(items, t, n)
        case Err(f) => Err(f)
        case Ok(kept) => Ok((|kept| < |items|, WithResources(doc, kept)))
  }

  /** The resource with its `type` and `name` overwritten (core.py:158-159). */
  function Renamed(resource: Json, t: string, n: string): (r: Json)
    requires resource.JObj?
    ensures HasAddress(r, t, n)
    ensures forall k :: k != "type" && k != "name" ==> Lookup(r.members, k) == Lookup(resource.members, k)
  {
    JObj(Put(Put(resource.members, "type", JStr(t)), "name", JStr(n)))
  }

  /** move_resource (core.py:142-161): False when the old address finds nothing (checked
      before the new address is even split); a new address without '.' or one that already
      finds a resource raises; otherwise the found resource is renamed where it stands. */
  function Move(doc: Json, oldAddress: string, newAddress: string): (r: Result<(bool, Json)>)
    requires Load(doc).Ok?
    ensures r.Ok? ==> Load(r.value.1).Ok?
    ensures r == Ok((false, doc)) <==> Locate(doc, oldAddress) == Ok(None)
    ensures Locate(doc, oldAddress).Err? ==> r == Err(Locate(doc, oldAddress).fault)
    ensures Locate(doc, oldAddress).Ok? && Locate(doc, oldAddress).value.Some? ==>
              ('.' !in newAddress <==> r == Err(InvalidNewAddress(newAddress)))
    ensures Locate(doc, oldAddress).Ok? && Locate(doc, oldAddress).value.Some? && '.' in newAddress ==>
              && (Locate(doc, newAddress).Err? ==> r == Err(Locate(doc, newAddress).fault))
              && (Locate(doc, newAddress).Ok? && Locate(doc, newAddress).value.Some? ==>
                    r == Err(AlreadyExists(newAddress)))
              && (Locate(doc, newAddress) == Ok(None) ==> r.Ok? && r.value.0)
  {
    match Locate(doc, oldAddress)
    case Err(f) => Err(f)
    case Ok(None) => Ok((false, doc))
    case Ok(Some(i)) =>
      match SplitFirst(newAddress)
      case None => Err(InvalidNewAddress(newAddress))
      case Some((t, n)) =>
        match Locate(doc, newAddress)
        case Err(f) => Err(f)
        case Ok(Some(_)) => Err(AlreadyExists(newAddress))
        case Ok(None) =>
          var items := ResourcesOf(doc).elems;
          var renamed := Renamed(items[i], t, n);
          Ok((true, WithResources(doc, items[i := renamed])))
  }

  /** A successful modify reports True, writes the value where the path leads inside the
      resource found, and leaves every other resource and every other document key alone. */
  lemma ModifyEffect(doc: Json, address: string, path: string, value: Json, i: nat)
    requires Load(doc).Ok? && Locate(doc, address) == Ok(Some(i))
    requires ModifyAttribute(doc, address, path, value).Ok?
    ensures ModifyAttribute(doc, address, path, value).value.0
    ensures var after := ResourcesOf(ModifyAttribute(doc, address, path, value).value.1);
            && after.JArr?
            && |after.elems| == |ResourcesOf(doc).elems|
            && (forall j :: 0 <= j < |after.elems| && j != i ==> after.elems[j] == ResourcesOf(doc).elems[j])
            && GetPath(after.elems[i], SplitAll(path)) == Some(value)
    ensures forall k :: k != "resources" ==>
              Lookup(ModifyAttribute(doc, address, path, value).value.1.members, k) == Lookup(doc.members, k)
  {
    SetPathReadBack(ResourcesOf(doc).elems[i], SplitAll(path), value);
  }

  lemma ModifyWellFormed(doc: Json, address: string, path: string, value: Json)
    requires Load(doc).Ok? && WellFormed(doc) && WellFormed(value)
    requires ModifyAttribute(doc, address, path, value).Ok?
    ensures WellFormed(ModifyAttribute(doc, address, path, value).value.1)
  {
    if Locate(doc, address).value.Some? {
      var i := Locate(doc, address).value.value;
      var items := ResourcesOf(doc).elems;
      var updated := SetPath(items[i], SplitAll(path), value).value;
      ResourcesWellFormed(doc);
      SetPathWellFormed(items[i], SplitAll(path), value);
      UpdateWellFormed(items, i, updated);
      var rs := items[i := updated];
      assert forall j :: 0 <= j < |rs| ==> WellFormed(rs[j]);
      WithResourcesWellFormed(doc, rs);
    }
  }

  /** A successful delete drops exactly the resources with the address, keeps the others in
      their order, reports whether anything went, and afterwards nothing has the address. */
  lemma DeleteEffect(doc: Json, address: string, t: string, n: string)
    requires Load(doc).Ok? && SplitFirst(address) == Some((t, n)) && Delete(doc, address).Ok?
    ensures Iterate(ResourcesOf(doc)).Ok?
    ensures var items := Iterate(ResourcesOf(doc)).value;
            var after := ResourcesOf(Delete(doc, address).value.1).elems;
            && |after| == |items| - Count(items, t, n)
            && (Delete(doc, address).value.0 <==> Count(items, t, n) > 0)
            && IsSubsequence(after, items)
            && (forall j :: 0 <= j < |items| && !HasAddress(items[j], t, n) ==> items[j] in after)
    ensures Locate(Delete(doc, address).value.1, address) == Ok(None)
    ensures forall k :: k != "resources" ==>
              Lookup(Delete(doc, address).value.1.members, k) == Lookup(doc.members, k)
  {
    var items := Iterate(ResourcesOf(doc)).value;
    var after := Retain(items, t, n).value;
    RetainKeeps(items, t, n);
    assert Iterate(JArr(after)) == Ok(after);
    forall j | 0 <= j < |after| ensures after[j].JObj? && !HasAddress(after[j], t, n) {
      assert after[j] in items;
    }
    assert Passed(after, |after|, t, n);
  }

  lemma DeleteWellFormed(doc: Json, address: string)
    requires Load(doc).Ok? && WellFormed(doc) && Delete(doc, address).Ok?
    ensures WellFormed(Delete(doc, address).value.1)
  {
    var (t, n) := SplitFirst(address).value;
    var items := Iterate(ResourcesOf(doc)).value;
    var kept := Retain(items, t, n).value;
    RetainKeeps(items, t, n);
    ResourcesWellFormed(doc);
    forall j | 0 <= j < |kept| ensures WellFormed(kept[j]) {
      var m :| 0 <= m < |items| && items[m] == kept[j];
    }
    WithResourcesWellFormed(doc, kept);
  }

  /** Where the only resource with address (t, n) sits, no other position has it. */
  lemma {:induction false} CountOne(items: seq<Json>, t: string, n: string, i: nat)
    requires i < |items| && HasAddress(items[i], t, n) && Count(items, t, n) == 1
    ensures forall j :: 0 <= j < |items| && j != i ==> !HasAddress(items[j], t, n)
  {
    var rest := items[1..];
    if i > 0 {
      assert rest[i - 1] == items[i];
      CountZero(rest, t, n);
      CountOne(rest, t, n, i - 1);
      forall j | 0 < j < |items| && j != i ensures !HasAddress(items[j], t, n) {
        assert items[j] == rest[j - 1];
      }
    } else {
      CountZero(rest, t, n);
      forall j | 0 < j < |items| ensures !HasAddress(items[j], t, n) {
        assert items[j] == rest[j - 1];
      }
    }
  }

  /** What a successful move computes, in one place. */
  lemma MoveUnfold(doc: Json, oldAddress: string, newAddress: string, i: nat, t: string, n: string)
    requires Load(doc).Ok? && Locate(doc, oldAddress) == Ok(Some(i))
    requires SplitFirst(newAddress) == Some((t, n)) && Move(doc, oldAddress, newAddress).Ok?
    ensures Locate(doc, newAddress) == Ok(None)
    ensures i < |ResourcesOf(doc).elems| && ResourcesOf(doc).elems[i].JObj?
    ensures Move(doc, oldAddress, newAddress)
         == Ok((true, WithResources(doc, ResourcesOf(doc).elems[i := Renamed(ResourcesOf(doc).elems[i], t, n)])))
  {
  }

  /** Renaming overwrites the type and the name and keeps every key where it was. */
  lemma RenamedKeys(resource: Json, t0: string, n0: string, t: string, n: string)
    requires HasAddress(resource, t0, n0)
    ensures var r := Renamed(resource, t, n);
            && HasAddress(r, t, n)
            && (forall k :: k != "type" && k != "name" ==> Lookup(r.members, k) == Lookup(resource.members, k))
            && |r.members| == |resource.members|
            && (forall j :: 0 <= j < |resource.members| ==> r.members[j].0 == resource.members[j].0)
  {
    RenamedOrder(resource, t0, n0, t, n);
  }

  /** Renaming a resource that has both keys keeps its keys in their order. */
  lemma RenamedOrder(resource: Json, t0: string, n0: string, t: string, n: string)
    requires HasAddress(resource, t0, n0)
    ensures |Renamed(resource, t, n).members| == |resource.members|
    ensures forall j :: 0 <= j < |resource.members| ==>
              Renamed(resource, t, n).members[j].0 == resource.members[j].0
  {
    PutTwiceKeepsKeys(resource.members, "type", JStr(t), "name", JStr(n));
  }

  /** A successful move renames the resource found where it stands: same position, same
      list length, every other key of it and every other resource unchanged. */
  lemma MoveEffect(doc: Json, oldAddress: string, newAddress: string, i: nat, t: string, n: string,
                   moved: bool, after: Json)
    requires Load(doc).Ok? && Locate(doc, oldAddress) == Ok(Some(i))
    requires SplitFirst(newAddress) == Some((t, n))
    requires Move(doc, oldAddress, newAddress) == Ok((moved, after))
    ensures moved
    ensures var items := ResourcesOf(doc).elems;
            && ResourcesOf(after).JArr? && |ResourcesOf(after).elems| == |items|
            && (forall j :: 0 <= j < |items| && j != i ==> ResourcesOf(after).elems[j] == items[j])
    ensures var (r, r0) := (ResourcesOf(after).elems[i], ResourcesOf(doc).elems[i]);
            && HasAddress(r, t, n)
            && (forall k :: k != "type" && k != "name" ==> Lookup(r.members, k) == Lookup(r0.members, k))
            && |r.members| == |r0.members|
            && (forall j :: 0 <= j < |r0.members| ==> r.members[j].0 == r0.members[j].0)
    ensures forall k :: k != "resources" ==> Lookup(after.members, k) == Lookup(doc.members, k)
  {
    MoveUnfold(doc, oldAddress, newAddress, i, t, n);
    var (t0, n0) := SplitFirst(oldAddress).value;
    var items := ResourcesOf(doc).elems;
    RenamedKeys(items[i], t0, n0, t, n);
    assert after == WithResources(doc, items[i := Renamed(items[i], t, n)]);
  }

  /** Locating in a document whose resources are a list is the search over that list. */
  lemma LocateInList(doc: Json, address: string, t: string, n: string)
    requires doc.JObj? && ResourcesOf(doc).JArr? && SplitFirst(address) == Some((t, n))
    ensures Locate(doc, address) == FindFirst(ResourcesOf(doc).elems, t, n)
  {
  }

  /** The search stops at the first item with the address once every earlier item was passed. */
  lemma FindFirstAt(items: seq<Json>, k: nat, t: string, n: string)
    requires k < |items| && Passed(items, k, t, n) && items[k].JObj? && HasAddress(items[k], t, n)
    ensures FindFirst(items, t, n) == Ok(Some(k))
  {
  }

  /** Over a list of objects the search never fails, and finds nothing before k when the
      first k items were passed. */
  lemma FindFirstAfter(items: seq<Json>, k: nat, t: string, n: string)
    requires k <= |items| && Passed(items, k, t, n)
    requires forall j :: 0 <= j < |items| ==> items[j].JObj?
    ensures FindFirst(items, t, n).Ok?
    ensures FindFirst(items, t, n).value.Some? ==> FindFirst(items, t, n).value.value >= k
  {
  }

  /** Replacing the first resource with address (t0, n0) by one with the unused address
      (t, n): the search for (t, n) stops there, the one for (t0, n0) only further on. */
  lemma RenameInList(items: seq<Json>, i: nat, t0: string, n0: string, renamed: Json, t: string, n: string)
    requires i < |items| && HasAddress(items[i], t0, n0) && Passed(items, i, t0, n0)
    requires Passed(items, |items|, t, n) && renamed.JObj? && HasAddress(renamed, t, n)
    requires !HasAddress(renamed, t0, n0)
    ensures FindFirst(items[i := renamed], t, n) == Ok(Some(i))
    ensures FindFirst(items[i := renamed], t0, n0).Ok?
    ensures FindFirst(items[i := renamed], t0, n0).value.Some? ==>
              FindFirst(items[i := renamed], t0, n0).value.value > i
    ensures Count(items, t0, n0) == 1 ==> FindFirst(items[i := renamed], t0, n0) == Ok(None)
  {
    var rs := items[i := renamed];
    assert forall j :: 0 <= j < |rs| ==> rs[j].JObj? by {
      forall j | 0 <= j < |rs| ensures rs[j].JObj? {
        if j != i { assert items[j].JObj?; }
      }
    }
    assert Passed(rs, i, t, n) by {
      forall j | 0 <= j < i ensures rs[j].JObj? && !HasAddress(rs[j], t, n) {
        assert rs[j] == items[j];
      }
    }
    FindFirstAt(rs, i, t, n);
    assert Passed(rs, i + 1, t0, n0) by {
      forall j | 0 <= j < i + 1 ensures rs[j].JObj? && !HasAddress(rs[j], t0, n0) {
        if j < i { assert rs[j] == items[j]; }
      }
    }
    FindFirstAfter(rs, i + 1, t0, n0);
    if Count(items, t0, n0) == 1 {
      CountOne(items, t0, n0, i);
      assert Passed(rs, |rs|, t0, n0) by {
        forall j | 0 <= j < |rs| ensures rs[j].JObj? && !HasAddress(rs[j], t0, n0) {
          if j != i { assert rs[j] == items[j]; }
        }
      }
    }
  }

  /** After a successful move the new address finds the renamed resource, and the old
      address finds only a later resource, if any: none when the renamed one was the only
      resource with that address. */
  lemma MoveAddresses(doc: Json, oldAddress: string, newAddress: string, i: nat, t: string, n: string,
                      after: Json)
    requires Load(doc).Ok? && Locate(doc, oldAddress) == Ok(Some(i))
    requires SplitFirst(newAddress) == Some((t, n))
    requires Move(doc, oldAddress, newAddress) == Ok((true, after))
    ensures Locate(after, newAddress) == Ok(Some(i))
    ensures Locate(after, oldAddress).Ok?
    ensures Locate(after, oldAddress).value.Some? ==> Locate(after, oldAddress).value.value > i
    ensures Count(ResourcesOf(doc).elems, SplitFirst(oldAddress).value.0, SplitFirst(oldAddress).value.1) == 1
            ==> Locate(after, oldAddress) == Ok(None)
  {
    MoveUnfold(doc, oldAddress, newAddress, i, t, n);
    var items := ResourcesOf(doc).elems;
    var (t0, n0) := SplitFirst(oldAddress).value;
    RenamedKeys(items[i], t0, n0, t, n);
    var rs := items[i := Renamed(items[i], t, n)];
    assert after == WithResources(doc, rs);
    LocateInList(doc, newAddress, t, n);
    LocateInList(after, newAddress, t, n);
    LocateInList(after, oldAddress, t0, n0);
    assert (t0, n0) != (t, n);
    RenameInList(items, i, t0, n0, Renamed(items[i], t, n), t, n);
  }

  /** Moving a resource onto its own address raises: the new address already finds it. */
  lemma MoveOntoItself(doc: Json, address: string)
    requires Load(doc).Ok? && Locate(doc, address).Ok? && Locate(doc, address).value.Some?
    ensures Move(doc, address, address) == Err(AlreadyExists(address))
  {
  }

  /** Replacing one element of a well-formed list by a well-formed value keeps it well-formed. */
  lemma UpdateWellFormed(items: seq<Json>, i: nat, x: Json)
    requires i < |items| && WellFormed(JArr(items)) && WellFormed(x)
    ensures WellFormed(JArr(items[i := x]))
  {
  }

  lemma RenamedWellFormed(resource: Json, t: string, n: string)
    requires resource.JObj? && WellFormed(resource)
    ensures WellFormed(Renamed(resource, t, n))
  {
    PutWellFormed(resource.members, "type", JStr(t));
    PutWellFormed(Put(resource.members, "type", JStr(t)), "name", JStr(n));
  }

  lemma MoveWellFormed(doc: Json, oldAddress: string, newAddress: string)
    requires Load(doc).Ok? && WellFormed(doc) && Move(doc, oldAddress, newAddress).Ok?
    ensures WellFormed(Move(doc, oldAddress, newAddress).value.1)
  {
    var found := Locate(doc, oldAddress).value;
    if found.Some? {
      var i := found.value;
      var (t, n) := SplitFirst(newAddress).value;
      MoveUnfold(doc, oldAddress, newAddress, i, t, n);
      var items := ResourcesOf(doc).elems;
      ResourcesWellFormed(doc);
      RenamedWellFormed(items[i], t, n);
      var rs := items[i := Renamed(items[i], t, n)];
      UpdateWellFormed(items, i, Renamed(items[i], t, n));
      assert forall j :: 0 <= j < |rs| ==> WellFormed(rs[j]);
      WithResourcesWellFormed(doc, rs);
    }
  }

  /** The state file's contents and the operations of core.py:13-193 that work on them in
      memory. The file itself is not modelled: `Open` receives what json.load produced. */
  class TerraformStateManager {
    var stateData: Json

    /** A loaded state document whose objects have distinct keys, as json.load yields. */
    ghost predicate Valid()
      reads this
    {
      Load(stateData).Ok? && WellFormed(stateData)
    }

    constructor (parsed: Json)
      requires Load(parsed).Ok? && WellFormed(parsed)
      ensures stateData == parsed && Valid()
    {
      stateData := parsed;
    }

    /** __init__ and _load_state (core.py:16-38) once the file is parsed: a document that is
        not an object, or has no `resources` key, raises ValueError. */
    static method Open(parsed: Json) returns (r: Result<TerraformStateManager>)
      requires WellFormed(parsed)
      ensures r.Ok? <==> Load(parsed).Ok?
      ensures r.Err? ==> r == Err(Load(parsed).fault)
      ensures r.Ok? ==> fresh(r.value) && r.value.stateData == parsed && r.value.Valid()
    {
      var checked := Load(parsed);
      if checked.Err? {
        return Err(checked.fault);
      }
      var manager := new TerraformStateManager(parsed);
      return Ok(manager);
    }

    /** The position get_resource (core.py:77-89) stops at. */
    method FindResource(address: string) returns (r: Result<Option<nat>>)
      requires Valid()
      ensures r == Locate(stateData, address)
    {
      match SplitFirst(address) {
        case None =>
          return Err(InvalidAddress(address));
        case Some((t, n)) =>
          var resources := Iterate(ResourcesOf(stateData));
          if resources.Err? {
            return Err(resources.fault);
          }
          r := FindFirstMatch(resources.value, t, n);
      }
    }

    /** get_resource (core.py:77-89): the first resource with the address, or none. */
    method GetResource(address: string) returns (r: Result<Option<Json>>)
      requires Valid()
      ensures '.' !in address <==> r == Err(InvalidAddress(address))
      ensures r.Ok? && r.value.Some? ==>
                && ResourcesOf(stateData).JArr? && r.value.value in ResourcesOf(stateData).elems
                && HasAddress(r.value.value, SplitFirst(address).value.0, SplitFirst(address).value.1)
      ensures r == match Locate(stateData, address)
                   case Err(f) => Err(f)
                   case Ok(None) => Ok(None)
                   case Ok(Some(i)) => Ok(Some(ResourcesOf(stateData).elems[i]))
    {
      var found := FindResource(address);
      match found {
        case Err(f) => return Err(f);
        case Ok(None) => return Ok(None);
        case Ok(Some(i)) => return Ok(Some(ResourcesOf(stateData).elems[i]));
      }
    }

    /** list_resources (core.py:52-75): the summaries that pass the filters, in order. */
    method ListResources(typeFilter: Option<string>, pattern: Option<string>,
                         fnmatch: (string, string) -> bool) returns (r: Result<seq<Summary>>)
      requires Valid()
      ensures r == List(stateData, typeFilter, pattern, fnmatch)
    {
      var resources := Iterate(ResourcesOf(stateData));
      if resources.Err? {
        return Err(resources.fault);
      }
      r := ListMatching(resources.value, typeFilter, pattern, fnmatch);
    }

    /** modify_resource_attribute (core.py:102-122). */
    method ModifyResourceAttribute(address: string, attributePath: string, newValue: Json)
      returns (r: Result<bool>)
      requires Valid() && WellFormed(newValue)
      modifies this
      ensures Valid()
      ensures match ModifyAttribute(old(stateData), address, attributePath, newValue)
              case Err(f) => r == Err(f) && stateData == old(stateData)
              case Ok((modified, after)) => r == Ok(modified) && stateData == after
    {
      if ModifyAttribute(stateData, address, attributePath, newValue).Ok? {
        ModifyWellFormed(stateData, address, attributePath, newValue);
      }
      var found := FindResource(address);
      match found {
        case Err(f) =>
          return Err(f);
        case Ok(None) =>
          return Ok(false);
        case Ok(Some(i)) =>
          var items := ResourcesOf(stateData).elems;
          var updated := WriteAttribute(items[i], SplitAll(attributePath), newValue);
          if updated.Err? {
            return Err(updated.fault);
          }
          stateData := WithResources(stateData, items[i := updated.value]);
          return Ok(true);
      }
    }

    /** delete_resource (core.py:124-140). */
    method DeleteResource(address: string) returns (r: Result<bool>)
      requires Valid()
      modifies this
      ensures Valid()
      ensures match Delete(old(stateData), address)
              case Err(f) => r == Err(f) && stateData == old(stateData)
              case Ok((deleted, after)) => r == Ok(deleted) && stateData == after
    {
      if Delete(stateData, address).Ok? {
        DeleteWellFormed(stateData, address);
      }
      match SplitFirst(address) {
        case None =>
          return Err(InvalidAddress(address));
        case Some((t, n)) =>
          var resources := Iterate(ResourcesOf(stateData));
          if resources.Err? {
            return Err(resources.fault);
          }
          var kept := RetainMatching(resources.value, t, n);
          if kept.Err? {
            return Err(kept.fault);
          }
          stateData := WithResources(stateData, kept.value);
          return Ok(|kept.value| < |resources.value|);
      }
    }

    /** move_resource (core.py:142-161). */
    method MoveResource(oldAddress: string, newAddress: string) returns (r: Result<bool>)
      requires Valid()
      modifies this
      ensures Valid()
      ensures match Move(old(stateData), oldAddress, newAddress)
              case Err(f) => r == Err(f) && stateData == old(stateData)
              case Ok((moved, after)) => r == Ok(moved) && stateData == after
    {
      if Move(stateData, oldAddress, newAddress).Ok? {
        MoveWellFormed(stateData, oldAddress, newAddress);
      }
      var found := FindResource(oldAddress);
      match found {
        case Err(f) =>
          return Err(f);
        case Ok(None) =>
          return Ok(false);
        case Ok(Some(i)) =>
          match SplitFirst(newAddress) {
            case None =>
              return Err(InvalidNewAddress(newAddress));
            case Some((t, n)) =>
              var clash := FindResource(newAddress);
              match clash {
                case Err(f) =>
                  return Err(f);
                case Ok(Some(_)) =>
                  return Err(AlreadyExists(newAddress));
                case Ok(None) =>
                  var items := ResourcesOf(stateData).elems;
                  stateData := WithResources(stateData, items[i := Renamed(items[i], t, n)]);
                  return Ok(true);
              }
          }
      }
    }

    /** validate_state (core.py:163-193): the flag and the messages, in the order appended. */
    method ValidateState() returns (r: Result<(bool, seq<string>)>)
      requires Valid()
      ensures r == match Validate(stateData)
                   case Err(f) => Err(f)
                   case Ok((clean, issues)) => Ok((clean, Messages(issues)))
    {
      var doc := stateData;
      var issues: seq<Issue> := [];
      if !HasKey(doc.members, "resources") {
        issues := issues + [MissingResources];
      }
      if !HasKey(doc.members, "version") {
        issues := issues + [MissingVersion];
      }
      var resources := ResourcesOf(doc);
      if !resources.JArr? {
        issues := issues + [ResourcesNotList];
      }
      assert issues == HeaderIssues(doc);
      var iterated := Iterate(resources);
      if iterated.Err? {
        return Err(iterated.fault);
      }
      var entries := CollectEntryIssues(iterated.value);
      issues := issues + entries;
      return Ok((|issues| == 0, Messages(issues)));
    }
  }
}
