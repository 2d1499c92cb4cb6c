/** The state document of tests/test_tfstate_tool.py:17-44 and what each operation makes of
    it: one managed resource with one instance. The resource's type and name are parameters
    (the tests use aws_instance and test_instance), so each scenario holds for every address
    of that shape. */
module Scenarios {
  import opened Outcomes
  import opened JsonValue
  import opened Text
  import opened AttributePath
  import opened ResourceIndex
  import opened Validation
  import opened StateManager

  function Tags(): Json
  {
    JObj([("Name", JStr("TestInstance")), ("Environment", JStr("test"))])
  }

  function Instance(): Json
  {
    JObj([
      ("schema_version", JNum(1)),
      ("attributes", JObj([
        ("ami", JStr("ami-12345678")),
        ("instance_type", JStr("t3.micro")),
        ("tags", Tags())]))])
  }

  function Resource(t: string, n: string): Json
  {
    JObj([
      ("mode", JStr("managed")),
      ("type", JStr(t)),
      ("name", JStr(n)),
      ("provider", JStr("provider[\"registry.terraform.io/hashicorp/aws\"]")),
      ("instances", JArr([Instance()]))])
  }

  function Sample(t: string, n: string): Json
  {
    JObj([
      ("version", JNum(4)),
      ("terraform_version", JStr("1.0.0")),
      ("serial", JNum(1)),
      ("lineage", JStr("test-lineage")),
      ("outputs", JObj([])),
      ("resources", JArr([Resource(t, n)]))])
  }

  /** What the operations read of the sample: a loaded document with a version whose only
      resource `r` is a managed dict with type t, name n and a list of one instance. */
  predicate SampleShaped(doc: Json, r: Json, t: string, n: string)
  {
    && doc.JObj?
    && HasKey(doc.members, "resources") && HasKey(doc.members, "version")
    && ResourcesOf(doc) == JArr([r])
    && r.JObj?
    && Lookup(r.members, "type") == Some(JStr(t))
    && Lookup(r.members, "name") == Some(JStr(n))
    && Lookup(r.members, "mode") == Some(JStr("managed"))
    && Lookup(r.members, "instances") == Some(JArr([Instance()]))
  }

  lemma SampleTopShape(t: string, n: string)
    ensures HasKey(Sample(t, n).members, "resources") && HasKey(Sample(t, n).members, "version")
    ensures ResourcesOf(Sample(t, n)) == JArr([Resource(t, n)])
  {
    LookupDistinct(Sample(t, n).members, 5);
  }

  lemma ResourceShape(t: string, n: string)
    ensures Lookup(Resource(t, n).members, "type") == Some(JStr(t))
    ensures Lookup(Resource(t, n).members, "name") == Some(JStr(n))
    ensures Lookup(Resource(t, n).members, "mode") == Some(JStr("managed"))
    ensures Lookup(Resource(t, n).members, "instances") == Some(JArr([Instance()]))
  {
    LookupDistinct(Resource(t, n).members, 2);
    LookupDistinct(Resource(t, n).members, 4);
  }

  lemma SampleShape(t: string, n: string)
    ensures SampleShaped(Sample(t, n), Resource(t, n), t, n)
  {
    SampleTopShape(t, n);
    ResourceShape(t, n);
  }

  lemma InstanceWellFormed()
    ensures WellFormed(Instance())
  {
    var attributes := Instance().members[1].1;
    assert WellFormed(Tags());
    assert DistinctKeys(attributes.members);
    assert forall i :: 0 <= i < |attributes.members| ==> WellFormed(attributes.members[i].1);
    assert WellFormed(attributes);
    assert DistinctKeys(Instance().members);
  }

  lemma ResourceWellFormed(t: string, n: string)
    ensures WellFormed(Resource(t, n))
  {
    InstanceWellFormed();
    var r := Resource(t, n);
    assert WellFormed(r.members[4].1);
    assert forall i :: 0 <= i < |r.members| ==> WellFormed(r.members[i].1);
  }

  lemma SampleWellFormed(t: string, n: string)
    ensures WellFormed(Sample(t, n))
  {
    var d := Sample(t, n);
    assert DistinctKeys(d.members);
    ResourceWellFormed(t, n);
    assert WellFormed(d.members[4].1);
    assert WellFormed(d.members[5].1);
    assert forall i :: 0 <= i < |d.members| ==> WellFormed(d.members[i].1);
  }

  /** test_load_state (tests/test_tfstate_tool.py:57-61): the sample loads with version 4 and
      one resource, and its objects have distinct keys, as json.load leaves them. */
  lemma SampleLoads(t: string, n: string)
    ensures Load(Sample(t, n)) == Ok(Sample(t, n))
    ensures WellFormed(Sample(t, n))
    ensures Lookup(Sample(t, n).members, "version") == Some(JNum(4))
    ensures |ResourcesOf(Sample(t, n)).elems| == 1
  {
    SampleShape(t, n);
    SampleWellFormed(t, n);
    LookupDistinct(Sample(t, n).members, 0);
  }

  /** test_get_resource (tests/test_tfstate_tool.py:79-88): the resource's own address finds
      it, an address with another name finds nothing. */
  lemma SampleGet(doc: Json, r: Json, t: string, n: string, other: string)
    requires SampleShaped(doc, r, t, n) && '.' !in t && other != n
    ensures Locate(doc, t + "." + n) == Ok(Some(0))
    ensures Locate(doc, t + "." + other) == Ok(None)
  {
    SplitFirstJoin(t, n);
    SplitFirstJoin(t, other);
  }

  /** test_list_resources and test_filter_resources_by_type (tests/test_tfstate_tool.py:63-77):
      one summary, kept by a filter on its own type and dropped by a filter on another
      non-empty type (an empty filter is falsy and filters nothing). */
  lemma SampleListing(doc: Json, r: Json, t: string, n: string, otherType: string,
                      fnmatch: (string, string) -> bool)
    requires SampleShaped(doc, r, t, n) && t != "" && otherType != "" && otherType != t
    ensures Load(doc).Ok?
    ensures List(doc, None, None, fnmatch) == Ok([Summary(t + "." + n, JStr(t), JStr(n), JStr("managed"), 1)])
    ensures List(doc, Some(t), None, fnmatch) == Ok([Summary(t + "." + n, JStr(t), JStr(n), JStr("managed"), 1)])
    ensures List(doc, Some(otherType), None, fnmatch) == Ok([])
  {
    var summary := Summary(t + "." + n, JStr(t), JStr(n), JStr("managed"), 1);
    assert Summarize(r) == Ok(summary);
    assert [r][1..] == [];
    assert Kept(summary, None, None, fnmatch) && [summary] + [] == [summary];
    assert Listing([r], None, None, fnmatch) == Ok([summary]);
    assert Kept(summary, Some(t), None, fnmatch);
    assert Listing([r], Some(t), None, fnmatch) == Ok([summary]);
    assert !Kept(summary, Some(otherType), None, fnmatch);
    assert Listing([r], Some(otherType), None, fnmatch) == Ok([]);
  }

  /** test_validate_state (tests/test_tfstate_tool.py:158-162). */
  lemma SampleValidates(doc: Json, r: Json, t: string, n: string)
    requires SampleShaped(doc, r, t, n)
    ensures Validate(doc) == Ok((true, []))
  {
    ValidateCleanIff(doc);
  }

  /** test_modify_resource_attribute (tests/test_tfstate_tool.py:109-121) writes through
      `instances.0...`, reading "0" as a list index. Every segment is a dict key in
      core.py:110-120, and `instances` holds a list, so any path that goes on past
      `instances` raises TypeError instead. */
  lemma SampleModifyThroughList(doc: Json, r: Json, t: string, n: string, path: string, v: Json)
    requires SampleShaped(doc, r, t, n) && '.' !in t
    requires |SplitAll(path)| >= 2 && SplitAll(path)[0] == "instances"
    ensures Load(doc).Ok?
    ensures ModifyAttribute(doc, t + "." + n, path, v) == Err(TypeError)
  {
    SampleGet(doc, r, t, n, n + ".");
    assert ResourcesOf(doc).elems[0] == r;
    WriteThroughList(r, SplitAll(path), [Instance()], v);
  }

  /** A path whose first segment holds a list and that goes on past it cannot be written. */
  lemma WriteThroughList(node: Json, keys: seq<string>, xs: seq<Json>, v: Json)
    requires node.JObj? && |keys| >= 2 && Lookup(node.members, keys[0]) == Some(JArr(xs))
    ensures SetPath(node, keys, v) == Err(TypeError)
  {
    SetPathStep(node, keys, v);
  }

  /** test_delete_resource (tests/test_tfstate_tool.py:123-139): the delete reports True, the
      address then finds nothing and the listing is empty. */
  lemma SampleDelete(doc: Json, r: Json, t: string, n: string, fnmatch: (string, string) -> bool)
    requires SampleShaped(doc, r, t, n) && '.' !in t
    ensures Load(doc).Ok? && Delete(doc, t + "." + n).Ok?
    ensures var (deleted, after) := Delete(doc, t + "." + n).value;
            && deleted
            && Locate(after, t + "." + n) == Ok(None)
            && List(after, None, None, fnmatch) == Ok([])
  {
    SplitFirstJoin(t, n);
    DeleteEffect(doc, t + "." + n, t, n);
  }

  /** test_move_resource (tests/test_tfstate_tool.py:141-156): the move reports True, the old
      address then finds nothing and the new one finds the renamed resource. */
  lemma SampleMove(doc: Json, r: Json, t: string, n: string, newName: string)
    requires SampleShaped(doc, r, t, n) && '.' !in t && newName != n
    ensures Load(doc).Ok? && Move(doc, t + "." + n, t + "." + newName).Ok?
    ensures var (moved, after) := Move(doc, t + "." + n, t + "." + newName).value;
            && moved
            && Locate(after, t + "." + n) == Ok(None)
            && Locate(after, t + "." + newName) == Ok(Some(0))
            && Lookup(ResourcesOf(after).elems[0].members, "name") == Some(JStr(newName))
  {
    SampleGet(doc, r, t, n, newName);
    SplitFirstJoin(t, newName);
    var (moved, after) := Move(doc, t + "." + n, t + "." + newName).value;
    MoveEffect(doc, t + "." + n, t + "." + newName, 0, t, newName, moved, after);
    MoveAddresses(doc, t + "." + n, t + "." + newName, 0, t, newName, after);
  }

  /** A client session over the sample: the manager is opened, the resource renamed, and
      the old address then finds nothing while the new one finds it. */
  method Session(t: string, n: string, newName: string)
    returns (before: Result<Option<Json>>, after: Result<Option<Json>>)
    requires '.' !in t && newName != n
    ensures before == Ok(None)
    ensures after.Ok? && after.value.Some? && HasAddress(after.value.value, t, newName)
  {
    SampleLoads(t, n);
    SampleShape(t, n);
    var opening := TerraformStateManager.Open(Sample(t, n));
    var manager := opening.value;
    var moved := manager.MoveResource(t + "." + n, t + "." + newName);
    SampleMove(Sample(t, n), Resource(t, n), t, n, newName);
    before := manager.GetResource(t + "." + n);
    after := manager.GetResource(t + "." + newName);
    SplitFirstJoin(t, newName);
  }
}
