# tfstate-tool state manager in Dafny

A model of `TerraformStateManager` (tfstate_tool/core.py), the in-memory side of a
Terraform state file tool. The model covers:

- what `_load_state` demands of the parsed JSON;
- the look-up of a resource by its `type.name` address;
- the listing of resource summaries with a type filter and a name pattern;
- the write of an attribute along a dotted path, with missing dicts created on the way;
- deletion and renaming of resources;
- the structural validation that collects every problem it finds.

The JSON a state file holds is the datatype `Json`. An object is the insertion-ordered
list of its members, as a Python dict keeps them, so listings and validation messages come
out in document order. `WellFormed` says every object has distinct keys, which is what
`json.load` hands over. The class invariant includes it, and every mutation keeps it.

Each Python method raises or returns. The model returns a `Result`: `Ok` with the Python
return value, or `Err` with the exception the Python code raises. The faults are:

- `ValueError` when the parsed document is not an object or has no `resources` key (`_load_state`);
- `ValueError` for an address or a new address without '.';
- `ValueError` for a move onto an address that is already taken;
- `TypeError` when a value of the wrong JSON kind is iterated, measured or indexed;
- `AttributeError` when `.get` is called on something that is not a dict.

Python's `for x in v` over the `resources` value is modelled exactly (`Iterate`):

- a list yields its elements;
- a dict yields its keys;
- a string yields its characters;
- a number, boolean or null raises TypeError.

Modules:

- `Outcomes` (outcomes.dfy): `Option`, `Result` and the faults.
- `JsonValue` (json.dfy): JSON values, `d.get(key)` as `Lookup`, `d[key] = v` as `Put`, and `str()`/`repr()` of a value.
- `Text` (text.dfy): `split(".", 1)`, `split(".")` and decimal rendering.
- `AttributePath` (attribute_path.dfy): the path walk of `modify_resource_attribute`.
- `ResourceIndex` (resource_index.dfy): iteration of `resources`, the first-match search, the listing and the delete filter.
- `Validation` (validation.dfy): `validate_state`.
- `StateManager` (state_manager.dfy): each operation as a function from the old document to the outcome and the new document, the properties of those functions, and the class `TerraformStateManager`. The class holds the document in a mutable field, and its methods are proved against those functions.
- `Scenarios` (scenarios.dfy): the document of tests/test_tfstate_tool.py, with the resource's type and name as parameters, and what each tested operation does to it.

## Model

| member | source | states |
|---|---|---|
| Text.SplitFirst | tfstate_tool/core.py:80-82 | An address splits exactly when it holds a '.'. The split is at the first '.', and the two parts joined with '.' give the address back. |
| Text.SplitAll | tfstate_tool/core.py:110 | `split(".")` gives at least one part, no part holds a '.', and joining the parts gives the path back. |
| Text.SplitAllJoinDots | tfstate_tool/core.py:110 | Splitting the join of dot-free parts gives back exactly those parts. |
| Text.NatToDecimal | tfstate_tool/core.py:184-191 | The index rendered into a message is a non-empty string of decimal digits, without a leading zero, whose decimal value is the index. |
| Text.NatToDecimalInjective | tfstate_tool/core.py:184-191 | Different indices render as different digit strings. |
| JsonValue.Lookup | tfstate_tool/core.py:85-86 | `d.get(key)` is None exactly when no member has the key; otherwise it returns a value stored under the key. |
| JsonValue.Put | tfstate_tool/core.py:116-120 | After `d[key] = v` the key reads v and every other key reads as before. An existing key keeps its position and a new key is appended. No other member appears. |
| JsonValue.PutWellFormed | tfstate_tool/core.py:116-120 | Assigning a well-formed value into a dict with distinct keys leaves a dict with distinct keys. |
| JsonValue.LookupWellFormed | tfstate_tool/core.py:117 | A value read from a well-formed dict is well-formed. |
| JsonValue.Repr | tfstate_tool/core.py:59 | `repr()` is never empty, and its first character tells the kind of value: `N` for null, `T`/`F` for a boolean, a digit or `-` for a number, a quote for a str, `[` for a list, `{` for a dict. A str, list or dict also ends with its closing quote or bracket. |
| AttributePath.SetPathTopLevel | tfstate_tool/core.py:110-120 | The write raises TypeError on a resource that is not a dict. A successful write yields a dict that holds the first key of the path and agrees with the old dict on every other key. |
| AttributePath.SetPathReadBack | tfstate_tool/core.py:110-120 | After a successful write, following the path gives the written value. |
| AttributePath.SetPathElsewhere | tfstate_tool/core.py:110-120 | A path that leaves the written path at some segment reads the same before and after the write. |
| AttributePath.SetPathIntoEmpty | tfstate_tool/core.py:114-120 | Writing into an empty dict succeeds and builds one new single-key dict per segment. |
| AttributePath.SetPathVivifies | tfstate_tool/core.py:114-117 | Where a prefix of the path led nowhere, the write leaves the chain of new dicts that holds the value. |
| AttributePath.SetPathFailsIff | tfstate_tool/core.py:114-120 | The write raises exactly when a proper prefix of the path already leads to a non-dict, and then it raises TypeError. So a failing write fails before it inserts anything. |
| AttributePath.SetPathWellFormed | tfstate_tool/core.py:110-120 | A successful write of a well-formed value keeps the resource well-formed. |
| AttributePath.WriteAttribute | tfstate_tool/core.py:110-120 | The descend-then-assign loop gives exactly the result of the path write `SetPath`. |
| ResourceIndex.Iterate | tfstate_tool/core.py:57 | Iterating yields the elements of a list, the keys of a dict in order, and the characters of a str in order, each as a one-character string. Any other value raises TypeError. |
| ResourceIndex.HasAddress | tfstate_tool/core.py:85-86 | A resource has an address exactly when it is a dict whose `.get("type")` and `.get("name")` are those two strings. Such a resource is listed under `type.name`. |
| ResourceIndex.FindFirst | tfstate_tool/core.py:84-89 | A found index holds the first resource with the address, and every earlier one is a dict without it. None means every resource is a dict without it. AttributeError means a non-dict precedes any match. |
| ResourceIndex.FindFirstMatch | tfstate_tool/core.py:84-89 | The early-return loop gives exactly the first-match search. |
| ResourceIndex.Locate | tfstate_tool/core.py:77-89 | ValueError exactly for an address without '.'. A found position lies in the resources list and holds a resource whose type and name are the address's two parts. |
| ResourceIndex.SplitFirstJoin | tfstate_tool/core.py:80 | `t + "." + n` with a dot-free t splits back into (t, n). |
| ResourceIndex.InstanceCount | tfstate_tool/core.py:63 | Without `instances` the count is 0. Otherwise it is the number of things iterating the value yields, and TypeError exactly when the value cannot be iterated. |
| ResourceIndex.Summarize | tfstate_tool/core.py:58-64 | A summary exists exactly for a dict whose `instances` has a length; a non-dict raises AttributeError, and a bad `instances` raises TypeError. The address is the `str()` of the type and of the name joined by '.', with `unknown` for a missing one. The type and the name are the stored values, or null when missing. The mode is the stored value, or `managed` when missing. The instance count is `InstanceCount`. |
| ResourceIndex.KeepOnly | tfstate_tool/core.py:66-73 | The filters keep, in order, exactly the summaries that pass both of them. The result is a subsequence made only of kept summaries, and it is as long as the number of kept summaries, repeats included. |
| ResourceIndex.Listing | tfstate_tool/core.py:57-75 | The listing is never longer than the resources, holds only summaries that pass the filters, and raises only AttributeError or TypeError. |
| ResourceIndex.ListMatching | tfstate_tool/core.py:57-75 | The listing loop gives exactly the listing `Listing` of the resources. |
| ResourceIndex.ListingUnfiltered | tfstate_tool/core.py:55-75 | Unfiltered, the listing raises exactly when some resource cannot be summarised. Otherwise it gives one summary per resource, position by position. |
| ResourceIndex.ListingFiltered | tfstate_tool/core.py:66-73 | A filtered listing raises exactly when the unfiltered one does. Otherwise it is the unfiltered listing with the summaries that fail a filter dropped. |
| ResourceIndex.TypeFilterExact | tfstate_tool/core.py:67-68 | An active type filter returns only summaries of exactly that type. |
| ResourceIndex.ListedAddressLocates | tfstate_tool/core.py:59 | Take a resource whose type (free of '.') and name are strings. Its listed address splits back into them, and look-up of that address finds it or an earlier resource with the same address. |
| ResourceIndex.CountZero | tfstate_tool/core.py:135-140 | No resource has the address exactly when the number with it is zero. |
| ResourceIndex.Retain | tfstate_tool/core.py:135-138 | The comprehension succeeds exactly when every resource is a dict; otherwise it raises AttributeError. |
| ResourceIndex.RetainKeeps | tfstate_tool/core.py:135-140 | The kept list holds exactly the resources without the address, in their order, and is shorter by the number with it. |
| ResourceIndex.RetainMatching | tfstate_tool/core.py:135-138 | The filtering loop gives exactly the comprehension `Retain`. |
| Validation.Messages | tfstate_tool/core.py:168-191 | One message per issue, position by position. Different issues never get the same message. |
| Validation.MessageInjective | tfstate_tool/core.py:168-191 | Two issues with the same message are the same issue, including the resource index. |
| Validation.ValidateMessagesDistinct | tfstate_tool/core.py:163-193 | The messages validate_state returns are pairwise different. |
| Validation.HeaderIssues | tfstate_tool/core.py:171-179 | Each document-level issue is reported exactly when its condition holds, no other issue is reported, and they come in the order of the checks. |
| Validation.ItemIssues | tfstate_tool/core.py:183-191 | At most two issues for one resource. |
| Validation.EntryIssues | tfstate_tool/core.py:182-191 | At most twice as many issues as resources, and all of them about a resource. |
| Validation.EntryIssuesOrdered | tfstate_tool/core.py:182-191 | The per-resource issues come in report order, and each names a resource position within the list. |
| Validation.CollectEntryIssues | tfstate_tool/core.py:182-191 | The per-resource loop appends exactly the issues of each resource in turn (`EntryIssues`). |
| Validation.Validate | tfstate_tool/core.py:163-193 | The flag is True exactly when no issue was found. The call raises exactly when the document is an object whose `resources` value cannot be iterated. |
| Validation.ValidateInReportOrder | tfstate_tool/core.py:163-193 | Issues come in one fixed order: document-level checks first, then resources by position (type before name). No issue is reported twice. |
| Validation.ItemIssuesExact | tfstate_tool/core.py:183-191 | A resource is reported as not a dictionary exactly when it is not a dict. A missing type or name is reported exactly when a dict lacks that key. |
| Validation.EntryIssuesExact | tfstate_tool/core.py:182-191 | The issues reported for position k are exactly those of the k-th resource. |
| Validation.ValidateDocumentIssues | tfstate_tool/core.py:167-179 | A non-object gets the one root issue. For an object, each document-level issue is reported exactly when its condition holds. |
| Validation.ValidateCleanIff | tfstate_tool/core.py:163-193 | Validation gives (True, []) exactly for an object with `version` and a `resources` list whose elements are all dicts with `type` and `name`. |
| StateManager.List | tfstate_tool/core.py:52-75 | A `resources` value that cannot be iterated raises TypeError. A successful listing is no longer than the resources and holds only summaries that pass the filters. Only TypeError or AttributeError is raised. |
| StateManager.Load | tfstate_tool/core.py:33-38 | Loading succeeds exactly for an object with a `resources` key, and keeps the document as parsed. |
| StateManager.LoadedDocumentIssues | tfstate_tool/core.py:33-38 | A loaded document is never reported as a non-dict nor as missing `resources`. |
| StateManager.WithResources | tfstate_tool/core.py:135 | After `state_data["resources"] = items` the resources read `items`, the document still loads, and every other key is unchanged. |
| StateManager.ModifyAttribute | tfstate_tool/core.py:102-122 | The result is (False, unchanged document) exactly when the address finds nothing. A successful result still loads. |
| StateManager.ModifyFailsIff | tfstate_tool/core.py:102-122 | ValueError exactly for an address without '.'. A fault of the look-up is raised as is. Once a resource is found, the call raises exactly when a proper prefix of the attribute path leads to a value in that resource that is not a dict, and then it raises TypeError. |
| StateManager.ModifyEffect | tfstate_tool/core.py:102-122 | A successful modify of a found resource reports True and writes the value where the path leads in that resource. The resource count, the other resources and every other document key are unchanged. |
| StateManager.ModifyWellFormed | tfstate_tool/core.py:102-122 | A successful modify with a well-formed value keeps the document well-formed. |
| StateManager.Delete | tfstate_tool/core.py:124-140 | ValueError exactly for an address without '.'. A successful delete leaves a loadable document whose resources are a list. |
| StateManager.DeleteEffect | tfstate_tool/core.py:124-140 | The list shrinks by the number of resources with the address. The flag is True exactly when that number is positive. The rest keep their order and are all kept. Afterwards the address finds nothing. Other document keys are unchanged. |
| StateManager.DeleteWellFormed | tfstate_tool/core.py:124-140 | A successful delete keeps the document well-formed. |
| StateManager.Move | tfstate_tool/core.py:142-161 | The result is (False, unchanged document) exactly when the old address finds nothing, and a fault of the old look-up is raised as is. Once the old address finds a resource: a new address without '.' raises the invalid-new-address ValueError, and only then. A fault of the new look-up is raised as is. A new address that finds a resource raises the already-exists ValueError. A new address that finds nothing gives True. A successful result still loads. |
| StateManager.Renamed | tfstate_tool/core.py:158-159 | The renamed resource has the new address, and every key other than `type` and `name` reads as before. |
| StateManager.RenamedKeys | tfstate_tool/core.py:158-159 | Renaming gives the new type and name, keeps every other key's value, and leaves the keys in their order. |
| StateManager.MoveEffect | tfstate_tool/core.py:142-161 | A successful move of a found resource reports True and renames it in place. The other keys, the other resources and the other document keys are unchanged. |
| StateManager.MoveAddresses | tfstate_tool/core.py:142-161 | After a move the new address finds the renamed resource where it stood. The old address finds only a later resource, or nothing if the renamed one was its only holder. |
| StateManager.MoveOntoItself | tfstate_tool/core.py:153-155 | Moving a found resource onto its own address raises the already-exists error. |
| StateManager.MoveWellFormed | tfstate_tool/core.py:142-161 | A successful move keeps the document well-formed. |
| StateManager.TerraformStateManager.constructor | tfstate_tool/core.py:16-20 | A manager built on a loaded, well-formed document holds that document and satisfies the invariant. |
| StateManager.TerraformStateManager.Open | tfstate_tool/core.py:16-38 | A manager is made exactly when the parsed document loads, holding that document. Otherwise the load's ValueError is raised. |
| StateManager.TerraformStateManager.FindResource | tfstate_tool/core.py:84-89 | The position get_resource stops at is `Locate` of the current document. |
| StateManager.TerraformStateManager.GetResource | tfstate_tool/core.py:77-89 | ValueError exactly for an address without '.'. The resource returned is in the resources list and has the address, and it is the one at the located position. |
| StateManager.TerraformStateManager.ListResources | tfstate_tool/core.py:52-75 | The summaries returned are the listing of the current document. |
| StateManager.TerraformStateManager.ModifyResourceAttribute | tfstate_tool/core.py:102-122 | Returns what `ModifyAttribute` of the old document returns. The document becomes its new document on success and is unchanged on a raise. The invariant is kept. |
| StateManager.TerraformStateManager.DeleteResource | tfstate_tool/core.py:124-140 | Returns what `Delete` of the old document returns. The document becomes its new document on success and is unchanged on a raise. The invariant is kept. |
| StateManager.TerraformStateManager.MoveResource | tfstate_tool/core.py:142-161 | Returns what `Move` of the old document returns. The document becomes its new document on success and is unchanged on a raise. The invariant is kept. |
| StateManager.TerraformStateManager.ValidateState | tfstate_tool/core.py:163-193 | Returns the flag and the messages of `Validate` of the current document, or its fault. |
| Scenarios.SampleLoads | tests/test_tfstate_tool.py:57-61 | The test document loads with version 4 and one resource, and has distinct keys throughout. |
| Scenarios.SampleGet | tests/test_tfstate_tool.py:79-88 | The resource's own address finds it, and an address with another name finds nothing. |
| Scenarios.SampleListing | tests/test_tfstate_tool.py:63-77 | One summary with the expected address, type, name, mode and instance count. A filter on its type keeps it and a filter on another type drops it. |
| Scenarios.SampleValidates | tests/test_tfstate_tool.py:158-162 | Validation of the test document gives (True, []). |
| Scenarios.SampleModifyThroughList | tests/test_tfstate_tool.py:109-121 | Any path that continues past `instances` raises TypeError on the test document. |
| Scenarios.SampleDelete | tests/test_tfstate_tool.py:123-139 | The delete reports True, the address then finds nothing, and the listing is empty. |
| Scenarios.SampleMove | tests/test_tfstate_tool.py:141-156 | The move reports True. The old address then finds nothing and the new one finds the resource, now carrying the new name. |
| Scenarios.Session | tests/test_tfstate_tool.py:141-156 | Through the class: after the move, get_resource of the old address returns None and get_resource of the new one returns a resource with that address. |

## Where the code and its tests differ

The model follows the code.

- Attribute paths: core.py:110-120 uses every segment of the path as a dict key. The tests
  (tests/test_tfstate_tool.py:109-121) and examples/main.py:147-151 write through
  `instances.0...`, reading `0` as a list index. In the code, `"0" in <list>` is False, and the
  assignment `current["0"] = {}` into a list raises TypeError. So that test's modify raises.
  `Scenarios.SampleModifyThroughList` proves this for every path that continues past
  `instances`.
- Path errors: a shape mismatch on the path raises TypeError out of
  `modify_resource_attribute`. The method does not report it as a False result.
- Instance counts: `list_resources` takes `len(resource.get("instances", []))`. An
  `instances` key holding null or a number raises TypeError. A dict counts its keys, and a
  string counts its characters.
- Non-list `resources`: `validate_state` reports that `resources` is not a list, and then
  still iterates it. A dict yields its keys and a string its characters, each reported as
  "must be a dictionary". A number, boolean or null raises TypeError from the loop.
- Lists before filters: `list_resources` builds the summary before it applies the filters.
  A resource that cannot be summarised therefore raises even when a filter would have
  dropped it.

## Left out

- File input and output: `_load_state` opening and parsing the file (core.py:24-31), `_save_state`, `create_backup` (a file copy named by the clock) and `export_resource` (`get_resource` followed by `json.dump` to a file). The manager is opened on the already parsed document instead.
- TerraformStateManager.Open: requires the parsed document to have distinct keys in every object, which `json.load` always produces; parse errors and a missing file are not modelled.
- `fnmatch.fnmatch` is a parameter of the listing; its glob semantics are not modelled.
- JSON numbers are integers only; floats are not modelled.
- JsonValue.Repr: the `repr()` of a string inside a container is written without Python's escaping of quotes and control characters. It matters only for the address of a resource whose type or name is a container.
- In-place mutation: Python mutates the nested dicts in place through the alias `current`. The model rebuilds the updated resource as a value. Aliasing of a returned resource by the caller is not modelled: in Python, mutating the dict `get_resource` returns changes the state.
- ResourceIndex.Count: its own contract states only the bound by the list length; the facts used about it are stated by `CountZero` and `StateManager.CountOne`.
- tfstate_tool/operations.py, cli.py, utils.py and __init__.py are presentation and command-line glue; they are not part of this model.
