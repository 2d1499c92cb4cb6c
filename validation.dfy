/** validate_state (core.py:163-193): a structural check that collects every problem it
    finds instead of stopping at the first. */
module Validation {
  import opened Outcomes
  import opened JsonValue
  import opened ResourceIndex
  import Text

  /** One problem validate_state reports. */
  datatype Issue =
    | RootNotObject
    | MissingResources
    | MissingVersion
    | ResourcesNotList
    | NotADictionary(index: nat)
    | MissingType(index: nat)
    | MissingName(index: nat)

  /** The message validate_state appends for an issue. */
  function Message(e: Issue): string
  {
    match e
    case RootNotObject => "State data must be a dictionary"
    case MissingResources => "Missing 'resources' key"
    case MissingVersion => "Missing 'version' key"
    case ResourcesNotList => "'resources' must be a list"
    case NotADictionary(i) => "Resource " + Text.NatToDecimal(i) + " must be a dictionary"
    case MissingType(i) => "Resource " + Text.NatToDecimal(i) + " missing 'type'"
    case MissingName(i) => "Resource " + Text.NatToDecimal(i) + " missing 'name'"
  }

  /** The messages of a list of issues, position by position; different issues never share
      a message, so no information is lost in the text. */
  function Messages(issues: seq<Issue>): (r: seq<string>)
    ensures |r| == |issues|
    ensures forall i :: 0 <= i < |issues| ==> r[i] == Message(issues[i])
    ensures forall a, b :: 0 <= a < |issues| && 0 <= b < |issues| && issues[a] != issues[b] ==> r[a] != r[b]
  {
    assert forall a, b :: 0 <= a < |issues| && 0 <= b < |issues| && issues[a] != issues[b]
                          ==> Message(issues[a]) != Message(issues[b]) by {
      forall a, b | 0 <= a < |issues| && 0 <= b < |issues| && issues[a] != issues[b]
        ensures Message(issues[a]) != Message(issues[b])
      {
        if Message(issues[a]) == Message(issues[b]) {
          MessageInjective(issues[a], issues[b]);
        }
      }
    }
    seq(|issues|, i requires 0 <= i < |issues| => Message(issues[i]))
  }

  /** The text after the index in the message of a per-resource issue. */
  function Suffix(e: Issue): string
    requires ResourceLevel(e)
  {
    match e
    case NotADictionary(_) => " must be a dictionary"
    case MissingType(_) => " missing 'type'"
    case MissingName(_) => " missing 'name'"
  }

  /** The characters at position |d1| of d1 + s1 and of a longer-headed d2 + s2. */
  lemma CharAtSeam(d1: string, s1: string, d2: string, s2: string)
    ensures |d1| < |d2| && |s1| >= 1 ==> (d1 + s1)[|d1|] == s1[0] && (d2 + s2)[|d1|] == d2[|d1|]
  {
  }

  /** A run of digits followed by text starting with a space splits in one way only. */
  lemma DigitsBeforeSpace(d1: string, s1: string, d2: string, s2: string)
    requires forall k :: 0 <= k < |d1| ==> '0' <= d1[k] <= '9'
    requires forall k :: 0 <= k < |d2| ==> '0' <= d2[k] <= '9'
    requires |s1| >= 1 && |s2| >= 1 && s1[0] == ' ' && s2[0] == ' ' && d1 + s1 == d2 + s2
    ensures d1 == d2 && s1 == s2
  {
    if |d1| < |d2| {
      CharAtSeam(d1, s1, d2, s2);
      assert false;
    } else if |d2| < |d1| {
      CharAtSeam(d2, s2, d1, s1);
      assert false;
    } else {
      assert (d1 + s1)[..|d1|] == d1 && (d2 + s2)[..|d2|] == d2;
      assert (d1 + s1)[|d1|..] == s1 && (d2 + s2)[|d2|..] == s2;
    }
  }

  /** A common head can be dropped from both sides of an equation. */
  lemma DropHead(p: string, x1: string, y1: string, x2: string, y2: string)
    requires p + x1 + y1 == p + x2 + y2
    ensures x1 + y1 == x2 + y2
  {
    assert (p + x1 + y1)[|p|..] == x1 + y1;
    assert (p + x2 + y2)[|p|..] == x2 + y2;
  }

  /** The first character of a concatenation with a non-empty head. */
  lemma FirstChar(p: string, rest: string)
    ensures |p| >= 1 ==> (p + rest)[0] == p[0]
  {
  }

  /** Two messages made of one head, an index and a suffix starting with a space agree only
      with the same index and the same suffix. */
  lemma IndexedParts(p: string, i: nat, j: nat, s1: string, s2: string)
    requires |s1| >= 1 && |s2| >= 1 && s1[0] == ' ' && s2[0] == ' '
    requires p + Text.NatToDecimal(i) + s1 == p + Text.NatToDecimal(j) + s2
    ensures i == j && s1 == s2
  {
    var (d1, d2) := (Text.NatToDecimal(i), Text.NatToDecimal(j));
    DropHead(p, d1, s1, d2, s2);
    DigitsBeforeSpace(d1, s1, d2, s2);
    Text.NatToDecimalInjective(i, j);
  }

  /** An issue about one resource, whose message names its position. */
  predicate ResourceLevel(e: Issue)
  {
    e.NotADictionary? || e.MissingType? || e.MissingName?
  }

  /** The message of a per-resource issue starts with 'R'; no document-level message does. */
  lemma MessageHead(e: Issue)
    ensures ResourceLevel(e) ==> Message(e) == "Resource " + Text.NatToDecimal(e.index) + Suffix(e)
    ensures (Message(e)[0] == 'R') <==> ResourceLevel(e)
  {
    if ResourceLevel(e) {
      FirstChar("Resource " + Text.NatToDecimal(e.index), Suffix(e));
      FirstChar("Resource ", Text.NatToDecimal(e.index));
    }
  }

  /** Different issues get different messages, so the strings validate_state returns tell
      every problem apart. */
  lemma MessageInjective(a: Issue, b: Issue)
    requires Message(a) == Message(b)
    ensures a == b
  {
    MessageHead(a);
    MessageHead(b);
    if ResourceLevel(a) {
      IndexedParts("Resource ", a.index, b.index, Suffix(a), Suffix(b));
    }
  }

  /** The issues of one iterated resource at position `i` (core.py:183-191). */
  function ItemIssues(item: Json, i: nat): (r: seq<Issue>)
    ensures |r| <= 2
  {
    if !item.JObj? then [NotADictionary(i)]
    else
      (if HasKey(item.members, "type") then [] else [MissingType(i)])
      + (if HasKey(item.members, "name") then [] else [MissingName(i)])
  }

  /** The loop of core.py:182-191 over the items from position `from` on. */
  function EntryIssues(items: seq<Json>, from: nat): (r: seq<Issue>)
    ensures |r| <= 2 * |items|
    ensures forall e :: e in r ==> ResourceLevel(e)
  {
    if |items| == 0 then [] else ItemIssues(items[0], from) + EntryIssues(items[1..], from + 1)
  }

  /** The loop of core.py:182-191, appending the issues of each resource in turn. */
  method CollectEntryIssues(items: seq<Json>) returns (issues: seq<Issue>)
    ensures issues == EntryIssues(items, 0)
  {
    issues := [];
    var i := 0;
    assert items[0..] == items;
    while i < |items|
      invariant 0 <= i <= |items|
      invariant EntryIssues(items, 0) == issues + EntryIssues(items[i..], i)
    {
      EntryIssuesStep(items, i);
      var item := items[i];
      var found: seq<Issue> := [];
      if !item.JObj? {
        found := [NotADictionary(i)];
      } else {
        if !HasKey(item.members, "type") {
          found := found + [MissingType(i)];
        }
        if !HasKey(item.members, "name") {
          found := found + [MissingName(i)];
        }
      }
      assert found == ItemIssues(item, i);
      AppendAssoc(issues, found, EntryIssues(items[i + 1..], i + 1));
      issues := issues + found;
      i := i + 1;
    }
    assert items[i..] == [];
    assert issues + [] == issues;
  }

  lemma EntryIssuesStep(items: seq<Json>, i: nat)
    requires i < |items|
    ensures EntryIssues(items[i..], i) == ItemIssues(items[i], i) + EntryIssues(items[i + 1..], i + 1)
  {
    assert items[i..][0] == items[i] && items[i..][1..] == items[i + 1..];
  }

  lemma AppendAssoc(a: seq<Issue>, b: seq<Issue>, c: seq<Issue>)
    ensures a + (b + c) == (a + b) + c
  {
  }

  /** The issues found before the loop over the resources (core.py:171-179). */
  function HeaderIssues(doc: Json): (r: seq<Issue>)
    requires doc.JObj?
    ensures MissingResources in r <==> !HasKey(doc.members, "resources")
    ensures MissingVersion in r <==> !HasKey(doc.members, "version")
    ensures ResourcesNotList in r <==> !ResourcesOf(doc).JArr?
    ensures forall e :: e in r ==> e == MissingResources || e == MissingVersion || e == ResourcesNotList
    ensures InReportOrder(r)
  {
    (if HasKey(doc.members, "resources") then [] else [MissingResources])
    + (if HasKey(doc.members, "version") then [] else [MissingVersion])
    + (if ResourcesOf(doc).JArr? then [] else [ResourcesNotList])
  }

  /** validate_state: the flag and the issues in the order they are appended. Iterating a
      `resources` value that is a number, boolean or null raises TypeError. */
  function Validate(doc: Json): (r: Result<(bool, seq<Issue>)>)
    ensures r.Ok? ==> (r.value.0 <==> r.value.1 == [])
    ensures r.Err? <==> doc.JObj? && Iterate(ResourcesOf(doc)).Err?
  {
    if !doc.JObj? then Ok((false, [RootNotObject]))
    else
      match Iterate(ResourcesOf(doc))
      case Err(f) => Err(f)
      case Ok(items) =>
        var issues := HeaderIssues(doc) + EntryIssues(items, 0);
        Ok((|issues| == 0, issues))
  }

  /** Where an issue sits in the fixed reporting order: document-level issues first, then the
      resources by position, and for one resource a missing type before a missing name. */
  function Rank(e: Issue): (nat, nat)
  {
    match e
    case RootNotObject => (0, 0)
    case MissingResources => (0, 1)
    case MissingVersion => (0, 2)
    case ResourcesNotList => (0, 3)
    case NotADictionary(i) => (i + 1, 0)
    case MissingType(i) => (i + 1, 1)
    case MissingName(i) => (i + 1, 2)
  }

  predicate Precedes(x: Issue, y: Issue)
  {
    Rank(x).0 < Rank(y).0 || (Rank(x).0 == Rank(y).0 && Rank(x).1 < Rank(y).1)
  }

  predicate InReportOrder(es: seq<Issue>)
  {
    forall a, b :: 0 <= a < b < |es| ==> Precedes(es[a], es[b])
  }

  lemma ConcatInReportOrder(xs: seq<Issue>, ys: seq<Issue>)
    requires InReportOrder(xs) && InReportOrder(ys)
    requires forall x, y :: x in xs && y in ys ==> Precedes(x, y)
    ensures InReportOrder(xs + ys)
  {
    var zs := xs + ys;
    forall a, b | 0 <= a < b < |zs| ensures Precedes(zs[a], zs[b]) {
      if a < |xs| && b >= |xs| {
        assert zs[a] in xs && zs[b] in ys;
      } else if a >= |xs| {
        assert zs[a] == ys[a - |xs|] && zs[b] == ys[b - |xs|];
      }
    }
  }

  /** The issues of the resources from position `from` on come in report order and all
      belong to those positions. */
  lemma {:induction false} EntryIssuesOrdered(items: seq<Json>, from: nat)
    ensures InReportOrder(EntryIssues(items, from))
    ensures forall e :: e in EntryIssues(items, from) ==> from + 1 <= Rank(e).0 <= from + |items|
    decreases |items|
  {
    if |items| > 0 {
      var head := ItemIssues(items[0], from);
      var rest := EntryIssues(items[1..], from + 1);
      assert EntryIssues(items, from) == head + rest;
      EntryIssuesOrdered(items[1..], from + 1);
      ItemIssuesExact(items[0], from);
      assert InReportOrder(head);
      assert forall x, y :: x in head && y in rest ==> Precedes(x, y);
      ConcatInReportOrder(head, rest);
      assert forall e :: e in head + rest ==> e in head || e in rest;
    }
  }

  /** validate_state reports its issues in one fixed order, each at most once. */
  lemma ValidateInReportOrder(doc: Json)
    requires Validate(doc).Ok?
    ensures InReportOrder(Validate(doc).value.1)
  {
    if doc.JObj? {
      var items := Iterate(ResourcesOf(doc)).value;
      EntryIssuesOrdered(items, 0);
      ConcatInReportOrder(HeaderIssues(doc), EntryIssues(items, 0));
    }
  }

  /** The messages validate_state returns are pairwise different: no problem is reported
      twice, and no two problems share a text. */
  lemma ValidateMessagesDistinct(doc: Json)
    requires Validate(doc).Ok?
    ensures var texts := Messages(Validate(doc).value.1);
            forall a, b :: 0 <= a < b < |texts| ==> texts[a] != texts[b]
  {
    var issues := Validate(doc).value.1;
    ValidateInReportOrder(doc);
    forall a, b | 0 <= a < b < |issues| ensures Message(issues[a]) != Message(issues[b]) {
      if Message(issues[a]) == Message(issues[b]) {
        MessageInjective(issues[a], issues[b]);
      }
    }
  }

  /** Each resource position gets exactly the issues its item has. */
  lemma ItemIssuesExact(item: Json, i: nat)
    ensures forall e :: e in ItemIssues(item, i) ==> Rank(e).0 == i + 1
    ensures NotADictionary(i) in ItemIssues(item, i) <==> !item.JObj?
    ensures MissingType(i) in ItemIssues(item, i) <==> item.JObj? && !HasKey(item.members, "type")
    ensures MissingName(i) in ItemIssues(item, i) <==> item.JObj? && !HasKey(item.members, "name")
  {
  }

  /** In issues of one position r followed by issues of later positions, the issues of
      position t are the first part's when t is r, and the second part's otherwise. */
  lemma RankSplit(head: seq<Issue>, rest: seq<Issue>, r: nat, t: nat)
    requires forall e :: e in head ==> Rank(e).0 == r
    requires forall e :: e in rest ==> Rank(e).0 > r
    ensures t == r ==> forall e :: e in head + rest && Rank(e).0 == t <==> e in head
    ensures t != r ==> forall e :: e in head + rest && Rank(e).0 == t <==> e in rest && Rank(e).0 == t
  {
  }

  lemma {:induction false} EntryIssuesExact(items: seq<Json>, from: nat, k: nat)
    requires k < |items|
    ensures forall e :: e in EntryIssues(items, from) && Rank(e).0 == from + k + 1
                        <==> e in ItemIssues(items[k], from + k)
    decreases k
  {
    var head := ItemIssues(items[0], from);
    var rest := EntryIssues(items[1..], from + 1);
    assert EntryIssues(items, from) == head + rest;
    EntryIssuesOrdered(items[1..], from + 1);
    ItemIssuesExact(items[0], from);
    RankSplit(head, rest, from + 1, from + k + 1);
    if k > 0 {
      assert items[1..][k - 1] == items[k];
      EntryIssuesExact(items[1..], from + 1, k - 1);
    }
  }

  /** A document-level issue is reported exactly when its condition holds; a document that is
      not an object gets that one issue and nothing else. */
  lemma ValidateDocumentIssues(doc: Json)
    requires Validate(doc).Ok?
    ensures !doc.JObj? ==> Validate(doc) == Ok((false, [RootNotObject]))
    ensures doc.JObj? ==>
              && (MissingResources in Validate(doc).value.1 <==> !HasKey(doc.members, "resources"))
              && (MissingVersion in Validate(doc).value.1 <==> !HasKey(doc.members, "version"))
              && (ResourcesNotList in Validate(doc).value.1 <==> !ResourcesOf(doc).JArr?)
              && RootNotObject !in Validate(doc).value.1
  {
    if doc.JObj? {
      var items := Iterate(ResourcesOf(doc)).value;
      var head := HeaderIssues(doc);
      var entries := EntryIssues(items, 0);
      assert Validate(doc).value.1 == head + entries;
      EntryIssuesOrdered(items, 0);
      assert MissingResources !in entries && MissingVersion !in entries;
      assert ResourcesNotList !in entries && RootNotObject !in entries;
      assert RootNotObject !in head;
    }
  }

  /** The document shape that passes validation. */
  ghost predicate Conformant(doc: Json)
  {
    && doc.JObj?
    && HasKey(doc.members, "version")
    && HasKey(doc.members, "resources")
    && ResourcesOf(doc).JArr?
    && forall i :: 0 <= i < |ResourcesOf(doc).elems| ==>
         var r := ResourcesOf(doc).elems[i];
         r.JObj? && HasKey(r.members, "type") && HasKey(r.members, "name")
  }

  /** A document that validates clean is conformant. */
  lemma CleanIsConformant(doc: Json)
    requires Validate(doc) == Ok((true, []))
    ensures Conformant(doc)
  {
    var items := Iterate(ResourcesOf(doc)).value;
    assert ResourcesOf(doc).JArr?;
    if !Conformant(doc) {
      var i :| 0 <= i < |items| &&
        !(items[i].JObj? && HasKey(items[i].members, "type") && HasKey(items[i].members, "name"));
      EntryIssuesExact(items, 0, i);
      ItemIssuesExact(items[i], i);
    }
  }

  /** validate_state returns (True, []) exactly for a document with a version and a list of
      resources that are all dicts carrying a type and a name. */
  lemma ValidateCleanIff(doc: Json)
    ensures Validate(doc) == Ok((true, [])) <==> Conformant(doc)
  {
    if Conformant(doc) {
      NoEntryIssues(Iterate(ResourcesOf(doc)).value, 0);
    }
    if Validate(doc) == Ok((true, [])) {
      CleanIsConformant(doc);
    }
  }

  lemma {:induction false} NoEntryIssues(items: seq<Json>, from: nat)
    requires forall i :: 0 <= i < |items| ==>
               items[i].JObj? && HasKey(items[i].members, "type") && HasKey(items[i].members, "name")
    ensures EntryIssues(items, from) == []
    decreases |items|
  {
    if |items| > 0 {
      assert forall i :: 1 <= i < |items| ==> items[1..][i - 1] == items[i];
      NoEntryIssues(items[1..], from + 1);
    }
  }
}
