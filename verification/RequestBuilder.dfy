/**
 Native request construction (blp/request_builder.py). The native library hands out elements by handle;
 here a request is an arena of element nodes, updated in place, and a handle is an index into it.
 */
module RequestBuilder {
  import opened Wrappers
  import opened Descriptors

  type Handle = nat

  /** What one native element holds: named members, appended sub-elements, a chosen branch, and values. */
  datatype Node = Node(
    members: seq<(string, Handle)>, elements: seq<Handle>, choice: Option<(string, Handle)>, values: seq<Json>)

  const BLANK: Node := Node([], [], None, [])

  // --------------------------------------------------------- reading a request back

  function MemberOf(node: Node, name: string): Option<Handle> {
    FindMember(node.members, name)
  }

  function FindMember(members: seq<(string, Handle)>, name: string): (r: Option<Handle>)
    ensures r.Some? ==> (name, r.value) in members
    ensures r.None? ==> forall m <- members :: m.0 != name
  {
    if members == [] then None
    else if members[0].0 == name then Some(members[0].1)
    else FindMember(members[1..], name)
  }

  /** The members of an element, along the children of its descriptor. */
  ghost function ReadMembers(nodes: seq<Node>, members: seq<(string, Handle)>, d: Descriptor): Entries
    decreases d, 1, |members|
  {
    if members == [] then []
    else
      var (name, h) := members[|members| - 1];
      var child := ByName(d.children, name);
      ReadMembers(nodes, members[..|members| - 1], d)
      + (if child.Some? then [(name, ReadElement(nodes, h, child.value))] else [])
  }

  ghost function ReadElements(nodes: seq<Node>, handles: seq<Handle>, d: Descriptor): seq<Json>
    decreases d, 2, |handles|
  {
    if handles == [] then []
    else
      var h := handles[|handles| - 1];
      ReadElements(nodes, handles[..|handles| - 1], d) + [if h < |nodes| then
        Dict(ReadMembers(nodes, nodes[h].members, d)) else Null]
  }

  /** An element read back along its descriptor; a chosen branch reads as its single value. */
  ghost function ReadElement(nodes: seq<Node>, h: Handle, d: Descriptor): Json
    decreases d, 3
  {
    if h >= |nodes| then Null
    else
      var node := nodes[h];
      if d.kind.SEQUENCE? then
        if d.Repeated() then List(ReadElements(nodes, node.elements, d)) else Dict(ReadMembers(nodes, node.members, d))
      else if d.kind.CHOICE? then
        if node.choice.None? then Null
        else
          var (name, b) := node.choice.value;
          Dict([(name, if b < |nodes| && nodes[b].values != [] then nodes[b].values[0] else Null)])
      else if d.Repeated() then List(node.values)
      else if node.values != [] then node.values[0]
      else Null
  }

  // ------------------------------------------------------------- frames

  ghost function Refs(node: Node): set<Handle> {
    (set m <- node.members :: m.1) + (set h <- node.elements) + (if node.choice.Some? then {node.choice.value.1}
                                                                 else {})
  }

  ghost predicate RefsWithin(node: Node, lo: nat, hi: nat) {
    forall h <- Refs(node) :: lo <= h < hi
  }

  /** The nodes of this stretch of the arena refer to each other only. */
  ghost predicate Closed(nodes: seq<Node>, lo: nat, hi: nat) {
    hi <= |nodes| && forall i | lo <= i < hi :: RefsWithin(nodes[i], lo, hi)
  }

  ghost predicate SameStretch(nodes: seq<Node>, nodes': seq<Node>, lo: nat, hi: nat) {
    lo <= hi <= |nodes| && hi <= |nodes'| && forall i | lo <= i < hi :: nodes[i] == nodes'[i]
  }

  lemma RefsOf(node: Node, lo: nat, hi: nat)
    requires RefsWithin(node, lo, hi)
    ensures forall m <- node.members :: lo <= m.1 < hi
    ensures forall h <- node.elements :: lo <= h < hi
    ensures node.choice.Some? ==> lo <= node.choice.value.1 < hi
  {
    forall m <- node.members ensures lo <= m.1 < hi {
      assert m.1 in Refs(node);
    }
    forall h <- node.elements ensures lo <= h < hi {
      assert h in Refs(node);
    }
    if node.choice.Some? {
      assert node.choice.value.1 in Refs(node);
    }
  }

  lemma {:induction false} ReadMembersFrame(nodes: seq<Node>, nodes': seq<Node>, lo: nat, hi: nat,
                                            members: seq<(string, Handle)>, d: Descriptor)
    requires Closed(nodes, lo, hi) && SameStretch(nodes, nodes', lo, hi)
    requires forall m <- members :: lo <= m.1 < hi
    ensures ReadMembers(nodes, members, d) == ReadMembers(nodes', members, d)
    decreases d, 1, |members|
  {
    if members != [] {
      var (name, h) := members[|members| - 1];
      ReadMembersFrame(nodes, nodes', lo, hi, members[..|members| - 1], d);
      if ByName(d.children, name).Some? {
        assert members[|members| - 1] in members;
        ReadElementFrame(nodes, nodes', lo, hi, h, ByName(d.children, name).value);
      }
    }
  }

  lemma {:induction false} ReadElementsFrame(nodes: seq<Node>, nodes': seq<Node>, lo: nat, hi: nat,
                                             handles: seq<Handle>, d: Descriptor)
    requires Closed(nodes, lo, hi) && SameStretch(nodes, nodes', lo, hi)
    requires forall h <- handles :: lo <= h < hi
    ensures ReadElements(nodes, handles, d) == ReadElements(nodes', handles, d)
    decreases d, 2, |handles|
  {
    if handles != [] {
      var init, h := handles[..|handles| - 1], handles[|handles| - 1];
      assert h in handles && forall e <- init :: e in handles;
      RefsOf(nodes[h], lo, hi);
      ReadElementsFrame(nodes, nodes', lo, hi, init, d);
      ReadMembersFrame(nodes, nodes', lo, hi, nodes[h].members, d);
    }
  }

  lemma {:induction false} ReadElementFrame(nodes: seq<Node>, nodes': seq<Node>, lo: nat, hi: nat, h: Handle,
                                            d: Descriptor)
    requires Closed(nodes, lo, hi) && SameStretch(nodes, nodes', lo, hi) && lo <= h < hi
    ensures ReadElement(nodes, h, d) == ReadElement(nodes', h, d)
    decreases d, 3
  {
    RefsOf(nodes[h], lo, hi);
    if d.kind.SEQUENCE? {
      if d.Repeated() {
        ReadElementsFrame(nodes, nodes', lo, hi, nodes[h].elements, d);
      } else {
        ReadMembersFrame(nodes, nodes', lo, hi, nodes[h].members, d);
      }
    }
  }

  // ------------------------------------------------------------ what raises

  /** The error populating these members raises, if any; the first one counts. */
  function MembersError(d: Descriptor, values: Entries): Option<ErrorCode>
    decreases d, 1, |values|
  {
    if values == [] then None
    else
      var (key, value) := values[|values| - 1];
      var before := MembersError(d, values[..|values| - 1]);
      if before.Some? then before
      else if ByName(d.children, key).None? then Some(UNKNOWN_ELEMENT)
      else ElementError(ByName(d.children, key).value, value)
  }

  function ElementError(d: Descriptor, value: Json): Option<ErrorCode>
    decreases d, 3
  {
    if value.Null? then None
    else if d.kind.SEQUENCE? then ItemsError(d, if value.List? then value.items else [value])
    else if d.kind.CHOICE? then
      if !value.Dict? || |value.entries| != 1 then Some(INVALID_CHOICE)
      else if FirstNamed(d.choices, value.entries[0].0).None? then Some(INVALID_CHOICE)
      else ElementError(FirstNamed(d.choices, value.entries[0].0).value, value.entries[0].1)
    else None
  }

  function ItemsError(d: Descriptor, items: seq<Json>): Option<ErrorCode>
    decreases d, 2, |items|
  {
    if items == [] then None
    else
      var before := ItemsError(d, items[..|items| - 1]);
      if before.Some? then before
      else if !items[|items| - 1].Dict? then Some(INVALID_ELEMENT_TYPE)
      else MembersError(d, items[|items| - 1].entries)
  }

  lemma MembersErrorStays(d: Descriptor, values: Entries, k: nat)
    requires k <= |values| && MembersError(d, values[..k]).Some?
    ensures MembersError(d, values) == MembersError(d, values[..k])
    decreases |values| - k
  {
    if k < |values| {
      assert values[..k + 1][..k] == values[..k];
      MembersErrorStays(d, values, k + 1);
    } else {
      assert values[..k] == values;
    }
  }

  lemma ItemsErrorStays(d: Descriptor, items: seq<Json>, k: nat)
    requires k <= |items| && ItemsError(d, items[..k]).Some?
    ensures ItemsError(d, items) == ItemsError(d, items[..k])
    decreases |items| - k
  {
    if k < |items| {
      assert items[..k + 1][..k] == items[..k];
      ItemsErrorStays(d, items, k + 1);
    } else {
      assert items[..k] == items;
    }
  }

  // --------------------------------------------------------- canonical mappings

  predicate Flat(value: Json) {
    !value.Null? && !value.List? && !value.Dict?
  }

  /** A mapping in the form the validator gives it when no choice takes a composite branch. */
  ghost predicate CanonicalMembers(d: Descriptor, values: Entries)
    decreases d, 1
  {
    DistinctKeys(values) &&
    forall e <- values :: ByName(d.children, e.0).Some? && CanonicalElement(ByName(d.children, e.0).value, e.1)
  }

  ghost predicate CanonicalElement(d: Descriptor, value: Json)
    decreases d, 3
  {
    if d.kind.SEQUENCE? then
      if d.Repeated() then value.List? && CanonicalItems(d, value.items) else CanonicalItem(d, value)
    else if d.kind.CHOICE? then
      && value.Dict? && |value.entries| == 1
      && FirstNamed(d.choices, value.entries[0].0).Some?
      && !FirstNamed(d.choices, value.entries[0].0).value.Composite()
      && Flat(value.entries[0].1)
    else if d.Repeated() then value.List? && forall v <- value.items :: Flat(v)
    else Flat(value)
  }

  ghost predicate CanonicalItems(d: Descriptor, items: seq<Json>)
    decreases d, 2, 1
  {
    forall v <- items :: CanonicalItem(d, v)
  }

  ghost predicate CanonicalItem(d: Descriptor, value: Json)
    decreases d, 2, 0
  {
    value.Dict? && CanonicalMembers(d, value.entries)
  }

  // ------------------------------------------------------------- the request

  /** What filling one element may do to the arena: change that element, and add nodes that only it refers to. */
  ghost predicate Filled(before: seq<Node>, after: seq<Node>, h: Handle) {
    && h < |before| <= |after|
    && (forall i | 0 <= i < |before| && i != h :: after[i] == before[i])
    && Closed(after, |before|, |after|)
    && (forall r <- Refs(after[h]) :: r in Refs(before[h]) || |before| <= r < |after|)
  }

  lemma FilledStart(before: seq<Node>, h: Handle)
    requires h < |before|
    ensures Filled(before, before, h)
  {
  }

  /** The arena after one more referred-to node was added under h. */
  ghost predicate Extended(before: seq<Node>, after: seq<Node>, h: Handle) {
    && h < |before| && |after| == |before| + 1
    && (forall i | 0 <= i < |before| && i != h :: after[i] == before[i])
    && after[|before|] == BLANK
    && (forall r <- Refs(after[h]) :: r in Refs(before[h]) || r == |before|)
  }

  /** Filling h goes on: a node is added under it and filled. */
  lemma FilledChild(start: seq<Node>, before: seq<Node>, grown: seq<Node>, after: seq<Node>, h: Handle)
    requires Filled(start, before, h) && Extended(before, grown, h) && Filled(grown, after, |before|)
    ensures Filled(start, after, h)
    ensures SameStretch(before, after, |start|, |before|) && after[h] == grown[h]
  {
    assert forall r <- Refs(BLANK) :: false;
    forall i | |start| <= i < |after| ensures RefsWithin(after[i], |start|, |after|) {
      if i < |before| {
        assert RefsWithin(before[i], |start|, |before|);
      } else if i > |before| {
        assert RefsWithin(after[i], |grown|, |after|);
      }
    }
  }

  /** Reading the members already there is not disturbed by filling one more. */
  lemma MembersUndisturbed(start: seq<Node>, before: seq<Node>, after: seq<Node>, h: Handle, d: Descriptor)
    requires Filled(start, before, h) && SameStretch(before, after, |start|, |before|)
    requires forall m <- before[h].members :: |start| <= m.1 < |before|
    ensures ReadMembers(before, before[h].members, d) == ReadMembers(after, before[h].members, d)
  {
    ReadMembersFrame(before, after, |start|, |before|, before[h].members, d);
  }

  lemma ElementsUndisturbed(start: seq<Node>, before: seq<Node>, after: seq<Node>, h: Handle, d: Descriptor)
    requires Filled(start, before, h) && SameStretch(before, after, |start|, |before|)
    requires forall e <- before[h].elements :: |start| <= e < |before|
    ensures ReadElements(before, before[h].elements, d) == ReadElements(after, before[h].elements, d)
  {
    ReadElementsFrame(before, after, |start|, |before|, before[h].elements, d);
  }

  /** Dicts have distinct keys, all the way down. */
  ghost predicate DictLike(value: Json)
    decreases value
  {
    match value
    case Dict(entries) => DistinctKeys(entries) && forall e <- entries :: DictLike(e.1)
    case List(items) => forall v <- items :: DictLike(v)
    case _ => true
  }

  ghost predicate DictsLike(values: Entries) {
    DistinctKeys(values) && forall e <- values :: DictLike(e.1)
  }

  lemma NothingYet(nodes: seq<Node>, d: Descriptor)
    ensures ReadMembers(nodes, [], d) == [] && ReadElements(nodes, [], d) == []
    ensures MembersError(d, []) == None && ItemsError(d, []) == None
  {
  }

  lemma KeyStep(values: Entries, i: nat)
    requires DistinctKeys(values) && i < |values|
    ensures values[..i + 1] == values[..i] + [values[i]]
    ensures values[i].0 !in Keys(values[..i]) && Keys(values[..i + 1]) == Keys(values[..i]) + {values[i].0}
  {
  }

  lemma MembersErrorStep(d: Descriptor, values: Entries, i: nat)
    requires i < |values| && MembersError(d, values[..i]) == None
    ensures var child := ByName(d.children, values[i].0);
            MembersError(d, values[..i + 1]) ==
              if child.None? then Some(UNKNOWN_ELEMENT) else ElementError(child.value, values[i].1)
  {
    assert values[..i + 1][..i] == values[..i];
  }

  lemma {:induction false} CanonicalSequence(d: Descriptor, value: Json)
    requires d.kind.SEQUENCE? && CanonicalElement(d, value)
    ensures if d.Repeated() then value.List? && CanonicalItems(d, value.items)
            else value.Dict? && CanonicalMembers(d, value.entries)
  {
    assert !d.Repeated() ==> CanonicalItem(d, value);
  }

  lemma {:induction false} CanonicalNotNull(d: Descriptor, value: Json)
    requires CanonicalElement(d, value)
    ensures !value.Null?
  {
  }

  lemma {:induction false} CanonicalMember(d: Descriptor, values: Entries, e: (string, Json))
    requires CanonicalMembers(d, values) && e in values
    ensures ByName(d.children, e.0).Some? && CanonicalElement(ByName(d.children, e.0).value, e.1) && !e.1.Null?
  {
    CanonicalNotNull(ByName(d.children, e.0).value, e.1);
  }

  lemma ItemsErrorStep(d: Descriptor, items: seq<Json>, i: nat)
    requires i < |items| && ItemsError(d, items[..i]) == None
    ensures items[..i + 1] == items[..i] + [items[i]]
    ensures ItemsError(d, items[..i + 1]) ==
              if items[i].Dict? then MembersError(d, items[i].entries) else Some(INVALID_ELEMENT_TYPE)
  {
    assert items[..i + 1][..i] == items[..i];
  }

  lemma ItemOfList(d: Descriptor, items: seq<Json>, v: Json)
    requires v in items && DictLike(v)
    ensures v.Dict? ==> DictsLike(v.entries)
    ensures CanonicalItems(d, items) ==> v.Dict? && CanonicalMembers(d, v.entries)
  {
    assert CanonicalItems(d, items) ==> CanonicalItem(d, v);
  }

  class NativeRequest {
    var nodes: seq<Node>

    /** A request starts as its root element. */
    constructor ()
      ensures nodes == [BLANK]
    {
      nodes := [BLANK];
    }

    method GetElement(h: Handle, name: string) returns (c: Handle)
      requires h < |nodes|
      modifies this
      ensures MemberOf(old(nodes)[h], name).Some? ==> nodes == old(nodes) && c == MemberOf(old(nodes)[h], name).value
      ensures MemberOf(old(nodes)[h], name).None? ==>
                && c == |old(nodes)|
                && nodes == old(nodes)[h := old(nodes)[h].(members := old(nodes)[h].members + [(name, c)])] + [BLANK]
    {
      var found := MemberOf(nodes[h], name);
      if found.Some? {
        return found.value;
      }
      c := |nodes|;
      nodes := nodes[h := nodes[h].(members := nodes[h].members + [(name, c)])] + [BLANK];
    }

    method AppendElement(h: Handle) returns (c: Handle)
      requires h < |nodes|
      modifies this
      ensures c == |old(nodes)|
      ensures nodes == old(nodes)[h := old(nodes)[h].(elements := old(nodes)[h].elements + [c])] + [BLANK]
    {
      c := |nodes|;
      nodes := nodes[h := nodes[h].(elements := nodes[h].elements + [c])] + [BLANK];
    }

    method SetChoice(h: Handle, name: string) returns (c: Handle)
      requires h < |nodes|
      modifies this
      ensures c == |old(nodes)|
      ensures nodes == old(nodes)[h := old(nodes)[h].(choice := Some((name, c)))] + [BLANK]
    {
      c := |nodes|;
      nodes := nodes[h := nodes[h].(choice := Some((name, c)))] + [BLANK];
    }

    method SetValue(h: Handle, value: Json)
      requires h < |nodes|
      modifies this
      ensures nodes == old(nodes)[h := old(nodes)[h].(values := [value])]
    {
      nodes := nodes[h := nodes[h].(values := [value])];
    }

    method AppendValues(h: Handle, items: seq<Json>)
      requires h < |nodes|
      modifies this
      ensures nodes == old(nodes)[h := old(nodes)[h].(values := old(nodes)[h].values + items)]
    {
      assert old(nodes)[h].values + items[..0] == old(nodes)[h].values;
      for i := 0 to |items|
        invariant nodes == old(nodes)[h := old(nodes)[h].(values := old(nodes)[h].values + items[..i])]
      {
        assert old(nodes)[h].values + items[..i + 1] == old(nodes)[h].values + items[..i] + [items[i]];
        nodes := nodes[h := nodes[h].(values := nodes[h].values + [items[i]])];
      }
      assert items[..|items|] == items;
    }

    method PopulateRequest(d: Descriptor, parameters: Entries) returns (error: Option<ErrorCode>)
      requires nodes == [BLANK] && DictsLike(parameters)
      modifies this
      ensures error == MembersError(d, parameters)
      ensures error.None? && CanonicalMembers(d, parameters) ==>
                nodes != [] && ReadMembers(nodes, nodes[0].members, d) == parameters
    {
      error := FillMembers(0, d, parameters);
    }

    /** The members of one element, in the order of the mapping. */
    method FillMembers(h: Handle, d: Descriptor, values: Entries) returns (error: Option<ErrorCode>)
      requires h < |nodes| && nodes[h] == BLANK && DictsLike(values)
      modifies this
      ensures error == MembersError(d, values)
      ensures error.None? ==> Filled(old(nodes), nodes, h)
      ensures error.None? && CanonicalMembers(d, values) ==> ReadMembers(nodes, nodes[h].members, d) == values
      decreases d, 1, 0
    {
      hide Filled, CanonicalMembers, CanonicalElement, ReadMembers, MembersError, DictLike;
      ghost var start := nodes;
      FilledStart(nodes, h);
      assert values[..0] == [];
      NothingYet(nodes, d);
      for i := 0 to |values|
        invariant h < |nodes| && |start| <= |nodes| && MembersError(d, values[..i]) == None
        invariant Filled(start, nodes, h)
        invariant forall m <- nodes[h].members :: m.0 in Keys(values[..i]) && |start| <= m.1 < |nodes|
        invariant CanonicalMembers(d, values) ==> ReadMembers(nodes, nodes[h].members, d) == values[..i]
      {
        KeyStep(values, i);
        MembersErrorStep(d, values, i);
        var (key, value) := values[i];
        assert values[i] in values;
        if CanonicalMembers(d, values) {
          CanonicalMember(d, values, values[i]);
        }
        var child := ByName(d.children, key);
        if child.None? {
          MembersErrorStays(d, values, i + 1);
          return Some(UNKNOWN_ELEMENT);
        }
        if !value.Null? {
          error := FillMember(h, child.value, value, d, start);
          if error.Some? {
            MembersErrorStays(d, values, i + 1);
            return;
          }
        }
      }
      assert values[..|values|] == values;
      return None;
    }

    /** One member: composite children are filled in place, repeated ones appended to, and the rest set directly. */
    method FillMember(h: Handle, child: Descriptor, value: Json, ghost d: Descriptor, ghost start: seq<Node>)
      returns (error: Option<ErrorCode>)
      requires Filled(start, nodes, h) && DictLike(value) && !value.Null?
      requires forall m <- nodes[h].members :: m.0 != child.name && |start| <= m.1 < |nodes|
      requires ByName(d.children, child.name) == Some(child)
      modifies this
      ensures error == ElementError(child, value)
      ensures error.None? ==>
                && Filled(start, nodes, h)
                && nodes[h].members == old(nodes)[h].members + [(child.name, |old(nodes)|)]
                && |old(nodes)| < |nodes|
      ensures error.None? && CanonicalElement(child, value) ==>
                ReadMembers(nodes, nodes[h].members, d) ==
                  ReadMembers(old(nodes), old(nodes)[h].members, d) + [(child.name, value)]
      decreases child, 4
    {
      ghost var before := nodes;
      var c := GetElement(h, child.name);
      ghost var grown := nodes;
      assert Extended(before, grown, h);
      if child.Composite() {
        error := FillElement(c, child, value);
        if error.Some? {
          return;
        }
      } else {
        PutValues(c, child, value);
        error := None;
      }
      FilledChild(start, before, grown, nodes, h);
      MembersUndisturbed(start, before, nodes, h, d);
      assert nodes[h].members[..|nodes[h].members| - 1] == before[h].members;
    }

    /** appendValue for every item of a repeated element, setValue otherwise. */
    method PutValues(h: Handle, d: Descriptor, value: Json)
      requires h < |nodes| && nodes[h] == BLANK && !d.Composite()
      modifies this
      ensures Filled(old(nodes), nodes, h)
      ensures nodes[h].values == if d.Repeated() && value.List? then value.items else [value]
      ensures CanonicalElement(d, value) ==> ReadElement(nodes, h, d) == value
    {
      if d.Repeated() {
        AppendValues(h, if value.List? then value.items else [value]);
      } else {
        SetValue(h, value);
      }
    }

    method FillElement(h: Handle, d: Descriptor, value: Json) returns (error: Option<ErrorCode>)
      requires h < |nodes| && nodes[h] == BLANK && DictLike(value)
      modifies this
      ensures error == ElementError(d, value)
      ensures error.None? ==> Filled(old(nodes), nodes, h)
      ensures error.None? && CanonicalElement(d, value) ==> ReadElement(nodes, h, d) == value
      ensures error.None? && !d.Composite() && Flat(value) ==> nodes[h].values == [value]
      decreases d, 3
    {
      if CanonicalElement(d, value) {
        CanonicalNotNull(d, value);
      }
      if value.Null? {
        FilledStart(nodes, h);
        return None;
      }
      if d.kind.SEQUENCE? {
        var entries := if value.List? then value.items else [value];
        if CanonicalElement(d, value) {
          CanonicalSequence(d, value);
        }
        if !d.Repeated() && |entries| == 1 && entries[0].Dict? {
          assert entries[..1] == entries && entries[..0] == [];
          assert DictLike(entries[0]);
          error := FillMembers(h, d, entries[0].entries);
          OneItem(d, entries);
          return;
        }
        error := FillItems(h, d, entries);
        return;
      }
      if d.kind.CHOICE? {
        error := FillChoice(h, d, value);
        return;
      }
      PutValues(h, d, value);
      return None;
    }

    /** An appended sub-element for every entry. */
    method FillItems(h: Handle, d: Descriptor, items: seq<Json>) returns (error: Option<ErrorCode>)
      requires h < |nodes| && nodes[h] == BLANK && forall v <- items :: DictLike(v)
      modifies this
      ensures error == ItemsError(d, items)
      ensures error.None? ==> Filled(old(nodes), nodes, h)
      ensures error.None? && CanonicalItems(d, items) ==> ReadElements(nodes, nodes[h].elements, d) == items
      decreases d, 2
    {
      hide Filled, CanonicalItems, CanonicalMembers, ReadElements, MembersError, DictLike;
      ghost var start := nodes;
      FilledStart(nodes, h);
      NothingYet(nodes, d);
      assert items[..0] == [];
      for i := 0 to |items|
        invariant h < |nodes| && |start| <= |nodes| && ItemsError(d, items[..i]) == None
        invariant Filled(start, nodes, h)
        invariant forall e <- nodes[h].elements :: |start| <= e < |nodes|
        invariant CanonicalItems(d, items) ==> ReadElements(nodes, nodes[h].elements, d) == items[..i]
      {
        ItemsErrorStep(d, items, i);
        assert items[i] in items;
        ItemOfList(d, items, items[i]);
        if !items[i].Dict? {
          ItemsErrorStays(d, items, i + 1);
          return Some(INVALID_ELEMENT_TYPE);
        }
        error := FillItem(h, d, items[i].entries, start);
        if error.Some? {
          ItemsErrorStays(d, items, i + 1);
          return;
        }
      }
      assert items[..|items|] == items;
      return None;
    }

    method FillItem(h: Handle, d: Descriptor, entries: Entries, ghost start: seq<Node>)
      returns (error: Option<ErrorCode>)
      requires Filled(start, nodes, h) && DictsLike(entries)
      requires forall e <- nodes[h].elements :: |start| <= e < |nodes|
      modifies this
      ensures error == MembersError(d, entries)
      ensures error.None? ==>
                && Filled(start, nodes, h)
                && nodes[h].elements == old(nodes)[h].elements + [|old(nodes)|]
                && |old(nodes)| < |nodes|
      ensures error.None? && CanonicalMembers(d, entries) ==>
                ReadElements(nodes, nodes[h].elements, d) ==
                  ReadElements(old(nodes), old(nodes)[h].elements, d) + [Dict(entries)]
      decreases d, 1, 1
    {
      ghost var before := nodes;
      var c := AppendElement(h);
      ghost var grown := nodes;
      assert Extended(before, grown, h);
      error := FillMembers(c, d, entries);
      if error.None? {
        FilledChild(start, before, grown, nodes, h);
        ElementsUndisturbed(start, before, nodes, h, d);
        assert nodes[h].elements[..|nodes[h].elements| - 1] == before[h].elements;
      }
    }

    method FillChoice(h: Handle, d: Descriptor, value: Json) returns (error: Option<ErrorCode>)
      requires h < |nodes| && nodes[h] == BLANK && DictLike(value) && !value.Null? && d.kind.CHOICE?
      modifies this
      ensures error == ElementError(d, value)
      ensures error.None? ==> Filled(old(nodes), nodes, h)
      ensures error.None? && CanonicalElement(d, value) ==> ReadElement(nodes, h, d) == value
      decreases d, 2
    {
      if !value.Dict? || |value.entries| != 1 {
        return Some(INVALID_CHOICE);
      }
      var (name, branchValue) := value.entries[0];
      var branch := FirstNamed(d.choices, name);
      if branch.None? {
        return Some(INVALID_CHOICE);
      }
      ghost var before := nodes;
      FilledStart(nodes, h);
      var c := SetChoice(h, name);
      ghost var grown := nodes;
      assert Extended(before, grown, h);
      error := FillElement(c, branch.value, branchValue);
      if error.None? {
        FilledChild(before, before, grown, nodes, h);
      }
    }
  }

  lemma OneItem(d: Descriptor, items: seq<Json>)
    requires |items| == 1 && items[0].Dict?
    ensures ItemsError(d, items) == MembersError(d, items[0].entries)
  {
    assert items[..0] == [];
  }
}
