/** Validated parameters are instances of the JSON Schema that the gateway advertises for the operation. */
module SchemaConformance {
  import opened Wrappers
  import opened Descriptors
  import opened Validation
  import opened CanonicalForm
  import opened ValidateThenBuild
  import opened JsonSchema
  import opened SchemaEmission

  /**
   The input reaches one of the places where the output is not what the schema says: a temporal or binary leaf, a
   choice that takes a composite branch, or a repeated choice, which the validator never takes for an array.
   */
  ghost predicate StraysEntries(d: Descriptor, entries: Entries)
    decreases d, 1
  {
    exists e <- entries :: Lookup(d.children, e.0).Some? && StraysElement(Lookup(d.children, e.0).value, e.1)
  }

  ghost predicate StraysElement(d: Descriptor, raw: Json)
    decreases d, 3
  {
    if d.kind.CHOICE? then d.Repeated() || StraysChoice(d, raw) else exists item <- Items(raw) :: StraysItem(d, item)
  }

  ghost predicate StraysItem(d: Descriptor, item: Json)
    decreases d, 2
  {
    if d.kind.SEQUENCE? then item.Dict? && StraysEntries(d, item.entries) else Temporal(d.kind)
  }

  ghost predicate StraysChoice(d: Descriptor, raw: Json) {
    raw.Dict? && |raw.entries| == 1 && FirstNamed(d.choices, raw.entries[0].0).Some? &&
    var branch := FirstNamed(d.choices, raw.entries[0].0).value;
    branch.Composite() || Temporal(branch.kind)
  }

  function ChildProperties(d: Descriptor): Properties
    requires d.kind.SEQUENCE?
  {
    PropertiesOf(d.children, InlineParts(d, |d.children|))
  }

  lemma {:induction false} PropertyAt(ds: seq<Descriptor>, schemas: seq<Schema>, i: nat)
    requires |ds| == |schemas| && i < |ds| && DistinctNames(ds)
    ensures Property(PropertiesOf(ds, schemas), ds[i].name) == Some(WrapArray(ds[i], schemas[i]))
    decreases |ds|
  {
    var k := |ds| - 1;
    PropertyOfPut(PropertiesOf(ds[..k], schemas[..k]), ds[k].name, WrapArray(ds[k], schemas[k]), ds[i].name);
    if i < k {
      PropertyAt(ds[..k], schemas[..k], i);
    }
  }

  lemma ChildProperty(d: Descriptor, c: Descriptor)
    requires d.kind.SEQUENCE? && DistinctNames(d.children) && c in d.children
    ensures Property(ChildProperties(d), c.name) == Some(WrapArray(c, Inline(c)))
  {
    var i :| 0 <= i < |d.children| && d.children[i] == c;
    InlinePartAt(d, |d.children|, i);
    PropertyAt(d.children, InlineParts(d, |d.children|), i);
  }

  lemma {:induction false} RequiredNames(ds: seq<Descriptor>, name: string)
    requires name in RequiredOf(ds)
    ensures exists c <- ds :: c.minValues >= 1 && c.name == name
    decreases |ds|
  {
    var k := |ds| - 1;
    if ds[k].minValues < 1 || ds[k].name != name {
      RequiredNames(ds[..k], name);
      var c :| c in ds[..k] && c.minValues >= 1 && c.name == name;
      assert c in ds;
    } else {
      assert ds[k] in ds;
    }
  }

  lemma ScalarConforms(rules: Rules, d: Descriptor, raw: Json)
    requires !d.Composite() && !Temporal(d.kind) && ValidateScalar(rules, d, raw).Ok?
    ensures Conforms(Inline(d), ValidateScalar(rules, d, raw).value)
  {
  }

  lemma {:induction false} ObjectConforms(rules: Rules, d: Descriptor, entries: Entries, depth: nat, count: nat)
    requires d.kind.SEQUENCE? && WellNamed(d)
    requires ValidateObject(rules, d, entries, depth, count).Ok? && !StraysEntries(d, entries)
    ensures Conforms(Inline(d), Dict(ValidateObject(rules, d, entries, depth, count).value.0))
    decreases d, 2
  {
    var done := ValidateObject(rules, d, entries, depth, count).value.0;
    EntriesConform(rules, d, entries, depth, count);
    forall name <- RequiredOf(d.children) ensures name in Keys(done) {
      RequiredNames(d.children, name);
    }
  }

  lemma {:induction false} EntriesConform(rules: Rules, d: Descriptor, entries: Entries, depth: nat, count: nat)
    requires d.kind.SEQUENCE? && WellNamed(d)
    requires ValidateEntries(rules, d, entries, depth, count).Ok? && !StraysEntries(d, entries)
    ensures forall e <- ValidateEntries(rules, d, entries, depth, count).value.0 ::
              Property(ChildProperties(d), e.0).Some? && Conforms(Property(ChildProperties(d), e.0).value, e.1)
    decreases d, 1, |entries|
  {
    if entries != [] {
      var init, last := entries[..|entries| - 1], entries[|entries| - 1];
      EntriesConform(rules, d, init, depth, count);
      var child := Lookup(d.children, last.0);
      if child.Some? {
        assert !StraysElement(child.value, last.1);
        ElementConforms(rules, child.value, last.1, depth, ValidateEntries(rules, d, init, depth, count).value.1);
        ChildProperty(d, child.value);
      }
    }
  }

  lemma {:induction false} ElementConforms(rules: Rules, d: Descriptor, raw: Json, depth: nat, count: nat)
    requires WellNamed(d)
    requires ValidateElement(rules, d, raw, depth, count).Ok? && !StraysElement(d, raw)
    ensures Conforms(WrapArray(d, Inline(d)), ValidateElement(rules, d, raw, depth, count).value.0)
    decreases d, 4
  {
    if d.kind.CHOICE? {
      ChoiceConforms(rules, d, raw, depth, count);
    } else if d.Repeated() {
      ItemsConform(rules, d, Items(raw), depth, count + |Items(raw)|);
    } else {
      ItemConforms(rules, d, Items(raw)[0], depth, count);
    }
  }

  lemma {:induction false} ItemsConform(rules: Rules, d: Descriptor, items: seq<Json>, depth: nat, count: nat)
    requires !d.kind.CHOICE? && WellNamed(d) && ValidateItems(rules, d, items, depth, count).Ok?
    requires forall item <- items :: !StraysItem(d, item)
    ensures |ValidateItems(rules, d, items, depth, count).value.0| == |items|
    ensures forall v <- ValidateItems(rules, d, items, depth, count).value.0 :: Conforms(Inline(d), v)
    decreases d, 3, |items|
  {
    if items != [] {
      var init, last := items[..|items| - 1], items[|items| - 1];
      ItemsConform(rules, d, init, depth, count);
      ItemConforms(rules, d, last, depth, ValidateItems(rules, d, init, depth, count).value.1);
    }
  }

  lemma {:induction false} ItemConforms(rules: Rules, d: Descriptor, raw: Json, depth: nat, count: nat)
    requires !d.kind.CHOICE? && WellNamed(d)
    requires ValidateItem(rules, d, raw, depth, count).Ok? && !StraysItem(d, raw)
    ensures Conforms(Inline(d), ValidateItem(rules, d, raw, depth, count).value.0)
    decreases d, 3, 0
  {
    if d.kind.SEQUENCE? {
      ObjectConforms(rules, d, raw.entries, depth + 1, count);
    } else {
      ScalarConforms(rules, d, raw);
    }
  }

  lemma {:induction false} ChoiceConforms(rules: Rules, d: Descriptor, raw: Json, depth: nat, count: nat)
    requires d.kind.CHOICE? && ValidateChoice(rules, d, raw, depth, count).Ok? && !StraysChoice(d, raw)
    ensures Conforms(Inline(d), ValidateChoice(rules, d, raw, depth, count).value.0)
  {
    var (name, value) := raw.entries[0];
    var branch := FirstNamed(d.choices, name).value;
    var i :| 0 <= i < |d.choices| && d.choices[i] == branch;
    ScalarConforms(rules, branch, value);
    InlinePartAt(d, |d.choices|, i);
    var branches := BranchesOf(d.choices, InlineParts(d, |d.choices|));
    assert branches[i] == (name, Inline(branch)) && branches[i] in branches;
    var v := ValidateScalar(rules, branch, value).value;
    assert (name, v) in [(name, v)] && Inline(d) == AnyOf(branches);
  }

  // ------------------------------------------------ and the others never do

  /** A repeated choice is advertised as an array and accepted only as an object. */
  lemma RepeatedChoiceNeverConforms(rules: Rules, d: Descriptor, raw: Json, depth: nat, count: nat)
    requires d.kind.CHOICE? && d.Repeated() && ValidateElement(rules, d, raw, depth, count).Ok?
    ensures !Conforms(WrapArray(d, Inline(d)), ValidateElement(rules, d, raw, depth, count).value.0)
  {
  }

  lemma {:induction false} ObjectStrays(rules: Rules, d: Descriptor, entries: Entries, depth: nat, count: nat)
    requires d.kind.SEQUENCE? && WellNamed(d) && BranchesApart(d)
    requires ValidateObject(rules, d, entries, depth, count).Ok? && StraysEntries(d, entries)
    ensures !Conforms(Inline(d), Dict(ValidateObject(rules, d, entries, depth, count).value.0))
    decreases d, 2
  {
    var e :| e in entries && Lookup(d.children, e.0).Some? && StraysElement(Lookup(d.children, e.0).value, e.1);
    var i :| 0 <= i < |entries| && entries[i] == e;
    var child := Lookup(d.children, e.0).value;
    var done := ValidateEntries(rules, d, entries, depth, count).value.0;
    var j, n := EntryKept(rules, d, entries, i, depth, count);
    ElementStrays(rules, child, e.1, depth, n);
    ChildProperty(d, child);
    OneBadEntry(d, done, j);
  }

  lemma OneBadEntry(d: Descriptor, done: Entries, j: nat)
    requires d.kind.SEQUENCE? && j < |done| && Property(ChildProperties(d), done[j].0).Some?
    requires !Conforms(Property(ChildProperties(d), done[j].0).value, done[j].1)
    ensures !Conforms(Inline(d), Dict(done))
  {
    assert Inline(d) == Object(ChildProperties(d), RequiredOf(d.children));
    assert done[j] in done;
  }

  lemma {:induction false} ElementStrays(rules: Rules, d: Descriptor, raw: Json, depth: nat, count: nat)
    requires WellNamed(d) && BranchesApart(d)
    requires ValidateElement(rules, d, raw, depth, count).Ok? && StraysElement(d, raw)
    ensures !Conforms(WrapArray(d, Inline(d)), ValidateElement(rules, d, raw, depth, count).value.0)
    decreases d, 4
  {
    if d.kind.CHOICE? {
      if d.Repeated() {
        RepeatedChoiceNeverConforms(rules, d, raw, depth, count);
      } else {
        ChoiceStrays(rules, d, raw, depth, count);
      }
    } else if d.Repeated() {
      ListStrays(rules, d, Items(raw), depth, count + |Items(raw)|);
    } else {
      ItemStrays(rules, d, Items(raw)[0], depth, count);
    }
  }

  lemma {:induction false} ListStrays(rules: Rules, d: Descriptor, items: seq<Json>, depth: nat, count: nat)
    requires !d.kind.CHOICE? && WellNamed(d) && BranchesApart(d) && ValidateItems(rules, d, items, depth, count).Ok?
    requires exists item <- items :: StraysItem(d, item)
    ensures exists v <- ValidateItems(rules, d, items, depth, count).value.0 :: !Conforms(Inline(d), v)
    decreases d, 3, 1
  {
    var item :| item in items && StraysItem(d, item);
    var i :| 0 <= i < |items| && items[i] == item;
    var n := ItemKept(rules, d, items, i, depth, count);
    ItemStrays(rules, d, item, depth, n);
    assert ValidateItems(rules, d, items, depth, count).value.0[i] in ValidateItems(rules, d, items, depth,
                                                                                    count).value.0;
  }

  lemma {:induction false} ItemStrays(rules: Rules, d: Descriptor, raw: Json, depth: nat, count: nat)
    requires !d.kind.CHOICE? && WellNamed(d) && BranchesApart(d)
    requires ValidateItem(rules, d, raw, depth, count).Ok? && StraysItem(d, raw)
    ensures !Conforms(Inline(d), ValidateItem(rules, d, raw, depth, count).value.0)
    decreases d, 3, 0
  {
    if d.kind.SEQUENCE? {
      ObjectStrays(rules, d, raw.entries, depth + 1, count);
    } else {
      StrayScalar(rules, d, raw);
    }
  }

  /** Decoded text is no JSON text, and a text is no object. */
  lemma StrayScalar(rules: Rules, d: Descriptor, raw: Json)
    requires (d.Composite() || Temporal(d.kind)) && ValidateScalar(rules, d, raw).Ok?
    ensures !Conforms(Inline(d), ValidateScalar(rules, d, raw).value)
  {
  }

  lemma {:induction false} ChoiceStrays(rules: Rules, d: Descriptor, raw: Json, depth: nat, count: nat)
    requires d.kind.CHOICE? && WellNamed(d) && BranchesApart(d)
    requires ValidateChoice(rules, d, raw, depth, count).Ok? && StraysChoice(d, raw)
    ensures !Conforms(Inline(d), ValidateChoice(rules, d, raw, depth, count).value.0)
  {
    var (name, value) := raw.entries[0];
    var branch := FirstNamed(d.choices, name).value;
    var branches := BranchesOf(d.choices, InlineParts(d, |d.choices|));
    assert Inline(d) == AnyOf(branches);
    if branch.kind.SEQUENCE? && value.Dict? {
      KeysAreNames(rules, branch, value.entries, depth + 1, count);
      var done := ValidateObject(rules, branch, value.entries, depth + 1, count).value.0;
      forall b <- branches ensures b.0 !in Keys(done) {
        var i :| 0 <= i < |branches| && branches[i] == b;
        assert d.choices[i] in d.choices;
      }
    } else {
      StrayScalar(rules, branch, value);
      var v := ValidateScalar(rules, branch, value).value;
      var done := [(name, v)];
      forall b <- branches | b.0 in Keys(done) ensures !Conforms(b.1, v) {
        var i :| 0 <= i < |branches| && branches[i] == b;
        InlinePartAt(d, |d.choices|, i);
        FirstNamedFinds(d.choices, d.choices[i]);
      }
      assert done[0] in done;
    }
  }

  // ------------------------------------------------------------ main results

  /** The output conforms to the document emitted for the operation, once its references are replaced. */
  lemma ValidatedConforms(rules: Rules, d: Descriptor, parameters: Json, override: Option<bool>,
                          maxDepth: int, types: map<string, Descriptor>, fuel: nat)
    requires d.kind.SEQUENCE? && WellNamed(d)
    requires ValidateParameters(rules, d, parameters, override).Ok? && !StraysEntries(d, parameters.entries)
    requires Consistent(d, types) && Height(d) <= maxDepth && fuel > Height(d)
    ensures var advertised := EmitDocument(d, true, maxDepth);
            Conforms(Expand(advertised.defs, advertised.root, fuel),
                     ValidateParameters(rules, d, parameters, override).value)
  {
    var tightened := rules.(rejectUnknown := rules.rejectUnknown || override == Some(true));
    ObjectConforms(tightened, d, parameters.entries, 0, 0);
    AdvertisedIsInline(d, maxDepth, types, fuel);
  }

  lemma AdvertisedIsInline(d: Descriptor, maxDepth: int, types: map<string, Descriptor>, fuel: nat)
    requires Consistent(d, types) && Height(d) <= maxDepth && fuel > Height(d)
    ensures var advertised := EmitDocument(d, true, maxDepth);
            Expand(advertised.defs, advertised.root, fuel) == Inline(d)
  {
    SharingKeepsTheMeaning(d, maxDepth, types, fuel);
    UnnamedEmits(d, 0, maxDepth, map[], {});
  }

  /** When branch names cannot be taken for child names, that is exactly when it does. */
  lemma ConformsExactly(rules: Rules, d: Descriptor, parameters: Json, override: Option<bool>,
                        maxDepth: int, types: map<string, Descriptor>, fuel: nat)
    requires d.kind.SEQUENCE? && WellNamed(d) && BranchesApart(d)
    requires ValidateParameters(rules, d, parameters, override).Ok?
    requires Consistent(d, types) && Height(d) <= maxDepth && fuel > Height(d)
    ensures var advertised := EmitDocument(d, true, maxDepth);
            Conforms(Expand(advertised.defs, advertised.root, fuel),
                     ValidateParameters(rules, d, parameters, override).value)
            <==> !StraysEntries(d, parameters.entries)
  {
    if StraysEntries(d, parameters.entries) {
      var tightened := rules.(rejectUnknown := rules.rejectUnknown || override == Some(true));
      ObjectStrays(tightened, d, parameters.entries, 0, 0);
      AdvertisedIsInline(d, maxDepth, types, fuel);
    } else {
      ValidatedConforms(rules, d, parameters, override, maxDepth, types, fuel);
    }
  }

  // ---------------------------------------------------------------- an example

  /** A request with one repeated choice between two texts. */
  const LEFT := Descriptor("left", [], STRING, 0, Some(1), [], [], [], None)
  const RIGHT := Descriptor("right", [], STRING, 0, Some(1), [], [], [], None)
  const SIDES := Descriptor("sides", [], CHOICE, 0, None, [], [], [LEFT, RIGHT], None)
  const LISTED := Descriptor("request", [], SEQUENCE, 0, Some(1), [SIDES], [], [], None)
  const SIDE: Json := Dict([("left", Text("x"))])

  lemma OneSide(rules: Rules)
    ensures ValidateElement(rules, SIDES, SIDE, 0, 0) == Ok((SIDE, 0))
    ensures ValidateElement(rules, SIDES, List([SIDE]), 0, 0) == Err(INVALID_CHOICE)
    ensures Conforms(Inline(SIDES), SIDE)
  {
    FirstNamedFinds(SIDES.choices, LEFT);
    var branches := BranchesOf(SIDES.choices, InlineParts(SIDES, 2));
    InlinePartAt(SIDES, 2, 0);
    assert Inline(SIDES) == AnyOf(branches) && branches[0] == ("left", Inline(LEFT)) && branches[0] in branches;
    assert Conforms(Inline(LEFT), Text("x")) && SIDE.entries[0] in SIDE.entries;
  }

  lemma OneProperty(value: Json)
    ensures Conforms(Inline(LISTED), Dict([("sides", value)])) <==> Conforms(Array(Inline(SIDES), None, None), value)
  {
    assert SIDES in LISTED.children;
    ChildProperty(LISTED, SIDES);
    assert Inline(LISTED) == Object(ChildProperties(LISTED), RequiredOf(LISTED.children));
    assert LISTED.children[..0] == [] && RequiredOf(LISTED.children) == [];
    var done: Entries := [("sides", value)];
    assert done[0] in done;
  }

  lemma OneListedEntry(rules: Rules, value: Json)
    requires rules.maxDepth >= 0
    ensures ValidateParameters(rules, LISTED, Dict([("sides", value)]), None) ==
              match ValidateElement(rules, SIDES, value, 0, 0)
              case Err(error) => Err(error)
              case Ok((v, _)) => Ok(Dict([("sides", v)]))
  {
    assert rules.(rejectUnknown := rules.rejectUnknown || None == Some(true)) == rules;
    ByNameFinds(LISTED.children, SIDES);
    OneEntry(rules, LISTED, ("sides", value), 0, 0);
  }

  /** What is accepted is not an instance of the document; what the document asks for is refused. */
  lemma RepeatedChoiceIsNotAList(rules: Rules)
    requires rules.maxDepth >= 0
    ensures EmitDocument(LISTED, true, MAX_SCHEMA_DEPTH) == Document(Inline(LISTED), map[])
    ensures ValidateParameters(rules, LISTED, Dict([("sides", SIDE)]), None) == Ok(Dict([("sides", SIDE)]))
    ensures !Conforms(Inline(LISTED), Dict([("sides", SIDE)]))
    ensures Conforms(Inline(LISTED), Dict([("sides", List([SIDE]))]))
    ensures ValidateParameters(rules, LISTED, Dict([("sides", List([SIDE]))]), None) == Err(INVALID_CHOICE)
  {
    NothingNamed();
    OneSide(rules);
    OneListedEntry(rules, SIDE);
    OneListedEntry(rules, List([SIDE]));
    OneProperty(SIDE);
    OneProperty(List([SIDE]));
  }

  /** Where a branch is called like a child of another, the output of that one conforms as the other. */
  lemma NamesakeConforms()
    ensures StraysEntries(NAMESAKE, [("pick", Dict([("range", INNER)]))])
    ensures Conforms(Inline(NAMESAKE), Dict([("pick", INNER)]))
  {
    var entries: Entries := [("pick", Dict([("range", INNER)]))];
    ByNameFinds(NAMESAKE.children, EITHER);
    FirstNamedFinds(EITHER.choices, RANGE);
    assert entries[0] in entries && StraysElement(EITHER, entries[0].1);
    EitherConforms();
    ChildProperty(NAMESAKE, EITHER);
    assert Inline(NAMESAKE) == Object(ChildProperties(NAMESAKE), RequiredOf(NAMESAKE.children));
    assert NAMESAKE.children[..0] == [] && RequiredOf(NAMESAKE.children) == [];
  }

  lemma EitherConforms()
    ensures Conforms(Inline(EITHER), INNER)
  {
    var branches := BranchesOf(EITHER.choices, InlineParts(EITHER, 2));
    InlinePartAt(EITHER, 2, 1);
    assert Inline(EITHER) == AnyOf(branches) && branches[1] == ("v", Inline(LEAF)) && branches[1] in branches;
    assert Conforms(Inline(LEAF), Text("x")) && INNER.entries[0] in INNER.entries;
  }

  lemma NothingNamed()
    ensures EmitDocument(LISTED, true, MAX_SCHEMA_DEPTH) == Document(Inline(LISTED), map[])
  {
    assert Unnamed(LEFT) == LEFT && Unnamed(RIGHT) == RIGHT;
    assert Unnamed(SIDES).choices == [LEFT, RIGHT] && Unnamed(SIDES) == SIDES;
    assert Unnamed(LISTED).children == [SIDES] && Unnamed(LISTED) == LISTED;
    assert Height(SIDES) <= 1 by {
      assert Parts(SIDES) == [LEFT, RIGHT] && Height(LEFT) == 0 && Height(RIGHT) == 0;
      assert PartsHeight(SIDES, 1) == 1 && PartsHeight(SIDES, 2) == 1;
    }
    assert PartsHeight(LISTED, 1) <= 2;
    UnnamedEmits(LISTED, 0, MAX_SCHEMA_DEPTH, map[], {});
  }
}
