/**
 The advertised schema is precise: what it admits is accepted, up to the few things JSON Schema is not told. These are
 the ranges of integers, the least length of a character, whether temporal and binary text parses, the limits on depth
 and on array items, and the choices that are refused for being repeated or nested.
 */
module SchemaPrecision {
  import opened Wrappers
  import opened Descriptors
  import opened Validation
  import opened ValidationMeaning
  import opened CanonicalForm
  import opened JsonSchema
  import opened SchemaEmission
  import opened SchemaConformance

  /** What the schema of a leaf leaves open. */
  ghost predicate LeafRanges(parse: Parser, kind: Datatype, value: Json) {
    match kind
    case BYTE => value.Int? ==> 0 <= value.i < 256
    case INT32 => value.Int? ==> -0x8000_0000 <= value.i < 0x8000_0000
    case INT64 => value.Int? ==> -0x8000_0000_0000_0000 <= value.i < 0x8000_0000_0000_0000
    case CHAR => value.Text? ==> value.s != ""
    case DATE => value.Text? ==> parse(kind, value.s).Some?
    case TIME => value.Text? ==> parse(kind, value.s).Some?
    case DATETIME => value.Text? ==> parse(kind, value.s).Some?
    case BYTEARRAY => value.Text? ==> parse(kind, value.s).Some?
    case _ => true
  }

  /** The rest of what it leaves open, wherever the value has a child of the descriptor. */
  ghost predicate ElementRanges(parse: Parser, maxDepth: int, d: Descriptor, value: Json, depth: nat)
    decreases d, 3
  {
    if d.kind.CHOICE? then !d.Repeated() && ChoiceRanges(parse, maxDepth, d, value, depth)
    else if d.Repeated() then value.List? ==> forall v <- value.items :: ItemRanges(parse, maxDepth, d, v, depth)
    else ItemRanges(parse, maxDepth, d, value, depth)
  }

  ghost predicate ItemRanges(parse: Parser, maxDepth: int, d: Descriptor, value: Json, depth: nat)
    decreases d, 2
  {
    if d.kind.SEQUENCE? then value.Dict? ==> ObjectRanges(parse, maxDepth, d, value.entries, depth + 1)
    else LeafRanges(parse, d.kind, value)
  }

  ghost predicate ObjectRanges(parse: Parser, maxDepth: int, d: Descriptor, entries: Entries, depth: nat)
    decreases d, 1
  {
    && depth <= maxDepth && DistinctKeys(entries)
    && forall e <- entries, c <- d.children :: c.name == e.0 ==> ElementRanges(parse, maxDepth, c, e.1, depth)
  }

  ghost predicate ChoiceRanges(parse: Parser, maxDepth: int, d: Descriptor, value: Json, depth: nat)
    decreases d, 2
  {
    && d.choices != []
    && (value.Dict? ==>
          && |value.entries| == 1
          && forall c <- d.choices :: c.name == value.entries[0].0 ==>
               !c.kind.CHOICE? && ItemRanges(parse, maxDepth, c, value.entries[0].1, depth))
  }

  // -------------------------------------------------------------------- leaves

  lemma LeafFits(rules: Rules, d: Descriptor, value: Json)
    requires !d.Composite() && Conforms(Inline(d), value) && LeafRanges(rules.parse, d.kind, value)
    ensures HasType(rules, d, value) && !value.List?
  {
    if d.kind.ENUMERATION? && d.enumValues != [] {
      assert value.s in multiset(d.enumValues);
    }
  }

  // ---------------------------------------------------------------- properties

  /** Only the children have properties. */
  lemma {:induction false} PropertyIsChild(ds: seq<Descriptor>, schemas: seq<Schema>, name: string)
    requires |ds| == |schemas| && Property(PropertiesOf(ds, schemas), name).Some?
    ensures exists i :: 0 <= i < |ds| && ds[i].name == name
    decreases |ds|
  {
    if ds != [] {
      var k := |ds| - 1;
      PropertyOfPut(PropertiesOf(ds[..k], schemas[..k]), ds[k].name, WrapArray(ds[k], schemas[k]), name);
      if ds[k].name != name {
        PropertyIsChild(ds[..k], schemas[..k], name);
        var i :| 0 <= i < k && ds[..k][i].name == name;
        assert ds[i].name == name;
      }
    }
  }

  /** Every required child is listed. */
  lemma {:induction false} RequiredListed(ds: seq<Descriptor>, i: nat)
    requires i < |ds| && ds[i].minValues >= 1
    ensures ds[i].name in RequiredOf(ds)
    decreases |ds|
  {
    if i < |ds| - 1 {
      RequiredListed(ds[..|ds| - 1], i);
    }
  }

  // ------------------------------------------------------------- what conforms fits

  lemma {:induction false} ObjectAdmitted(rules: Rules, d: Descriptor, entries: Entries, depth: nat)
    requires WellNamed(d) && d.kind.SEQUENCE?
    requires Conforms(Inline(d), Dict(entries)) && ObjectRanges(rules.parse, rules.maxDepth, d, entries, depth)
    ensures ObjectFits(rules, d, entries, depth)
    decreases d, 1
  {
    assert Inline(d) == Object(ChildProperties(d), RequiredOf(d.children));
    forall e <- entries
      ensures Lookup(d.children, e.0).Some? && Lookup(d.children, e.0).value.name == e.0
      ensures ElementFits(rules, Lookup(d.children, e.0).value, e.1, depth) {
      PropertyIsChild(d.children, InlineParts(d, |d.children|), e.0);
      var i :| 0 <= i < |d.children| && d.children[i].name == e.0;
      var c := d.children[i];
      ChildProperty(d, c);
      ByNameFinds(d.children, c);
      ElementAdmitted(rules, c, e.1, depth);
    }
    forall c <- d.children | c.minValues >= 1 ensures c.name in Given(d, entries) {
      var i :| 0 <= i < |d.children| && d.children[i] == c;
      RequiredListed(d.children, i);
      assert c.name in Keys(entries);
      var e :| e in entries && e.0 == c.name;
      assert Lookup(d.children, e.0).value.name == c.name;
    }
  }

  lemma {:induction false} ElementAdmitted(rules: Rules, d: Descriptor, value: Json, depth: nat)
    requires WellNamed(d)
    requires Conforms(WrapArray(d, Inline(d)), value) && ElementRanges(rules.parse, rules.maxDepth, d, value, depth)
    ensures ElementFits(rules, d, value, depth)
    decreases d, 3
  {
    if d.kind.CHOICE? {
      ChoiceAdmitted(rules, d, value, depth);
    } else if d.Repeated() {
      forall i | 0 <= i < |value.items| ensures ItemFits(rules, d, value.items[i], depth) {
        ItemAdmitted(rules, d, value.items[i], depth);
      }
    } else {
      ItemAdmitted(rules, d, value, depth);
    }
  }

  lemma {:induction false} ItemAdmitted(rules: Rules, d: Descriptor, value: Json, depth: nat)
    requires WellNamed(d) && !d.kind.CHOICE? && Conforms(Inline(d), value)
             && ItemRanges(rules.parse, rules.maxDepth, d, value, depth)
    ensures ItemFits(rules, d, value, depth) && !value.List?
    decreases d, 2
  {
    if d.kind.SEQUENCE? {
      ObjectAdmitted(rules, d, value.entries, depth + 1);
    } else {
      LeafFits(rules, d, value);
    }
  }

  lemma {:induction false} ChoiceAdmitted(rules: Rules, d: Descriptor, value: Json, depth: nat)
    requires WellNamed(d) && d.kind.CHOICE?
    requires Conforms(Inline(d), value) && ChoiceRanges(rules.parse, rules.maxDepth, d, value, depth)
    ensures ChoiceFits(rules, d, value, depth)
    decreases d, 2
  {
    hide Inline, Conforms, WellNamed, ItemRanges, ItemFits, ObjectFits, HasType, FirstNamed;
    NamesOf(d);
    var i := BranchTaken(d, value);
    var c, e := d.choices[i], value.entries[0];
    NamedInside(d, c);
    ItemAdmitted(rules, c, e.1, depth);
    BranchFits(rules, d, i, value, depth);
  }

  /** The branch of the one entry, whose schema its value conforms to. */
  lemma BranchTaken(d: Descriptor, value: Json) returns (i: nat)
    requires DistinctNames(d.choices) && d.kind.CHOICE? && d.choices != []
    requires Conforms(Inline(d), value) && (value.Dict? ==> |value.entries| == 1)
    ensures value.Dict? && Takes(d, value.entries[0].0, i) && Conforms(Inline(d.choices[i]), value.entries[0].1)
  {
    hide Conforms, Inline;
    var branches := BranchesOf(d.choices, InlineParts(d, |d.choices|));
    ChoiceInline(d);
    var k := EntryTaken(branches, value);
    i := k;
    InlinePartAt(d, |d.choices|, i);
  }

  lemma ChoiceInline(d: Descriptor)
    requires d.kind.CHOICE?
    ensures Inline(d) == AnyOf(BranchesOf(d.choices, InlineParts(d, |d.choices|)))
  {
  }

  lemma EntryTaken(branches: Properties, value: Json) returns (i: nat)
    requires branches != [] && Conforms(AnyOf(branches), value) && (value.Dict? ==> |value.entries| == 1)
    ensures value.Dict? && i < |branches|
    ensures branches[i].0 == value.entries[0].0 && Conforms(branches[i].1, value.entries[0].1)
  {
    var b :| b in branches && b.0 in Keys(value.entries) &&
             forall e <- value.entries :: e.0 == b.0 ==> Conforms(b.1, e.1);
    i :| 0 <= i < |branches| && branches[i] == b;
    assert value.entries[0] in value.entries;
  }

  lemma NamesOf(d: Descriptor)
    requires WellNamed(d)
    ensures DistinctNames(d.choices)
  {
  }

  lemma NamedInside(d: Descriptor, c: Descriptor)
    requires WellNamed(d) && c in d.choices
    ensures WellNamed(c)
  {
  }

  lemma BranchFits(rules: Rules, d: Descriptor, i: nat, value: Json, depth: nat)
    requires value.Dict? && |value.entries| == 1 && Takes(d, value.entries[0].0, i) && !d.choices[i].kind.CHOICE?
    requires ItemFits(rules, d.choices[i], value.entries[0].1, depth)
    ensures ChoiceFits(rules, d, value, depth)
  {
    hide ObjectFits, HasType;
  }

  // ----------------------------------------------------------------- the request

  /**
   What conforms to the document advertised for an operation, once its references are replaced, is accepted, however
   strict the rules, if it keeps within the ranges and limits that the document does not tell.
   */
  lemma AdmittedIsAccepted(rules: Rules, d: Descriptor, parameters: Json, override: Option<bool>, schemaDepth: int,
                           types: map<string, Descriptor>, fuel: nat)
    requires d.kind.SEQUENCE? && WellNamed(d) && rules.maxElements >= 0
    requires Consistent(d, types) && Height(d) <= schemaDepth && fuel > Height(d)
    requires var advertised := EmitDocument(d, true, schemaDepth);
             Conforms(Expand(advertised.defs, advertised.root, fuel), parameters)
    requires parameters.Dict? && ObjectRanges(rules.parse, rules.maxDepth, d, parameters.entries, 0)
    requires EntriesWeight(d, parameters.entries) <= rules.maxElements
    ensures ValidateParameters(rules, d, parameters, override).Ok?
  {
    var tightened := rules.(rejectUnknown := rules.rejectUnknown || override == Some(true));
    AdvertisedIsInline(d, schemaDepth, types, fuel);
    ObjectAdmitted(tightened, d, parameters.entries, 0);
    AcceptedExactly(rules, d, parameters, override);
  }
}
