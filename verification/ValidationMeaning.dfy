/**
 What validation accepts and what it makes of it, said of the descriptor and the values alone: a type and a range for
 each leaf, the children that may and must be given, the limits; and how each value of the output comes from its value
 in the input.
 */
module ValidationMeaning {
  import opened Wrappers
  import opened Descriptors
  import opened Validation

  /** The temporal and base64 decoders. */
  type Parser = (Datatype, string) -> Option<string>

  // ------------------------------------------------------------------- leaves

  /** The values a leaf may have. */
  ghost predicate HasType(rules: Rules, d: Descriptor, raw: Json) {
    match d.kind
    case BOOL => raw.Bool?
    case BYTE => raw.Int? && 0 <= raw.i < 256
    case INT32 => raw.Int? && -0x8000_0000 <= raw.i < 0x8000_0000
    case INT64 => raw.Int? && -0x8000_0000_0000_0000 <= raw.i < 0x8000_0000_0000_0000
    case FLOAT32 => raw.Int? || raw.Float?
    case FLOAT64 => raw.Int? || raw.Float?
    case CHAR => raw.Text? && |raw.s| == 1
    case ENUMERATION => raw.Text? && (d.enumValues == [] || raw.s in d.enumValues)
    case DATE => raw.Text? && rules.parse(DATE, raw.s).Some?
    case TIME => raw.Text? && rules.parse(TIME, raw.s).Some?
    case DATETIME => raw.Text? && rules.parse(DATETIME, raw.s).Some?
    case BYTEARRAY => raw.Text? && rules.parse(BYTEARRAY, raw.s).Some?
    case _ => raw.Text?
  }

  /** A leaf comes out as it went in, except that numbers are reals and temporal and binary text is decoded. */
  ghost predicate LeafRendered(parse: Parser, kind: Datatype, raw: Json, out: Json) {
    match kind
    case FLOAT32 => out.Float? && ((raw.Int? && out.r == raw.i as real) || (raw.Float? && out.r == raw.r))
    case FLOAT64 => out.Float? && ((raw.Int? && out.r == raw.i as real) || (raw.Float? && out.r == raw.r))
    case DATE => raw.Text? && out.Native? && out.kind == kind && parse(kind, raw.s) == Some(out.text)
    case TIME => raw.Text? && out.Native? && out.kind == kind && parse(kind, raw.s) == Some(out.text)
    case DATETIME => raw.Text? && out.Native? && out.kind == kind && parse(kind, raw.s) == Some(out.text)
    case BYTEARRAY => raw.Text? && out.Native? && out.kind == kind && parse(kind, raw.s) == Some(out.text)
    case _ => out == raw
  }

  lemma ScalarExactly(rules: Rules, d: Descriptor, raw: Json)
    ensures ValidateScalar(rules, d, raw).Ok? <==> HasType(rules, d, raw)
    ensures HasType(rules, d, raw) ==> LeafRendered(rules.parse, d.kind, raw, ValidateScalar(rules, d, raw).value)
  {
  }

  // -------------------------------------------------------------------- names

  /** The child a key stands for: the one of that name, or the first with that alternate name when none has it. */
  ghost predicate StandsFor(ds: seq<Descriptor>, key: string, i: nat) {
    && i < |ds|
    && (ds[i].name == key || ((forall j | 0 <= j < |ds| :: ds[j].name != key) && FirstAlias(ds, key, i)))
  }

  lemma LookupMeans(ds: seq<Descriptor>, key: string)
    requires DistinctNames(ds)
    ensures Lookup(ds, key).Some? ==> exists i: nat :: StandsFor(ds, key, i)
    ensures forall i: nat | StandsFor(ds, key, i) :: Lookup(ds, key) == Some(ds[i])
  {
    if i :| 0 <= i < |ds| && ds[i].name == key {
      ByNameFinds(ds, ds[i]);
      assert StandsFor(ds, key, i);
      forall k: nat | StandsFor(ds, key, k) ensures Lookup(ds, key) == Some(ds[k]) {
        assert ds[k].name == key;
      }
    } else {
      NoName(ds, key);
      AliasMeans(ds, key);
      forall k: nat | StandsFor(ds, key, k) ensures Lookup(ds, key) == Some(ds[k]) {
        assert FirstAlias(ds, key, k);
      }
      if Lookup(ds, key).Some? {
        var k: nat :| FirstAlias(ds, key, k);
        assert StandsFor(ds, key, k);
      }
    }
  }

  lemma NoName(ds: seq<Descriptor>, key: string)
    requires forall i | 0 <= i < |ds| :: ds[i].name != key
    ensures ByName(ds, key).None?
  {
  }

  ghost predicate FirstAlias(ds: seq<Descriptor>, key: string, i: nat) {
    i < |ds| && key in ds[i].alternates && forall j | 0 <= j < i :: key !in ds[j].alternates
  }

  lemma {:induction false} AliasMeans(ds: seq<Descriptor>, key: string)
    ensures ByAlias(ds, key).Some? ==> exists i: nat :: FirstAlias(ds, key, i)
    ensures forall i: nat | FirstAlias(ds, key, i) :: ByAlias(ds, key) == Some(ds[i])
  {
    if ds != [] && key !in ds[0].alternates {
      var rest := ds[1..];
      AliasMeans(rest, key);
      forall i: nat | FirstAlias(ds, key, i) ensures ByAlias(ds, key) == Some(ds[i]) {
        assert rest[i - 1] == ds[i];
        forall j | 0 <= j < i - 1 ensures key !in rest[j].alternates {
          assert rest[j] == ds[j + 1];
        }
        assert FirstAlias(rest, key, i - 1);
      }
      if ByAlias(ds, key).Some? {
        var i: nat :| FirstAlias(rest, key, i);
        assert ds[i + 1] == rest[i];
        forall j | 0 <= j < i + 1 ensures key !in ds[j].alternates {
          assert j > 0 ==> ds[j] == rest[j - 1];
        }
        assert FirstAlias(ds, key, i + 1);
      }
    } else if ds != [] {
      assert FirstAlias(ds, key, 0);
    }
  }

  /** The names of the children that are given. */
  ghost function Given(d: Descriptor, entries: Entries): set<string> {
    set e <- entries | Lookup(d.children, e.0).Some? :: Lookup(d.children, e.0).value.name
  }

  /** The branch of a choice that a key takes: the first of that name. */
  ghost predicate Takes(d: Descriptor, key: string, i: nat) {
    i < |d.choices| && d.choices[i].name == key && forall j | 0 <= j < i :: d.choices[j].name != key
  }

  lemma {:induction false} FirstNamedMeans(d: Descriptor, ds: seq<Descriptor>, key: string, n: nat)
    requires n <= |d.choices| && ds == d.choices[n..] && forall j | 0 <= j < n :: d.choices[j].name != key
    ensures FirstNamed(ds, key).Some? <==> exists i: nat :: Takes(d, key, i)
    ensures forall i: nat | Takes(d, key, i) :: FirstNamed(ds, key) == Some(d.choices[i])
    decreases |ds|
  {
    if ds != [] {
      assert ds[0] == d.choices[n] && ds[1..] == d.choices[n + 1..];
      if ds[0].name == key {
        assert Takes(d, key, n);
      } else {
        FirstNamedMeans(d, ds[1..], key, n + 1);
      }
    }
  }

  // ----------------------------------------------------------- input to output

  /** A bare value stands for a list of one. */
  function Values(raw: Json): seq<Json> {
    match raw
    case List(items) => items
    case _ => [raw]
  }

  /** A repeated element is a list in the output, item by item; any other is the one value. */
  ghost predicate ElementRendered(parse: Parser, d: Descriptor, raw: Json, out: Json)
    decreases d, 3
  {
    if d.kind.CHOICE? then ChoiceRendered(parse, d, raw, out)
    else if d.maxValues == Some(1) then |Values(raw)| == 1 && ItemRendered(parse, d, Values(raw)[0], out)
    else
      && out.List? && |out.items| == |Values(raw)|
      && forall i | 0 <= i < |out.items| :: ItemRendered(parse, d, Values(raw)[i], out.items[i])
  }

  ghost predicate ItemRendered(parse: Parser, d: Descriptor, raw: Json, out: Json)
    decreases d, 2
  {
    if d.kind.SEQUENCE? then raw.Dict? && out.Dict? && EntriesRendered(parse, d, raw.entries, out.entries)
    else LeafRendered(parse, d.kind, raw, out)
  }

  /** Known entries keep their order and get the child's name; unknown ones go. */
  ghost predicate EntriesRendered(parse: Parser, d: Descriptor, ins: Entries, outs: Entries)
    decreases d, 1, |ins|
  {
    if ins == [] then outs == []
    else
      var child := Lookup(d.children, ins[0].0);
      if child.None? then EntriesRendered(parse, d, ins[1..], outs)
      else
        && outs != [] && outs[0].0 == child.value.name
        && ElementRendered(parse, child.value, ins[0].1, outs[0].1)
        && EntriesRendered(parse, d, ins[1..], outs[1..])
  }

  /** A SEQUENCE branch given as an object is replaced by it; any other branch keeps its name and is a leaf. */
  ghost predicate ChoiceRendered(parse: Parser, d: Descriptor, raw: Json, out: Json)
    decreases d, 2
  {
    && raw.Dict? && |raw.entries| == 1
    && var (key, value) := raw.entries[0];
       exists i: nat :: Takes(d, key, i) &&
         if d.choices[i].kind.SEQUENCE? && value.Dict? then
           out.Dict? && EntriesRendered(parse, d.choices[i], value.entries, out.entries)
         else
           && out.Dict? && |out.entries| == 1 && out.entries[0].0 == key
           && LeafRendered(parse, d.choices[i].kind, value, out.entries[0].1)
  }

  lemma {:induction false} RenderedSnoc(parse: Parser, d: Descriptor, ins: Entries, outs: Entries, e: (string, Json))
    requires EntriesRendered(parse, d, ins, outs)
    ensures Lookup(d.children, e.0).None? ==> EntriesRendered(parse, d, ins + [e], outs)
    ensures forall o: (string, Json) | Lookup(d.children, e.0).Some? && o.0 == Lookup(d.children, e.0).value.name
                                       && ElementRendered(parse, Lookup(d.children, e.0).value, e.1, o.1) ::
              EntriesRendered(parse, d, ins + [e], outs + [o])
    decreases |ins|
  {
    if ins == [] {
      assert (ins + [e])[1..] == [];
      forall o: (string, Json) | Lookup(d.children, e.0).Some? && o.0 == Lookup(d.children, e.0).value.name
                                 && ElementRendered(parse, Lookup(d.children, e.0).value, e.1, o.1)
        ensures EntriesRendered(parse, d, ins + [e], outs + [o]) {
        assert (outs + [o])[1..] == [];
        assert EntriesRendered(parse, d, [], []);
      }
    } else {
      assert (ins + [e])[1..] == ins[1..] + [e];
      var known := Lookup(d.children, ins[0].0).Some?;
      RenderedSnoc(parse, d, ins[1..], if known then outs[1..] else outs, e);
      forall o: (string, Json) | Lookup(d.children, e.0).Some? && o.0 == Lookup(d.children, e.0).value.name
                                 && ElementRendered(parse, Lookup(d.children, e.0).value, e.1, o.1)
        ensures EntriesRendered(parse, d, ins + [e], outs + [o]) {
        if known {
          assert (outs + [o])[1..] == outs[1..] + [o];
        }
      }
    }
  }

  // ------------------------------------------------------- what is accepted

  ghost predicate ElementFits(rules: Rules, d: Descriptor, raw: Json, depth: nat)
    decreases d, 4
  {
    if d.kind.CHOICE? then ChoiceFits(rules, d, raw, depth)
    else if d.maxValues == Some(1) then
      && (rules.strictTypes ==> !raw.List?) && |Values(raw)| == 1
      && ItemFits(rules, d, Values(raw)[0], depth)
    else
      && (rules.strictTypes ==> raw.List?)
      && d.minValues <= |Values(raw)| && (d.maxValues.Some? ==> |Values(raw)| <= d.maxValues.value)
      && forall i | 0 <= i < |Values(raw)| :: ItemFits(rules, d, Values(raw)[i], depth)
  }

  ghost predicate ItemFits(rules: Rules, d: Descriptor, raw: Json, depth: nat)
    decreases d, 3
  {
    if d.kind.SEQUENCE? then raw.Dict? && ObjectFits(rules, d, raw.entries, depth + 1) else HasType(rules, d, raw)
  }

  /** Known children, each once and of its type, all required ones among them, and not too deep. */
  ghost predicate ObjectFits(rules: Rules, d: Descriptor, entries: Entries, depth: nat)
    decreases d, 2
  {
    && depth <= rules.maxDepth
    && EntriesFit(rules, d, entries, depth)
    && forall c <- d.children :: c.minValues >= 1 ==> c.name in Given(d, entries)
  }

  ghost predicate EntriesFit(rules: Rules, d: Descriptor, entries: Entries, depth: nat)
    decreases d, 1
  {
    && (forall e <- entries ::
          if Lookup(d.children, e.0).None? then !rules.rejectUnknown
          else ElementFits(rules, Lookup(d.children, e.0).value, e.1, depth))
    && GivenOnce(d, entries)
  }

  ghost predicate GivenOnce(d: Descriptor, entries: Entries) {
    forall i, j | 0 <= i < j < |entries| && Lookup(d.children, entries[i].0).Some?
      && Lookup(d.children, entries[j].0).Some? ::
      Lookup(d.children, entries[i].0).value.name != Lookup(d.children, entries[j].0).value.name
  }

  ghost predicate ChoiceFits(rules: Rules, d: Descriptor, raw: Json, depth: nat)
    decreases d, 3
  {
    && raw.Dict? && |raw.entries| == 1
    && var (key, value) := raw.entries[0];
       exists i: nat :: Takes(d, key, i) &&
         if d.choices[i].kind.SEQUENCE? && value.Dict? then ObjectFits(rules, d.choices[i], value.entries, depth + 1)
         else HasType(rules, d.choices[i], value)
  }

  /** How many array items an element holds, over all levels. */
  ghost function ElementWeight(d: Descriptor, raw: Json): nat
    decreases d, 4
  {
    if d.kind.CHOICE? then ChoiceWeight(d, raw)
    else if d.maxValues == Some(1) then ItemsWeight(d, Values(raw)) else |Values(raw)| + ItemsWeight(d, Values(raw))
  }

  ghost function ItemsWeight(d: Descriptor, items: seq<Json>): nat
    decreases d, 3, |items|
  {
    if items == [] then 0
    else
      var last := items[|items| - 1];
      ItemsWeight(d, items[..|items| - 1])
      + if d.kind.SEQUENCE? && last.Dict? then EntriesWeight(d, last.entries) else 0
  }

  ghost function EntriesWeight(d: Descriptor, entries: Entries): nat
    decreases d, 1, |entries|
  {
    if entries == [] then 0
    else
      var last := entries[|entries| - 1];
      var child := Lookup(d.children, last.0);
      EntriesWeight(d, entries[..|entries| - 1]) + if child.None? then 0 else ElementWeight(child.value, last.1)
  }

  ghost function ChoiceWeight(d: Descriptor, raw: Json): nat
    decreases d, 3
  {
    if raw.Dict? && |raw.entries| == 1 && FirstNamed(d.choices, raw.entries[0].0).Some? then
      var branch := FirstNamed(d.choices, raw.entries[0].0).value;
      if branch.kind.SEQUENCE? && raw.entries[0].1.Dict? then EntriesWeight(branch, raw.entries[0].1.entries) else 0
    else 0
  }

  // ----------------------------------------------------------- the two together

  lemma {:induction false} ElementExactly(rules: Rules, d: Descriptor, raw: Json, depth: nat, count: nat)
    requires count <= rules.maxElements
    ensures var r := ValidateElement(rules, d, raw, depth, count);
            && (r.Ok? <==> ElementFits(rules, d, raw, depth) && count + ElementWeight(d, raw) <= rules.maxElements)
            && (r.Ok? ==> ElementRendered(rules.parse, d, raw, r.value.0) && r.value.1 == count + ElementWeight(d, raw))
    decreases d, 4
  {
    hide ItemFits, ItemRendered, ItemsWeight, ValidateItem, ValidateItems, ValidateChoice, ChoiceFits, ChoiceRendered,
         ChoiceWeight;
    if d.kind.CHOICE? {
      ChoiceExactly(rules, d, raw, depth, count);
    } else if d.maxValues == Some(1) {
      if |Values(raw)| == 1 {
        ItemExactly(rules, d, Values(raw)[0], depth, count);
        OneWeight(d, Values(raw)[0]);
        assert Values(raw) == [Values(raw)[0]];
      }
    } else if count + |Values(raw)| <= rules.maxElements {
      ItemsExactly(rules, d, Values(raw), depth, count + |Values(raw)|);
    }
  }

  lemma OneWeight(d: Descriptor, raw: Json)
    ensures ItemsWeight(d, [raw]) == if d.kind.SEQUENCE? && raw.Dict? then EntriesWeight(d, raw.entries) else 0
  {
    assert [raw][..0] == [];
  }

  lemma {:induction false} ItemsExactly(rules: Rules, d: Descriptor, items: seq<Json>, depth: nat, count: nat)
    requires !d.kind.CHOICE? && count <= rules.maxElements
    ensures var r := ValidateItems(rules, d, items, depth, count);
            && (r.Ok? <==> (forall i | 0 <= i < |items| :: ItemFits(rules, d, items[i], depth)) &&
                           count + ItemsWeight(d, items) <= rules.maxElements)
            && (r.Ok? ==>
                  && |r.value.0| == |items| && r.value.1 == count + ItemsWeight(d, items)
                  && forall i | 0 <= i < |items| :: ItemRendered(rules.parse, d, items[i], r.value.0[i]))
    decreases d, 3, |items|
  {
    if items != [] {
      var init, last := items[..|items| - 1], items[|items| - 1];
      ItemsExactly(rules, d, init, depth, count);
      var r := ValidateItems(rules, d, init, depth, count);
      assert forall i | 0 <= i < |init| :: items[i] == init[i];
      if r.Ok? {
        ItemExactly(rules, d, last, depth, r.value.1);
        OneWeight(d, last);
      } else {
        assert (forall i | 0 <= i < |items| :: ItemFits(rules, d, items[i], depth)) ==>
            forall i | 0 <= i < |init| :: ItemFits(rules, d, init[i], depth);
      }
    }
  }

  lemma {:induction false} ItemExactly(rules: Rules, d: Descriptor, raw: Json, depth: nat, count: nat)
    requires !d.kind.CHOICE? && count <= rules.maxElements
    ensures var r := ValidateItem(rules, d, raw, depth, count);
            && (r.Ok? <==> ItemFits(rules, d, raw, depth) && count + ItemsWeight(d, [raw]) <= rules.maxElements)
            && (r.Ok? ==> ItemRendered(rules.parse, d, raw, r.value.0) && r.value.1 == count + ItemsWeight(d, [raw]))
    decreases d, 3, 0
  {
    OneWeight(d, raw);
    if d.kind.SEQUENCE? {
      if raw.Dict? {
        ObjectExactly(rules, d, raw.entries, depth + 1, count);
      }
    } else {
      ScalarExactly(rules, d, raw);
    }
  }

  lemma {:induction false} ObjectExactly(rules: Rules, d: Descriptor, entries: Entries, depth: nat, count: nat)
    requires count <= rules.maxElements
    ensures var r := ValidateObject(rules, d, entries, depth, count);
            && (r.Ok? <==>
                  ObjectFits(rules, d, entries, depth) && count + EntriesWeight(d, entries) <= rules.maxElements)
            && (r.Ok? ==>
                  && EntriesRendered(rules.parse, d, entries, r.value.0)
                  && r.value.1 == count + EntriesWeight(d, entries))
    decreases d, 2
  {
    EntriesExactly(rules, d, entries, depth, count);
  }

  lemma {:induction false} EntriesExactly(rules: Rules, d: Descriptor, entries: Entries, depth: nat, count: nat)
    requires count <= rules.maxElements
    ensures var r := ValidateEntries(rules, d, entries, depth, count);
            && (r.Ok? <==>
                  EntriesFit(rules, d, entries, depth) && count + EntriesWeight(d, entries) <= rules.maxElements)
            && (r.Ok? ==>
                  && EntriesRendered(rules.parse, d, entries, r.value.0) && Keys(r.value.0) == Given(d, entries)
                  && r.value.1 == count + EntriesWeight(d, entries))
    decreases d, 1, |entries|
  {
    hide ElementFits, ElementRendered, ElementWeight, ValidateElement, Lookup, EntriesFit;
    if entries == [] {
      NothingFits(rules, d, depth);
    } else {
      var init, last := entries[..|entries| - 1], entries[|entries| - 1];
      assert entries == init + [last];
      EntriesExactly(rules, d, init, depth, count);
      FitSnoc(rules, d, init, last, depth);
      var r := ValidateEntries(rules, d, init, depth, count);
      if r.Ok? {
        var child := Lookup(d.children, last.0);
        RenderedSnoc(rules.parse, d, init, r.value.0, last);
        if child.Some? {
          ElementExactly(rules, child.value, last.1, depth, r.value.1);
        }
      }
    }
  }

  lemma NothingFits(rules: Rules, d: Descriptor, depth: nat)
    ensures EntriesFit(rules, d, [], depth)
  {
  }

  lemma FitSnoc(rules: Rules, d: Descriptor, init: Entries, last: (string, Json), depth: nat)
    ensures var child := Lookup(d.children, last.0);
            EntriesFit(rules, d, init + [last], depth) <==>
              && EntriesFit(rules, d, init, depth)
              && (if child.None? then !rules.rejectUnknown
                  else ElementFits(rules, child.value, last.1, depth) && child.value.name !in Given(d, init))
    ensures Given(d, init + [last]) ==
              Given(d, init) + if Lookup(d.children, last.0).Some? then {Lookup(d.children, last.0).value.name} else {}
  {
    hide ElementFits, Lookup;
    assert forall e <- init + [last] :: e in init || e == last;
    assert forall e <- init :: e in init + [last];
    assert last in init + [last];
    OnceSnoc(d, init, last);
  }

  lemma OnceSnoc(d: Descriptor, init: Entries, last: (string, Json))
    ensures GivenOnce(d, init + [last]) <==>
              GivenOnce(d, init) &&
              (Lookup(d.children, last.0).Some? ==> Lookup(d.children, last.0).value.name !in Given(d, init))
  {
    hide Lookup;
    var entries := init + [last];
    assert entries[|init|] == last && forall i | 0 <= i < |init| :: entries[i] == init[i];
    if Lookup(d.children, last.0).Some? && Lookup(d.children, last.0).value.name in Given(d, init) {
      var e :| e in init && Lookup(d.children, e.0).Some? &&
               Lookup(d.children, e.0).value.name == Lookup(d.children, last.0).value.name;
      var i :| 0 <= i < |init| && init[i] == e;
      assert entries[i] == e;
    }
    if GivenOnce(d, entries) {
      forall i, j | 0 <= i < j < |init| && Lookup(d.children, init[i].0).Some? && Lookup(d.children, init[j].0).Some?
        ensures Lookup(d.children, init[i].0).value.name != Lookup(d.children, init[j].0).value.name {
        assert entries[i] == init[i] && entries[j] == init[j];
      }
    }
  }

  lemma {:induction false} ChoiceExactly(rules: Rules, d: Descriptor, raw: Json, depth: nat, count: nat)
    requires count <= rules.maxElements
    ensures var r := ValidateChoice(rules, d, raw, depth, count);
            && (r.Ok? <==> ChoiceFits(rules, d, raw, depth) && count + ChoiceWeight(d, raw) <= rules.maxElements)
            && (r.Ok? ==> ChoiceRendered(rules.parse, d, raw, r.value.0) && r.value.1 == count + ChoiceWeight(d, raw))
    decreases d, 3
  {
    if raw.Dict? && |raw.entries| == 1 {
      var (key, value) := raw.entries[0];
      assert d.choices[0..] == d.choices;
      FirstNamedMeans(d, d.choices, key, 0);
      if FirstNamed(d.choices, key).Some? {
        var branch := FirstNamed(d.choices, key).value;
        var i: nat :| Takes(d, key, i);
        assert d.choices[i] == branch;
        if branch.kind.SEQUENCE? && value.Dict? {
          ObjectExactly(rules, branch, value.entries, depth + 1, count);
        } else {
          ScalarExactly(rules, branch, value);
        }
      }
    }
  }

  // -------------------------------------------------------------- the request

  /**
   A request is accepted exactly when its values fit the descriptor and it holds no more array items than the limit; the
   output is the input, value for value, under the children's names.
   */
  lemma AcceptedExactly(rules: Rules, d: Descriptor, parameters: Json, override: Option<bool>)
    requires rules.maxElements >= 0
    ensures var r := ValidateParameters(rules, d, parameters, override);
            var tightened := rules.(rejectUnknown := rules.rejectUnknown || override == Some(true));
            && (r.Ok? <==>
                  parameters.Dict? && ObjectFits(tightened, d, parameters.entries, 0) &&
                  EntriesWeight(d, parameters.entries) <= rules.maxElements)
            && (r.Ok? ==> r.value.Dict? && EntriesRendered(rules.parse, d, parameters.entries, r.value.entries))
  {
    hide ObjectFits, EntriesWeight, EntriesRendered, ValidateObject;
    var tightened := rules.(rejectUnknown := rules.rejectUnknown || override == Some(true));
    if parameters.Dict? {
      ObjectExactly(tightened, d, parameters.entries, 0, 0);
    }
  }
}
