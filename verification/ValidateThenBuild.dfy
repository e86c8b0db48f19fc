/**
 What the validator lets through, the builder builds. The one exception is a choice whose composite branch is
 taken: its output is not in the form the builder reads, and population raises.
 */
module ValidateThenBuild {
  import opened Wrappers
  import opened Descriptors
  import opened Validation
  import opened CanonicalForm
  import opened RequestBuilder

  /** Somewhere in the input a choice takes a SEQUENCE or CHOICE branch. */
  ghost predicate TakesEntries(d: Descriptor, entries: Entries)
    decreases d, 1
  {
    exists e <- entries :: Lookup(d.children, e.0).Some? && TakesElement(Lookup(d.children, e.0).value, e.1)
  }

  ghost predicate TakesElement(d: Descriptor, raw: Json)
    decreases d, 3
  {
    if d.kind.CHOICE? then TakesChoice(d, raw) else exists item <- Items(raw) :: TakesItem(d, item)
  }

  ghost predicate TakesItem(d: Descriptor, item: Json)
    decreases d, 2
  {
    d.kind.SEQUENCE? && item.Dict? && TakesEntries(d, item.entries)
  }

  ghost predicate TakesChoice(d: Descriptor, raw: Json) {
    && raw.Dict? && |raw.entries| == 1
    && FirstNamed(d.choices, raw.entries[0].0).Some?
    && FirstNamed(d.choices, raw.entries[0].0).value.Composite()
  }

  // ------------------------------------- validated mappings are canonical

  lemma MembersSnoc(d: Descriptor, done: Entries, child: Descriptor, value: Json)
    requires CanonicalMembers(d, done) && child.name !in Keys(done)
    requires ByName(d.children, child.name) == Some(child) && CanonicalElement(child, value)
    ensures CanonicalMembers(d, done + [(child.name, value)])
  {
    var more := done + [(child.name, value)];
    forall e <- more ensures ByName(d.children, e.0).Some? && CanonicalElement(ByName(d.children, e.0).value, e.1) {
      assert e in done || e == (child.name, value);
    }
  }

  lemma {:induction false} EntriesCanonical(rules: Rules, d: Descriptor, entries: Entries, depth: nat, count: nat)
    requires WellNamed(d) && ValidateEntries(rules, d, entries, depth, count).Ok? && !TakesEntries(d, entries)
    ensures CanonicalMembers(d, ValidateEntries(rules, d, entries, depth, count).value.0)
    decreases d, 1, |entries|
  {
    if entries != [] {
      var init, last := entries[..|entries| - 1], entries[|entries| - 1];
      EntriesCanonical(rules, d, init, depth, count);
      var (done, n) := ValidateEntries(rules, d, init, depth, count).value;
      var child := Lookup(d.children, last.0);
      if child.Some? {
        assert !TakesElement(child.value, last.1);
        ElementCanonical(rules, child.value, last.1, depth, n);
        ByNameFinds(d.children, child.value);
        MembersSnoc(d, done, child.value, ValidateElement(rules, child.value, last.1, depth, n).value.0);
      }
    }
  }

  lemma {:induction false} ElementCanonical(rules: Rules, d: Descriptor, raw: Json, depth: nat, count: nat)
    requires WellNamed(d) && ValidateElement(rules, d, raw, depth, count).Ok? && !TakesElement(d, raw)
    ensures CanonicalElement(d, ValidateElement(rules, d, raw, depth, count).value.0)
    decreases d, 4
  {
    if d.kind.CHOICE? {
    } else if d.Repeated() {
      ItemsCanonical(rules, d, Items(raw), depth, count + |Items(raw)|);
    } else {
      ItemCanonical(rules, d, Items(raw)[0], depth, count);
    }
  }

  lemma {:induction false} ItemsCanonical(rules: Rules, d: Descriptor, items: seq<Json>, depth: nat, count: nat)
    requires !d.kind.CHOICE? && WellNamed(d) && ValidateItems(rules, d, items, depth, count).Ok?
    requires forall item <- items :: !TakesItem(d, item)
    ensures forall v <- ValidateItems(rules, d, items, depth, count).value.0 ::
              if d.kind.SEQUENCE? then CanonicalItem(d, v) else Flat(v)
    decreases d, 3, |items|
  {
    if items != [] {
      var init, last := items[..|items| - 1], items[|items| - 1];
      ItemsCanonical(rules, d, init, depth, count);
      ItemCanonical(rules, d, last, depth, ValidateItems(rules, d, init, depth, count).value.1);
    }
  }

  lemma {:induction false} ItemCanonical(rules: Rules, d: Descriptor, raw: Json, depth: nat, count: nat)
    requires !d.kind.CHOICE? && WellNamed(d) && ValidateItem(rules, d, raw, depth, count).Ok? && !TakesItem(d, raw)
    ensures var v := ValidateItem(rules, d, raw, depth, count).value.0;
            if d.kind.SEQUENCE? then CanonicalItem(d, v) else Flat(v)
    decreases d, 3, 0
  {
    if d.kind.SEQUENCE? {
      EntriesCanonical(rules, d, raw.entries, depth + 1, count);
    }
  }

  // --------------------------------------- canonical mappings do not raise

  lemma {:induction false} MembersFit(d: Descriptor, values: Entries, k: nat)
    requires CanonicalMembers(d, values) && k <= |values|
    ensures MembersError(d, values[..k]) == None && forall e <- values[..k] :: DictLike(e.1)
    decreases d, 1, k
  {
    if k > 0 {
      MembersFit(d, values, k - 1);
      MembersErrorStep(d, values, k - 1);
      KeyStep(values, k - 1);
      CanonicalMember(d, values, values[k - 1]);
      ElementFits(ByName(d.children, values[k - 1].0).value, values[k - 1].1);
    } else {
      assert values[..0] == [];
    }
  }

  lemma {:induction false} ElementFits(d: Descriptor, value: Json)
    requires CanonicalElement(d, value)
    ensures ElementError(d, value) == None && DictLike(value)
    decreases d, 4
  {
    if d.kind.SEQUENCE? {
      CanonicalSequence(d, value);
      if d.Repeated() {
        ItemsFit(d, value.items, |value.items|);
        assert value.items[..|value.items|] == value.items;
      } else {
        MembersFit(d, value.entries, |value.entries|);
        assert value.entries[..|value.entries|] == value.entries;
        OneItem(d, [value]);
      }
    }
  }

  lemma {:induction false} ItemsFit(d: Descriptor, items: seq<Json>, k: nat)
    requires CanonicalItems(d, items) && k <= |items|
    ensures ItemsError(d, items[..k]) == None && forall v <- items[..k] :: DictLike(v)
    decreases d, 2, k
  {
    if k > 0 {
      ItemsFit(d, items, k - 1);
      ItemsErrorStep(d, items, k - 1);
      var item := items[k - 1];
      assert CanonicalItem(d, item);
      MembersFit(d, item.entries, |item.entries|);
      assert item.entries[..|item.entries|] == item.entries;
    } else {
      assert items[..0] == [];
    }
  }

  // --------------------------------------- and the others always raise

  lemma {:induction false} MemberRaises(d: Descriptor, values: Entries, j: nat)
    requires j < |values| && ByName(d.children, values[j].0).Some?
    requires ElementError(ByName(d.children, values[j].0).value, values[j].1).Some?
    ensures MembersError(d, values).Some?
  {
    if MembersError(d, values[..j]) == None {
      MembersErrorStep(d, values, j);
      MembersErrorStays(d, values, j + 1);
    } else {
      MembersErrorStays(d, values, j);
    }
  }

  lemma {:induction false} ItemRaises(d: Descriptor, items: seq<Json>, j: nat)
    requires j < |items| && (items[j].Dict? ==> MembersError(d, items[j].entries).Some?)
    ensures ItemsError(d, items).Some?
  {
    if ItemsError(d, items[..j]) == None {
      ItemsErrorStep(d, items, j);
      ItemsErrorStays(d, items, j + 1);
    } else {
      ItemsErrorStays(d, items, j);
    }
  }

  lemma {:induction false} EntriesRaise(rules: Rules, d: Descriptor, entries: Entries, depth: nat, count: nat)
    requires WellNamed(d) && BranchesApart(d)
    requires ValidateEntries(rules, d, entries, depth, count).Ok? && TakesEntries(d, entries)
    ensures MembersError(d, ValidateEntries(rules, d, entries, depth, count).value.0).Some?
    decreases d, 1
  {
    var e :| e in entries && Lookup(d.children, e.0).Some? && TakesElement(Lookup(d.children, e.0).value, e.1);
    var i :| 0 <= i < |entries| && entries[i] == e;
    var child := Lookup(d.children, e.0).value;
    var j, n := EntryKept(rules, d, entries, i, depth, count);
    ElementRaises(rules, child, e.1, depth, n);
    ByNameFinds(d.children, child);
    MemberRaises(d, ValidateEntries(rules, d, entries, depth, count).value.0, j);
  }

  lemma {:induction false} ElementRaises(rules: Rules, d: Descriptor, raw: Json, depth: nat, count: nat)
    requires WellNamed(d) && BranchesApart(d)
    requires ValidateElement(rules, d, raw, depth, count).Ok? && TakesElement(d, raw)
    ensures ElementError(d, ValidateElement(rules, d, raw, depth, count).value.0).Some?
    decreases d, 4
  {
    if d.kind.CHOICE? {
      ChoiceRaises(rules, d, raw, depth, count);
    } else {
      if d.Repeated() {
        ListRaises(rules, d, raw, depth, count);
      } else {
        TakenItemRaises(rules, d, Items(raw)[0], depth, count);
        ItemRaises(d, [ValidateElement(rules, d, raw, depth, count).value.0], 0);
      }
    }
  }

  lemma {:induction false} ListRaises(rules: Rules, d: Descriptor, raw: Json, depth: nat, count: nat)
    requires WellNamed(d) && BranchesApart(d) && !d.kind.CHOICE? && d.Repeated()
    requires ValidateElement(rules, d, raw, depth, count).Ok? && TakesElement(d, raw)
    ensures ElementError(d, ValidateElement(rules, d, raw, depth, count).value.0).Some?
    decreases d, 3
  {
    var item :| item in Items(raw) && TakesItem(d, item);
    var i :| 0 <= i < |Items(raw)| && Items(raw)[i] == item;
    var counted := count + |Items(raw)|;
    var n := ItemKept(rules, d, Items(raw), i, depth, counted);
    TakenItemRaises(rules, d, item, depth, n);
    ItemRaises(d, ValidateItems(rules, d, Items(raw), depth, counted).value.0, i);
  }

  lemma {:induction false} TakenItemRaises(rules: Rules, d: Descriptor, raw: Json, depth: nat, count: nat)
    requires WellNamed(d) && BranchesApart(d) && !d.kind.CHOICE?
    requires ValidateItem(rules, d, raw, depth, count).Ok? && TakesItem(d, raw)
    ensures var v := ValidateItem(rules, d, raw, depth, count).value.0;
            v.Dict? && MembersError(d, v.entries).Some?
    decreases d, 2
  {
    EntriesRaise(rules, d, raw.entries, depth + 1, count);
  }

  lemma {:induction false} ChoiceRaises(rules: Rules, d: Descriptor, raw: Json, depth: nat, count: nat)
    requires BranchesApart(d)
    requires ValidateChoice(rules, d, raw, depth, count).Ok? && d.kind.CHOICE? && TakesChoice(d, raw)
    ensures ElementError(d, ValidateChoice(rules, d, raw, depth, count).value.0).Some?
  {
    var (name, value) := raw.entries[0];
    var branch := FirstNamed(d.choices, name).value;
    if branch.kind.SEQUENCE? && value.Dict? {
      KeysAreNames(rules, branch, value.entries, depth + 1, count);
      var done := ValidateObject(rules, branch, value.entries, depth + 1, count).value.0;
      if |done| == 1 {
        assert done[0].0 in Keys(done);
      }
    } else {
      assert ValidateScalar(rules, branch, value) == Ok(value) && value.Text?;
      if branch.kind.SEQUENCE? {
        ItemRaises(branch, [value], 0);
      }
    }
  }

  // ------------------------------------------------------------ main results

  /**
   Population does not raise on validated parameters, and the mapping is canonical, unless a composite branch is taken.
   */
  lemma ValidatedBuilds(rules: Rules, d: Descriptor, parameters: Json, override: Option<bool>)
    requires WellNamed(d) && ValidateParameters(rules, d, parameters, override).Ok?
    requires !TakesEntries(d, parameters.entries)
    ensures var y := ValidateParameters(rules, d, parameters, override).value;
            y.Dict? && CanonicalMembers(d, y.entries) && DictsLike(y.entries) && MembersError(d, y.entries) == None
  {
    var tightened := rules.(rejectUnknown := rules.rejectUnknown || override == Some(true));
    EntriesCanonical(tightened, d, parameters.entries, 0, 0);
    var y := ValidateParameters(rules, d, parameters, override).value;
    MembersFit(d, y.entries, |y.entries|);
    assert y.entries[..|y.entries|] == y.entries;
  }

  /** When branch names cannot be taken for child names, that is exactly when population succeeds. */
  lemma BuildsExactly(rules: Rules, d: Descriptor, parameters: Json, override: Option<bool>)
    requires WellNamed(d) && BranchesApart(d) && ValidateParameters(rules, d, parameters, override).Ok?
    ensures var y := ValidateParameters(rules, d, parameters, override).value;
            y.Dict? && (MembersError(d, y.entries) == None <==> !TakesEntries(d, parameters.entries))
  {
    if TakesEntries(d, parameters.entries) {
      var tightened := rules.(rejectUnknown := rules.rejectUnknown || override == Some(true));
      EntriesRaise(tightened, d, parameters.entries, 0, 0);
    } else {
      ValidatedBuilds(rules, d, parameters, override);
    }
  }

  /** On this schema an accepted request cannot be built: its output has lost the branch name the builder looks for. */
  lemma SequenceBranchIsNotBuilt(rules: Rules)
    requires rules.maxDepth >= 1
    ensures ValidateParameters(rules, REQUEST, Dict([("pick", Dict([("range", INNER)]))]), None) ==
            Ok(Dict([("pick", INNER)]))
    ensures MembersError(REQUEST, [("pick", INNER)]) == Some(INVALID_CHOICE)
  {
    SequenceBranchLosesItsName(rules);
    ByNameFinds(REQUEST.children, PICK);
    var built: Entries := [("pick", INNER)];
    assert built[..0] == [];
    assert FirstNamed(PICK.choices, "v").None?;
  }

  /** Where a branch is called like a child of another, it can: what is built is the other branch. */
  lemma NamesakeIsBuilt()
    ensures TakesEntries(NAMESAKE, [("pick", Dict([("range", INNER)]))])
    ensures MembersError(NAMESAKE, [("pick", INNER)]) == None
  {
    var entries: Entries := [("pick", Dict([("range", INNER)]))];
    ByNameFinds(NAMESAKE.children, EITHER);
    FirstNamedFinds(EITHER.choices, RANGE);
    FirstNamedFinds(EITHER.choices, LEAF);
    assert entries[0] in entries && TakesElement(EITHER, entries[0].1);
    assert ElementError(EITHER, INNER) == None by {
      assert INNER.entries[0] == ("v", Text("x")) && FirstNamed(EITHER.choices, "v") == Some(LEAF);
      assert ElementError(LEAF, Text("x")) == None;
    }
    var built: Entries := [("pick", INNER)];
    assert built[|built| - 1] == ("pick", INNER) && built[..|built| - 1] == [];
    assert MembersError(NAMESAKE, built[..|built| - 1]) == None;
  }

  /** The request built from validated parameters reads back as the validated mapping, order included. */
  method BuildValidated(rules: Rules, d: Descriptor, parameters: Json, override: Option<bool>)
    returns (request: NativeRequest, error: Option<ErrorCode>)
    requires WellNamed(d) && ValidateParameters(rules, d, parameters, override).Ok?
    requires !TakesEntries(d, parameters.entries)
    ensures fresh(request) && error.None? && request.nodes != []
    ensures Ok(Dict(ReadMembers(request.nodes, request.nodes[0].members, d))) ==
              ValidateParameters(rules, d, parameters, override)
  {
    ValidatedBuilds(rules, d, parameters, override);
    request := new NativeRequest();
    error := request.PopulateRequest(d, ValidateParameters(rules, d, parameters, override).value.entries);
  }
}
