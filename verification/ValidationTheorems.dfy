/** What the validator promises: accounting, monotonicity, and a canonical form that is its own fixed point. */
module ValidationTheorems {
  import opened Wrappers
  import opened Descriptors
  import opened Validation

  // ------------------------------------------------------------- accounting

  /** Total length of all the arrays in a value. */
  ghost function ArrayItems(value: Json): nat
    decreases value, 1
  {
    match value
    case List(items) => |items| + SumItems(items)
    case Dict(entries) => SumEntries(entries)
    case _ => 0
  }

  ghost function SumItems(items: seq<Json>): nat
    decreases items, 0
  {
    if items == [] then 0 else SumItems(items[..|items| - 1]) + ArrayItems(items[|items| - 1])
  }

  ghost function SumEntries(entries: Entries): nat
    decreases entries, 0
  {
    if entries == [] then 0
    else
      var last := entries[|entries| - 1];
      assert last.1 < last;
      SumEntries(entries[..|entries| - 1]) + ArrayItems(last.1)
  }

  /** How deeply objects are nested in a value. */
  ghost predicate NestsWithin(value: Json, levels: int)
    decreases value
  {
    match value
    case List(items) => forall v <- items :: NestsWithin(v, levels)
    case Dict(entries) => levels >= 1 && forall e <- entries :: NestsWithin(e.1, levels - 1)
    case _ => true
  }

  lemma ScalarIsFlat(rules: Rules, d: Descriptor, raw: Json)
    requires ValidateScalar(rules, d, raw).Ok?
    ensures var v := ValidateScalar(rules, d, raw).value;
            !v.List? && !v.Dict? && !v.Null? && ArrayItems(v) == 0
  {
  }

  lemma SumItemsSnoc(items: seq<Json>, v: Json)
    ensures SumItems(items + [v]) == SumItems(items) + ArrayItems(v)
  {
    assert (items + [v])[..|items|] == items;
  }

  lemma SumEntriesSnoc(entries: Entries, e: (string, Json))
    ensures SumEntries(entries + [e]) == SumEntries(entries) + ArrayItems(e.1)
  {
    assert (entries + [e])[..|entries|] == entries;
  }

  /** The counter ends at what it was plus every array item of the output, and within the limit. */
  lemma {:induction false} ObjectCounts(rules: Rules, d: Descriptor, entries: Entries, depth: nat, count: nat)
    requires ValidateObject(rules, d, entries, depth, count).Ok? && count <= rules.maxElements
    ensures var (done, n) := ValidateObject(rules, d, entries, depth, count).value;
            n == count + SumEntries(done) && n <= rules.maxElements
    decreases d, 2
  {
    EntriesCount(rules, d, entries, depth, count);
  }

  lemma {:induction false} EntriesCount(rules: Rules, d: Descriptor, entries: Entries, depth: nat, count: nat)
    requires ValidateEntries(rules, d, entries, depth, count).Ok? && count <= rules.maxElements
    ensures var (done, n) := ValidateEntries(rules, d, entries, depth, count).value;
            n == count + SumEntries(done) && n <= rules.maxElements
    decreases d, 1, |entries|
  {
    if entries != [] {
      var init := entries[..|entries| - 1];
      var (key, raw) := entries[|entries| - 1];
      EntriesCount(rules, d, init, depth, count);
      var (done, n) := ValidateEntries(rules, d, init, depth, count).value;
      var child := Lookup(d.children, key);
      if child.Some? {
        ElementCounts(rules, child.value, raw, depth, n);
        SumEntriesSnoc(done, (child.value.name, ValidateElement(rules, child.value, raw, depth, n).value.0));
      }
    }
  }

  lemma {:induction false} ElementCounts(rules: Rules, d: Descriptor, raw: Json, depth: nat, count: nat)
    requires ValidateElement(rules, d, raw, depth, count).Ok? && count <= rules.maxElements
    ensures var (value, n) := ValidateElement(rules, d, raw, depth, count).value;
            n == count + ArrayItems(value) && n <= rules.maxElements
    decreases d, 4
  {
    if d.kind.CHOICE? {
      ChoiceCounts(rules, d, raw, depth, count);
    } else if d.Repeated() {
      ItemsCount(rules, d, Items(raw), depth, count + |Items(raw)|);
    } else {
      ItemCounts(rules, d, Items(raw)[0], depth, count);
    }
  }

  lemma {:induction false} ItemsCount(rules: Rules, d: Descriptor, items: seq<Json>, depth: nat, count: nat)
    requires !d.kind.CHOICE? && ValidateItems(rules, d, items, depth, count).Ok? && count <= rules.maxElements
    ensures var (values, n) := ValidateItems(rules, d, items, depth, count).value;
            n == count + SumItems(values) && n <= rules.maxElements && |values| == |items|
    decreases d, 3, |items|
  {
    if items != [] {
      var init, last := items[..|items| - 1], items[|items| - 1];
      ItemsCount(rules, d, init, depth, count);
      var (values, n) := ValidateItems(rules, d, init, depth, count).value;
      ItemCounts(rules, d, last, depth, n);
      SumItemsSnoc(values, ValidateItem(rules, d, last, depth, n).value.0);
    }
  }

  lemma {:induction false} ItemCounts(rules: Rules, d: Descriptor, raw: Json, depth: nat, count: nat)
    requires !d.kind.CHOICE? && ValidateItem(rules, d, raw, depth, count).Ok? && count <= rules.maxElements
    ensures var (value, n) := ValidateItem(rules, d, raw, depth, count).value;
            n == count + ArrayItems(value) && n <= rules.maxElements
    decreases d, 3, 0
  {
    if d.kind.SEQUENCE? {
      ObjectCounts(rules, d, raw.entries, depth + 1, count);
    } else {
      ScalarIsFlat(rules, d, raw);
    }
  }

  lemma {:induction false} ChoiceCounts(rules: Rules, d: Descriptor, raw: Json, depth: nat, count: nat)
    requires ValidateChoice(rules, d, raw, depth, count).Ok? && count <= rules.maxElements
    ensures var (value, n) := ValidateChoice(rules, d, raw, depth, count).value;
            n == count + ArrayItems(value) && n <= rules.maxElements
    decreases d, 3
  {
    var (name, value) := raw.entries[0];
    var branch := FirstNamed(d.choices, name).value;
    if branch.kind.SEQUENCE? && value.Dict? {
      ObjectCounts(rules, branch, value.entries, depth + 1, count);
    } else {
      ScalarIsFlat(rules, branch, value);
      SumEntriesSnoc([], (name, ValidateScalar(rules, branch, value).value));
    }
  }

  // ---------------------------------------------------------------- nesting

  lemma {:induction false} ObjectNests(rules: Rules, d: Descriptor, entries: Entries, depth: nat, count: nat)
    requires ValidateObject(rules, d, entries, depth, count).Ok?
    ensures depth <= rules.maxDepth
    ensures NestsWithin(Dict(ValidateObject(rules, d, entries, depth, count).value.0), rules.maxDepth - depth + 2)
    decreases d, 2
  {
    EntriesNest(rules, d, entries, depth, count);
  }

  lemma {:induction false} EntriesNest(rules: Rules, d: Descriptor, entries: Entries, depth: nat, count: nat)
    requires ValidateEntries(rules, d, entries, depth, count).Ok? && depth <= rules.maxDepth
    ensures forall e <- ValidateEntries(rules, d, entries, depth, count).value.0 ::
            NestsWithin(e.1, rules.maxDepth - depth + 1)
    decreases d, 1, |entries|
  {
    if entries != [] {
      var init := entries[..|entries| - 1];
      var (key, raw) := entries[|entries| - 1];
      EntriesNest(rules, d, init, depth, count);
      var (_, n) := ValidateEntries(rules, d, init, depth, count).value;
      var child := Lookup(d.children, key);
      if child.Some? {
        ElementNests(rules, child.value, raw, depth, n);
      }
    }
  }

  lemma {:induction false} ElementNests(rules: Rules, d: Descriptor, raw: Json, depth: nat, count: nat)
    requires ValidateElement(rules, d, raw, depth, count).Ok? && depth <= rules.maxDepth
    ensures NestsWithin(ValidateElement(rules, d, raw, depth, count).value.0, rules.maxDepth - depth + 1)
    decreases d, 4
  {
    if d.kind.CHOICE? {
      var (name, value) := raw.entries[0];
      var branch := FirstNamed(d.choices, name).value;
      if branch.kind.SEQUENCE? && value.Dict? {
        ObjectNests(rules, branch, value.entries, depth + 1, count);
      } else {
        ScalarIsFlat(rules, branch, value);
        var scalar := ValidateScalar(rules, branch, value).value;
        assert NestsWithin(scalar, rules.maxDepth - depth);
        assert NestsWithin(Dict([(name, scalar)]), rules.maxDepth - depth + 1);
      }
    } else if d.Repeated() {
      ItemsNest(rules, d, Items(raw), depth, count + |Items(raw)|);
    } else {
      ItemNests(rules, d, Items(raw)[0], depth, count);
    }
  }

  lemma {:induction false} ItemsNest(rules: Rules, d: Descriptor, items: seq<Json>, depth: nat, count: nat)
    requires !d.kind.CHOICE? && ValidateItems(rules, d, items, depth, count).Ok? && depth <= rules.maxDepth
    ensures forall v <- ValidateItems(rules, d, items, depth, count).value.0 ::
            NestsWithin(v, rules.maxDepth - depth + 1)
    decreases d, 3, |items|
  {
    if items != [] {
      ItemsNest(rules, d, items[..|items| - 1], depth, count);
      var (_, n) := ValidateItems(rules, d, items[..|items| - 1], depth, count).value;
      ItemNests(rules, d, items[|items| - 1], depth, n);
    }
  }

  lemma {:induction false} ItemNests(rules: Rules, d: Descriptor, raw: Json, depth: nat, count: nat)
    requires !d.kind.CHOICE? && ValidateItem(rules, d, raw, depth, count).Ok? && depth <= rules.maxDepth
    ensures NestsWithin(ValidateItem(rules, d, raw, depth, count).value.0, rules.maxDepth - depth + 1)
    decreases d, 3, 0
  {
    if d.kind.SEQUENCE? {
      ObjectNests(rules, d, raw.entries, depth + 1, count);
    } else {
      ScalarIsFlat(rules, d, raw);
    }
  }

  /** An accepted request is within both limits, however its arrays and objects are spread. */
  lemma AcceptedIsWithinLimits(rules: Rules, d: Descriptor, parameters: Json, override: Option<bool>)
    requires rules.maxElements >= 0 && ValidateParameters(rules, d, parameters, override).Ok?
    ensures var y := ValidateParameters(rules, d, parameters, override).value;
            y.Dict? && ArrayItems(y) <= rules.maxElements && NestsWithin(y, rules.maxDepth + 2)
  {
    var tightened := rules.(rejectUnknown := rules.rejectUnknown || override == Some(true));
    ObjectCounts(tightened, d, parameters.entries, 0, 0);
    ObjectNests(tightened, d, parameters.entries, 0, 0);
  }

  // ----------------------------------------------------------- monotonicity

  /** rules' asks for no more than rules. */
  ghost predicate Weaker(rules: Rules, rules': Rules) {
    && rules'.parse == rules.parse
    && rules.maxElements <= rules'.maxElements && rules.maxDepth <= rules'.maxDepth
    && (rules'.rejectUnknown ==> rules.rejectUnknown)
    && (rules'.strictTypes ==> rules.strictTypes)
  }

  /** What stricter rules accept, weaker rules accept with the same output and the same count. */
  lemma {:induction false} WeakerAccepts(rules: Rules, rules': Rules, d: Descriptor, entries: Entries, depth: nat,
                                         count: nat)
    requires Weaker(rules, rules') && ValidateObject(rules, d, entries, depth, count).Ok?
    ensures ValidateObject(rules', d, entries, depth, count) == ValidateObject(rules, d, entries, depth, count)
    decreases d, 2
  {
    WeakerEntries(rules, rules', d, entries, depth, count);
  }

  lemma {:induction false} WeakerEntries(rules: Rules, rules': Rules, d: Descriptor, entries: Entries, depth: nat,
                                         count: nat)
    requires Weaker(rules, rules') && ValidateEntries(rules, d, entries, depth, count).Ok?
    ensures ValidateEntries(rules', d, entries, depth, count) == ValidateEntries(rules, d, entries, depth, count)
    decreases d, 1, |entries|
  {
    if entries != [] {
      var init := entries[..|entries| - 1];
      var (key, raw) := entries[|entries| - 1];
      WeakerEntries(rules, rules', d, init, depth, count);
      var (_, n) := ValidateEntries(rules, d, init, depth, count).value;
      var child := Lookup(d.children, key);
      if child.Some? {
        WeakerElement(rules, rules', child.value, raw, depth, n);
      }
    }
  }

  lemma {:induction false} WeakerElement(rules: Rules, rules': Rules, d: Descriptor, raw: Json, depth: nat, count: nat)
    requires Weaker(rules, rules') && ValidateElement(rules, d, raw, depth, count).Ok?
    ensures ValidateElement(rules', d, raw, depth, count) == ValidateElement(rules, d, raw, depth, count)
    decreases d, 4
  {
    if d.kind.CHOICE? {
      var (name, value) := raw.entries[0];
      var branch := FirstNamed(d.choices, name).value;
      if branch.kind.SEQUENCE? && value.Dict? {
        WeakerAccepts(rules, rules', branch, value.entries, depth + 1, count);
      }
    } else if d.Repeated() {
      WeakerItems(rules, rules', d, Items(raw), depth, count + |Items(raw)|);
    } else {
      WeakerItem(rules, rules', d, Items(raw)[0], depth, count);
    }
  }

  lemma {:induction false} WeakerItems(rules: Rules, rules': Rules, d: Descriptor, items: seq<Json>, depth: nat,
                                       count: nat)
    requires !d.kind.CHOICE? && Weaker(rules, rules') && ValidateItems(rules, d, items, depth, count).Ok?
    ensures ValidateItems(rules', d, items, depth, count) == ValidateItems(rules, d, items, depth, count)
    decreases d, 3, |items|
  {
    if items != [] {
      WeakerItems(rules, rules', d, items[..|items| - 1], depth, count);
      var (_, n) := ValidateItems(rules, d, items[..|items| - 1], depth, count).value;
      WeakerItem(rules, rules', d, items[|items| - 1], depth, n);
    }
  }

  lemma {:induction false} WeakerItem(rules: Rules, rules': Rules, d: Descriptor, raw: Json, depth: nat, count: nat)
    requires !d.kind.CHOICE? && Weaker(rules, rules') && ValidateItem(rules, d, raw, depth, count).Ok?
    ensures ValidateItem(rules', d, raw, depth, count) == ValidateItem(rules, d, raw, depth, count)
    decreases d, 3, 0
  {
    if d.kind.SEQUENCE? {
      WeakerAccepts(rules, rules', d, raw.entries, depth + 1, count);
    }
  }

  /** The per-request override can only tighten: with it, a request is refused or accepted unchanged. */
  lemma OverrideOnlyTightens(rules: Rules, d: Descriptor, parameters: Json, override: Option<bool>)
    requires ValidateParameters(rules, d, parameters, override).Ok?
    ensures ValidateParameters(rules, d, parameters, None) == ValidateParameters(rules, d, parameters, override)
  {
    var tightened := rules.(rejectUnknown := rules.rejectUnknown || override == Some(true));
    assert rules.(rejectUnknown := rules.rejectUnknown || None == Some(true)) == rules;
    WeakerAccepts(tightened, rules, d, parameters.entries, 0, 0);
  }
}
