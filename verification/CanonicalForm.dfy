/**
 Lenient validation yields a canonical form: strict validation of the output gives the output back.
 This fails in two places, where the validator puts something outside its own input language into the
 output: a SEQUENCE branch of a CHOICE loses its branch name, and temporal or binary text is decoded.
 */
module CanonicalForm {
  import opened Wrappers
  import opened Descriptors
  import opened Validation
  import opened ValidationTheorems

  /** The strictest rules under the same limits. */
  function Strictest(rules: Rules): Rules {
    rules.(rejectUnknown := true, strictTypes := true)
  }

  /** The input reaches one of the two places where the output leaves the input language. */
  ghost predicate RewritesEntries(d: Descriptor, entries: Entries)
    decreases d, 1
  {
    exists e <- entries :: Lookup(d.children, e.0).Some? && RewritesElement(Lookup(d.children, e.0).value, e.1)
  }

  ghost predicate RewritesElement(d: Descriptor, raw: Json)
    decreases d, 3
  {
    if d.kind.CHOICE? then RewritesChoice(d, raw) else exists item <- Items(raw) :: RewritesItem(d, item)
  }

  ghost predicate RewritesItem(d: Descriptor, item: Json)
    decreases d, 2
  {
    if d.kind.SEQUENCE? then item.Dict? && RewritesEntries(d, item.entries) else Temporal(d.kind)
  }

  ghost predicate RewritesChoice(d: Descriptor, raw: Json) {
    raw.Dict? && |raw.entries| == 1 && FirstNamed(d.choices, raw.entries[0].0).Some? &&
    var branch := FirstNamed(d.choices, raw.entries[0].0).value;
    (branch.kind.SEQUENCE? && raw.entries[0].1.Dict?) || Temporal(branch.kind)
  }

  lemma ScalarFixed(rules: Rules, d: Descriptor, raw: Json)
    requires ValidateScalar(rules, d, raw).Ok? && !Temporal(d.kind)
    ensures var v := ValidateScalar(rules, d, raw).value;
            ValidateScalar(Strictest(rules), d, v) == Ok(v) && !v.List? && !v.Dict?
  {
  }

  lemma EntriesSnoc(rules: Rules, d: Descriptor, entries: Entries, e: (string, Json), depth: nat, count: nat)
    requires ValidateEntries(rules, d, entries, depth, count).Ok?
    ensures var (done, n) := ValidateEntries(rules, d, entries, depth, count).value;
            var child := Lookup(d.children, e.0);
            child.Some? && child.value.name !in Keys(done) && ValidateElement(rules, child.value, e.1, depth, n).Ok? ==>
              var (value, m) := ValidateElement(rules, child.value, e.1, depth, n).value;
              ValidateEntries(rules, d, entries + [e], depth, count) == Ok((done + [(child.value.name, value)], m))
  {
    assert (entries + [e])[..|entries|] == entries;
  }

  lemma ItemsSnoc(rules: Rules, d: Descriptor, items: seq<Json>, item: Json, depth: nat, count: nat)
    requires !d.kind.CHOICE? && ValidateItems(rules, d, items, depth, count).Ok?
    ensures var (values, n) := ValidateItems(rules, d, items, depth, count).value;
            ValidateItem(rules, d, item, depth, n).Ok? ==>
              var (value, m) := ValidateItem(rules, d, item, depth, n).value;
              ValidateItems(rules, d, items + [item], depth, count) == Ok((values + [value], m))
  {
    assert (items + [item])[..|items|] == items;
  }

  // ------------------------------------------------- the output is a fixed point

  lemma {:induction false} ObjectFixed(rules: Rules, d: Descriptor, entries: Entries, depth: nat, count: nat)
    requires WellNamed(d) && ValidateObject(rules, d, entries, depth, count).Ok? && !RewritesEntries(d, entries)
    ensures var (done, n) := ValidateObject(rules, d, entries, depth, count).value;
            ValidateObject(Strictest(rules), d, done, depth, count) == Ok((done, n))
    decreases d, 2
  {
    EntriesFixed(rules, d, entries, depth, count);
  }

  lemma {:induction false} EntriesFixed(rules: Rules, d: Descriptor, entries: Entries, depth: nat, count: nat)
    requires WellNamed(d) && ValidateEntries(rules, d, entries, depth, count).Ok? && !RewritesEntries(d, entries)
    ensures var (done, n) := ValidateEntries(rules, d, entries, depth, count).value;
            ValidateEntries(Strictest(rules), d, done, depth, count) == Ok((done, n))
    decreases d, 1, |entries|
  {
    if entries != [] {
      var init, last := entries[..|entries| - 1], entries[|entries| - 1];
      EntriesFixed(rules, d, init, depth, count);
      var (done, n) := ValidateEntries(rules, d, init, depth, count).value;
      var child := Lookup(d.children, last.0);
      if child.Some? {
        assert !RewritesElement(child.value, last.1);
        ElementFixed(rules, child.value, last.1, depth, n);
        ByNameFinds(d.children, child.value);
        var (value, _) := ValidateElement(rules, child.value, last.1, depth, n).value;
        EntriesSnoc(Strictest(rules), d, done, (child.value.name, value), depth, count);
      }
    }
  }

  lemma {:induction false} ElementFixed(rules: Rules, d: Descriptor, raw: Json, depth: nat, count: nat)
    requires WellNamed(d) && ValidateElement(rules, d, raw, depth, count).Ok? && !RewritesElement(d, raw)
    ensures var (value, n) := ValidateElement(rules, d, raw, depth, count).value;
            ValidateElement(Strictest(rules), d, value, depth, count) == Ok((value, n))
    decreases d, 4
  {
    if d.kind.CHOICE? {
      ChoiceFixed(rules, d, raw, depth, count);
    } else if d.Repeated() {
      ItemsFixed(rules, d, Items(raw), depth, count + |Items(raw)|);
    } else {
      ItemFixed(rules, d, Items(raw)[0], depth, count);
    }
  }

  lemma {:induction false} ItemsFixed(rules: Rules, d: Descriptor, items: seq<Json>, depth: nat, count: nat)
    requires !d.kind.CHOICE? && WellNamed(d) && ValidateItems(rules, d, items, depth, count).Ok?
    requires forall item <- items :: !RewritesItem(d, item)
    ensures var (values, n) := ValidateItems(rules, d, items, depth, count).value;
            |values| == |items| && ValidateItems(Strictest(rules), d, values, depth, count) == Ok((values, n))
    decreases d, 3, |items|
  {
    if items != [] {
      var init, last := items[..|items| - 1], items[|items| - 1];
      ItemsFixed(rules, d, init, depth, count);
      var (values, n) := ValidateItems(rules, d, init, depth, count).value;
      ItemFixed(rules, d, last, depth, n);
      ItemsSnoc(Strictest(rules), d, values, ValidateItem(rules, d, last, depth, n).value.0, depth, count);
    }
  }

  lemma {:induction false} ItemFixed(rules: Rules, d: Descriptor, raw: Json, depth: nat, count: nat)
    requires !d.kind.CHOICE? && WellNamed(d) && ValidateItem(rules, d, raw, depth, count).Ok? && !RewritesItem(d, raw)
    ensures var (value, n) := ValidateItem(rules, d, raw, depth, count).value;
            !value.List? && ValidateItem(Strictest(rules), d, value, depth, count) == Ok((value, n))
    decreases d, 3, 0
  {
    if d.kind.SEQUENCE? {
      ObjectFixed(rules, d, raw.entries, depth + 1, count);
    } else {
      ScalarFixed(rules, d, raw);
    }
  }

  lemma ChoiceFixed(rules: Rules, d: Descriptor, raw: Json, depth: nat, count: nat)
    requires ValidateChoice(rules, d, raw, depth, count).Ok? && !RewritesChoice(d, raw)
    ensures var (value, n) := ValidateChoice(rules, d, raw, depth, count).value;
            ValidateChoice(Strictest(rules), d, value, depth, count) == Ok((value, n))
  {
    ScalarFixed(rules, FirstNamed(d.choices, raw.entries[0].0).value, raw.entries[0].1);
  }

  // ------------------------------------------------ and only there it is not

  /** One refused entry refuses the object. */
  lemma {:induction false} EntryRefuses(rules: Rules, d: Descriptor, entries: Entries, i: nat, depth: nat, count: nat)
    requires i < |entries| && Lookup(d.children, entries[i].0).Some?
    requires forall n: nat :: ValidateElement(rules, Lookup(d.children, entries[i].0).value, entries[i].1, depth,
                                              n).Err?
    ensures ValidateEntries(rules, d, entries, depth, count).Err?
    decreases |entries|
  {
    if i < |entries| - 1 {
      EntryRefuses(rules, d, entries[..|entries| - 1], i, depth, count);
    } else if ValidateEntries(rules, d, entries[..i], depth, count).Ok? {
      var (_, n) := ValidateEntries(rules, d, entries[..i], depth, count).value;
      assert ValidateElement(rules, Lookup(d.children, entries[i].0).value, entries[i].1, depth, n).Err?;
    }
  }

  lemma {:induction false} ItemRefuses(rules: Rules, d: Descriptor, items: seq<Json>, i: nat, depth: nat, count: nat)
    requires !d.kind.CHOICE? && i < |items|
    requires forall n: nat :: ValidateItem(rules, d, items[i], depth, n).Err?
    ensures ValidateItems(rules, d, items, depth, count).Err?
    decreases |items|
  {
    if i < |items| - 1 {
      ItemRefuses(rules, d, items[..|items| - 1], i, depth, count);
    } else if ValidateItems(rules, d, items[..i], depth, count).Ok? {
      var (_, n) := ValidateItems(rules, d, items[..i], depth, count).value;
      assert ValidateItem(rules, d, items[i], depth, n).Err?;
    }
  }

  /** The output has an entry for every known entry of the input, under its canonical name. */
  lemma {:induction false} EntryKept(rules: Rules, d: Descriptor, entries: Entries, i: nat, depth: nat, count: nat)
    returns (j: nat, n: nat)
    requires ValidateEntries(rules, d, entries, depth, count).Ok?
    requires i < |entries| && Lookup(d.children, entries[i].0).Some?
    ensures var child := Lookup(d.children, entries[i].0).value;
            var done := ValidateEntries(rules, d, entries, depth, count).value.0;
            && ValidateElement(rules, child, entries[i].1, depth, n).Ok?
            && j < |done| && done[j] == (child.name, ValidateElement(rules, child, entries[i].1, depth, n).value.0)
    decreases |entries|
  {
    hide ValidateElement, Lookup;
    var init := entries[..|entries| - 1];
    if i < |init| {
      j, n := EntryKept(rules, d, init, i, depth, count);
    } else {
      var (done, m) := ValidateEntries(rules, d, init, depth, count).value;
      j, n := |done|, m;
    }
  }

  lemma {:induction false} ItemKept(rules: Rules, d: Descriptor, items: seq<Json>, i: nat, depth: nat, count: nat)
    returns (n: nat)
    requires !d.kind.CHOICE? && ValidateItems(rules, d, items, depth, count).Ok? && i < |items|
    ensures var values := ValidateItems(rules, d, items, depth, count).value.0;
            && |values| == |items|
            && ValidateItem(rules, d, items[i], depth, n).Ok?
            && values[i] == ValidateItem(rules, d, items[i], depth, n).value.0
    decreases |items|
  {
    var init := items[..|items| - 1];
    ItemsLength(rules, d, init, depth, count);
    if i < |init| {
      n := ItemKept(rules, d, init, i, depth, count);
    } else {
      n := ValidateItems(rules, d, init, depth, count).value.1;
    }
  }

  lemma {:induction false} ItemsLength(rules: Rules, d: Descriptor, items: seq<Json>, depth: nat, count: nat)
    requires !d.kind.CHOICE? && ValidateItems(rules, d, items, depth, count).Ok?
    ensures |ValidateItems(rules, d, items, depth, count).value.0| == |items|
  {
    if items != [] {
      ItemsLength(rules, d, items[..|items| - 1], depth, count);
    }
  }

  /** Every key of the output is the name of a child. */
  lemma {:induction false} KeysAreNames(rules: Rules, d: Descriptor, entries: Entries, depth: nat, count: nat)
    requires ValidateEntries(rules, d, entries, depth, count).Ok?
    ensures Keys(ValidateEntries(rules, d, entries, depth, count).value.0) <= Names(d.children)
  {
    if entries != [] {
      KeysAreNames(rules, d, entries[..|entries| - 1], depth, count);
    }
  }

  lemma {:induction false} ObjectBroken(rules: Rules, d: Descriptor, entries: Entries, depth: nat, count: nat,
                                        again: nat)
    requires WellNamed(d) && BranchesApart(d)
    requires ValidateObject(rules, d, entries, depth, count).Ok? && RewritesEntries(d, entries)
    ensures ValidateObject(Strictest(rules), d, ValidateObject(rules, d, entries, depth, count).value.0, depth,
                           again).Err?
    decreases d, 2
  {
    var e :| e in entries && Lookup(d.children, e.0).Some? && RewritesElement(Lookup(d.children, e.0).value, e.1);
    var i :| 0 <= i < |entries| && entries[i] == e;
    var child := Lookup(d.children, e.0).value;
    var done := ValidateEntries(rules, d, entries, depth, count).value.0;
    var j, n := EntryKept(rules, d, entries, i, depth, count);
    ByNameFinds(d.children, child);
    forall m: nat ensures ValidateElement(Strictest(rules), child, done[j].1, depth, m).Err? {
      ElementBroken(rules, child, e.1, depth, n, m);
    }
    EntryRefuses(Strictest(rules), d, done, j, depth, again);
  }

  lemma {:induction false} ElementBroken(rules: Rules, d: Descriptor, raw: Json, depth: nat, count: nat, again: nat)
    requires WellNamed(d) && BranchesApart(d)
    requires ValidateElement(rules, d, raw, depth, count).Ok? && RewritesElement(d, raw)
    ensures ValidateElement(Strictest(rules), d, ValidateElement(rules, d, raw, depth, count).value.0, depth,
                            again).Err?
    decreases d, 4
  {
    hide WellNamed, BranchesApart, ValidateElement, ValidateItems, ValidateItem, ValidateChoice, RewritesItem,
         RewritesChoice;
    ElementIs(rules, d, raw, depth, count);
    var value := ValidateElement(rules, d, raw, depth, count).value.0;
    if d.kind.CHOICE? {
      ChoiceBroken(rules, d, raw, depth, count, again);
      ChoiceIs(Strictest(rules), d, value, depth, again);
    } else if d.Repeated() {
      ItemsLength(rules, d, Items(raw), depth, count + |Items(raw)|);
      ListBroken(rules, d, Items(raw), depth, count + |Items(raw)|, again + |Items(raw)|);
      ListRefused(Strictest(rules), d, value.items, depth, again);
    } else {
      ItemBroken(rules, d, Items(raw)[0], depth, count, again);
      ItemRefused(Strictest(rules), d, value, depth, again);
    }
  }

  /** What an accepted element is made of. */
  lemma ElementIs(rules: Rules, d: Descriptor, raw: Json, depth: nat, count: nat)
    requires ValidateElement(rules, d, raw, depth, count).Ok?
    ensures var value := ValidateElement(rules, d, raw, depth, count).value.0;
            if d.kind.CHOICE? then
              && ValidateChoice(rules, d, raw, depth, count).Ok?
              && ValidateChoice(rules, d, raw, depth, count).value.0 == value
            else if d.Repeated() then
              var items := ValidateItems(rules, d, Items(raw), depth, count + |Items(raw)|);
              items.Ok? && value == List(items.value.0)
            else
              && |Items(raw)| == 1 && ValidateItem(rules, d, Items(raw)[0], depth, count).Ok?
              && ValidateItem(rules, d, Items(raw)[0], depth, count).value.0 == value
  {
  }

  lemma ChoiceIs(rules: Rules, d: Descriptor, raw: Json, depth: nat, count: nat)
    requires d.kind.CHOICE?
    ensures ValidateElement(rules, d, raw, depth, count) == ValidateChoice(rules, d, raw, depth, count)
  {
  }

  lemma ListRefused(rules: Rules, d: Descriptor, items: seq<Json>, depth: nat, count: nat)
    requires !d.kind.CHOICE? && d.Repeated() && ValidateItems(rules, d, items, depth, count + |items|).Err?
    ensures ValidateElement(rules, d, List(items), depth, count).Err?
  {
  }

  lemma ItemRefused(rules: Rules, d: Descriptor, raw: Json, depth: nat, count: nat)
    requires !d.kind.CHOICE? && !d.Repeated() && !raw.List? && ValidateItem(rules, d, raw, depth, count).Err?
    ensures ValidateElement(rules, d, raw, depth, count).Err?
  {
  }

  lemma {:induction false} ListBroken(rules: Rules, d: Descriptor, items: seq<Json>, depth: nat, count: nat, again: nat)
    requires !d.kind.CHOICE? && WellNamed(d) && BranchesApart(d) && ValidateItems(rules, d, items, depth, count).Ok?
    requires exists item <- items :: RewritesItem(d, item)
    ensures ValidateItems(Strictest(rules), d, ValidateItems(rules, d, items, depth, count).value.0, depth, again).Err?
    decreases d, 3, 1
  {
    var item :| item in items && RewritesItem(d, item);
    var i :| 0 <= i < |items| && items[i] == item;
    var values := ValidateItems(rules, d, items, depth, count).value.0;
    var n := ItemKept(rules, d, items, i, depth, count);
    forall m: nat ensures ValidateItem(Strictest(rules), d, values[i], depth, m).Err? {
      ItemBroken(rules, d, item, depth, n, m);
    }
    ItemRefuses(Strictest(rules), d, values, i, depth, again);
  }

  lemma {:induction false} ItemBroken(rules: Rules, d: Descriptor, raw: Json, depth: nat, count: nat, again: nat)
    requires !d.kind.CHOICE? && WellNamed(d) && BranchesApart(d)
    requires ValidateItem(rules, d, raw, depth, count).Ok? && RewritesItem(d, raw)
    ensures var value := ValidateItem(rules, d, raw, depth, count).value.0;
            !value.List? && ValidateItem(Strictest(rules), d, value, depth, again).Err?
    decreases d, 3, 0
  {
    if d.kind.SEQUENCE? {
      ObjectBroken(rules, d, raw.entries, depth + 1, count, again);
    }
  }

  lemma ChoiceBroken(rules: Rules, d: Descriptor, raw: Json, depth: nat, count: nat, again: nat)
    requires BranchesApart(d)
    requires ValidateChoice(rules, d, raw, depth, count).Ok? && RewritesChoice(d, raw)
    ensures ValidateChoice(Strictest(rules), d, ValidateChoice(rules, d, raw, depth, count).value.0, depth, again).Err?
  {
    var (name, value) := raw.entries[0];
    var branch := FirstNamed(d.choices, name).value;
    if branch.kind.SEQUENCE? && value.Dict? {
      KeysAreNames(rules, branch, value.entries, depth + 1, count);
      var done := ValidateObject(rules, branch, value.entries, depth + 1, count).value.0;
      if |done| == 1 {
        assert done[0].0 in Keys(done);
      }
    }
  }

  // ------------------------------------------------------------- main results

  /** Strict validation maps the output of lenient validation to itself, whatever the lenient flags were. */
  lemma OutputIsFixedPoint(rules: Rules, d: Descriptor, parameters: Json)
    requires WellNamed(d) && ValidateParameters(rules, d, parameters, None).Ok?
    requires !RewritesEntries(d, parameters.entries)
    ensures var y := ValidateParameters(rules, d, parameters, None).value;
            ValidateParameters(Strictest(rules), d, y, None) == Ok(y)
  {
    assert rules.(rejectUnknown := rules.rejectUnknown || None == Some(true)) == rules;
    ObjectFixed(rules, d, parameters.entries, 0, 0);
  }

  /** When branch names cannot be taken for child names, that is exactly when it does. */
  lemma FixedPointExactly(rules: Rules, d: Descriptor, parameters: Json)
    requires WellNamed(d) && BranchesApart(d) && ValidateParameters(rules, d, parameters, None).Ok?
    ensures var y := ValidateParameters(rules, d, parameters, None).value;
            ValidateParameters(Strictest(rules), d, y, None) == Ok(y) <==> !RewritesEntries(d, parameters.entries)
  {
    assert rules.(rejectUnknown := rules.rejectUnknown || None == Some(true)) == rules;
    if RewritesEntries(d, parameters.entries) {
      ObjectBroken(rules, d, parameters.entries, 0, 0, 0);
    } else {
      OutputIsFixedPoint(rules, d, parameters);
    }
  }

  /** A request with one choice that has one SEQUENCE branch. */
  const LEAF := Descriptor("v", [], STRING, 0, Some(1), [], [], [], None)
  const RANGE := Descriptor("range", [], SEQUENCE, 0, Some(1), [LEAF], [], [], None)
  const PICK := Descriptor("pick", [], CHOICE, 0, Some(1), [], [], [RANGE], None)
  const REQUEST := Descriptor("request", [], SEQUENCE, 0, Some(1), [PICK], [], [], None)
  const INNER: Json := Dict([("v", Text("x"))])

  lemma ExampleAccepted(rules: Rules)
    requires rules.maxDepth >= 1
    ensures ValidateElement(rules, PICK, Dict([("range", INNER)]), 0, 0) == Ok((INNER, 0))
    ensures ValidateElement(Strictest(rules), PICK, INNER, 0, 0) == Err(INVALID_CHOICE)
  {
    FirstNamedFinds(PICK.choices, RANGE);
    ByNameFinds(RANGE.children, LEAF);
    OneEntry(rules, RANGE, ("v", Text("x")), 1, 0);
    assert ValidateElement(rules, LEAF, Text("x"), 1, 0) == Ok((Text("x"), 0));
    assert ValidateObject(rules, RANGE, INNER.entries, 1, 0) == Ok((INNER.entries, 0));
  }

  /** On this schema the output of an accepted request is refused: the branch name is gone. */
  lemma SequenceBranchLosesItsName(rules: Rules)
    requires rules.maxDepth >= 1
    ensures ValidateParameters(rules, REQUEST, Dict([("pick", Dict([("range", INNER)]))]), None) ==
            Ok(Dict([("pick", INNER)]))
    ensures ValidateParameters(Strictest(rules), REQUEST, Dict([("pick", INNER)]), None) == Err(INVALID_CHOICE)
  {
    assert rules.(rejectUnknown := rules.rejectUnknown || None == Some(true)) == rules;
    ByNameFinds(REQUEST.children, PICK);
    ExampleAccepted(rules);
    OneEntry(rules, REQUEST, ("pick", Dict([("range", INNER)])), 0, 0);
    OneEntry(Strictest(rules), REQUEST, ("pick", INNER), 0, 0);
  }

  /** The same request with a second branch, called like the child of the first. */
  const EITHER := Descriptor("pick", [], CHOICE, 0, Some(1), [], [], [RANGE, LEAF], None)
  const NAMESAKE := Descriptor("request", [], SEQUENCE, 0, Some(1), [EITHER], [], [], None)

  lemma EitherAccepted(rules: Rules)
    requires rules.maxDepth >= 1
    ensures ValidateElement(rules, EITHER, Dict([("range", INNER)]), 0, 0) == Ok((INNER, 0))
    ensures ValidateElement(rules, EITHER, INNER, 0, 0) == Ok((INNER, 0))
  {
    FirstNamedFinds(EITHER.choices, RANGE);
    FirstNamedFinds(EITHER.choices, LEAF);
    ByNameFinds(RANGE.children, LEAF);
    OneEntry(rules, RANGE, ("v", Text("x")), 1, 0);
    assert ValidateElement(rules, LEAF, Text("x"), 1, 0) == Ok((Text("x"), 0));
    assert ValidateObject(rules, RANGE, INNER.entries, 1, 0) == Ok((INNER.entries, 0));
  }

  /**
   Names kept apart are needed: on this schema a SEQUENCE branch is taken and loses its name, and the output
   is a fixed point all the same. It is read as the other branch.
   */
  lemma NamesakeIsFixed(rules: Rules)
    requires rules.maxDepth >= 1
    ensures WellNamed(NAMESAKE) && !BranchesApart(NAMESAKE)
    ensures RewritesEntries(NAMESAKE, [("pick", Dict([("range", INNER)]))])
    ensures ValidateParameters(rules, NAMESAKE, Dict([("pick", Dict([("range", INNER)]))]), None) ==
              Ok(Dict([("pick", INNER)]))
    ensures ValidateParameters(Strictest(rules), NAMESAKE, Dict([("pick", INNER)]), None) == Ok(Dict([("pick", INNER)]))
  {
    var entries: Entries := [("pick", Dict([("range", INNER)]))];
    NamesakeClashes();
    NamesakeRewrites();
    hide WellNamed, BranchesApart, RewritesEntries;
    ByNameFinds(NAMESAKE.children, EITHER);
    assert rules.(rejectUnknown := rules.rejectUnknown || None == Some(true)) == rules;
    EitherAccepted(rules);
    EitherAccepted(Strictest(rules));
    OneEntry(rules, NAMESAKE, entries[0], 0, 0);
    OneEntry(Strictest(rules), NAMESAKE, ("pick", INNER), 0, 0);
  }

  lemma NamesakeRewrites()
    ensures RewritesEntries(NAMESAKE, [("pick", Dict([("range", INNER)]))])
  {
    var entries: Entries := [("pick", Dict([("range", INNER)]))];
    ByNameFinds(NAMESAKE.children, EITHER);
    FirstNamedFinds(EITHER.choices, RANGE);
    assert entries[0] in entries && RewritesElement(EITHER, entries[0].1);
  }

  lemma NamesakeClashes()
    ensures WellNamed(NAMESAKE) && !BranchesApart(NAMESAKE)
  {
    assert WellNamed(RANGE) && WellNamed(LEAF);
    assert !BranchesApart(EITHER) by {
      assert RANGE in EITHER.choices;
      assert LEAF in RANGE.children && LEAF in EITHER.choices;
      assert "v" in Names(RANGE.children) && "v" in Names(EITHER.choices);
    }
    assert EITHER in NAMESAKE.children;
  }

  lemma OneEntry(rules: Rules, d: Descriptor, e: (string, Json), depth: nat, count: nat)
    requires Lookup(d.children, e.0).Some?
    ensures var child := Lookup(d.children, e.0).value;
            ValidateEntries(rules, d, [e], depth, count) ==
              match ValidateElement(rules, child, e.1, depth, count)
              case Err(error) => Err(error)
              case Ok((value, n)) => Ok(([(child.name, value)], n))
  {
    assert [e][..0] == [] && Keys([]) == {};
    assert ValidateEntries(rules, d, [e][..0], depth, count) == Ok(([], count));
    var child := Lookup(d.children, e.0).value;
    if ValidateElement(rules, child, e.1, depth, count).Ok? {
      var kept := (child.name, ValidateElement(rules, child, e.1, depth, count).value.0);
      var none: Entries := [];
      assert none + [kept] == [kept];
    }
  }
}
