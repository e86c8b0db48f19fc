/** Why validation refuses: the error it raises names a fault that the request has. */
module ValidationFaults {
  import opened Wrappers
  import opened Descriptors
  import opened Validation
  import opened ValidationMeaning

  /** A leaf is of the wrong type, or not one of the listed values. */
  ghost predicate LeafAtFault(code: ErrorCode, rules: Rules, d: Descriptor, raw: Json) {
    || (code == INVALID_ELEMENT_TYPE && !HasType(rules, d, raw)
        && (d.kind.ENUMERATION? && d.enumValues != [] ==> raw.Null?))
    || (code == INVALID_ENUM_VALUE && d.kind.ENUMERATION? && d.enumValues != [] && !raw.Null? &&
        (raw.Text? ==> raw.s !in d.enumValues))
  }

  ghost predicate ElementAtFault(code: ErrorCode, rules: Rules, d: Descriptor, raw: Json, depth: nat)
    decreases d, 4
  {
    if d.kind.CHOICE? then ChoiceAtFault(code, rules, d, raw, depth)
    else if d.maxValues == Some(1) then
      || (code == INVALID_ELEMENT_TYPE && ((rules.strictTypes && raw.List?) || |Values(raw)| != 1))
      || (|Values(raw)| == 1 && ItemAtFault(code, rules, d, Values(raw)[0], depth))
    else
      || (code == INVALID_ELEMENT_TYPE && rules.strictTypes && !raw.List?)
      || (code == REQUEST_TOO_LARGE && d.maxValues.Some? && |Values(raw)| > d.maxValues.value)
      || (code == MISSING_REQUIRED_ELEMENT && |Values(raw)| < d.minValues)
      || exists i :: 0 <= i < |Values(raw)| && ItemAtFault(code, rules, d, Values(raw)[i], depth)
  }

  ghost predicate ItemAtFault(code: ErrorCode, rules: Rules, d: Descriptor, raw: Json, depth: nat)
    decreases d, 3
  {
    if !d.kind.SEQUENCE? then LeafAtFault(code, rules, d, raw)
    else if !raw.Dict? then code == INVALID_ELEMENT_TYPE
    else ObjectAtFault(code, rules, d, raw.entries, depth + 1)
  }

  /** Too deep, an unknown child, the same child twice, a required one missing, or a fault in one of them. */
  ghost predicate ObjectAtFault(code: ErrorCode, rules: Rules, d: Descriptor, entries: Entries, depth: nat)
    decreases d, 2
  {
    || (code == REQUEST_TOO_LARGE && depth > rules.maxDepth)
    || (code == MISSING_REQUIRED_ELEMENT && exists c <- d.children :: c.minValues >= 1 && c.name !in Given(d, entries))
    || EntriesAtFault(code, rules, d, entries, depth)
  }

  ghost predicate EntriesAtFault(code: ErrorCode, rules: Rules, d: Descriptor, entries: Entries, depth: nat)
    decreases d, 1
  {
    || (code == INVALID_ARGUMENT && !GivenOnce(d, entries))
    || exists e <- entries ::
         if Lookup(d.children, e.0).None? then code == UNKNOWN_ELEMENT && rules.rejectUnknown
         else ElementAtFault(code, rules, Lookup(d.children, e.0).value, e.1, depth)
  }

  /** Not an object of one entry, no such branch, or a fault in the branch. */
  ghost predicate ChoiceAtFault(code: ErrorCode, rules: Rules, d: Descriptor, raw: Json, depth: nat)
    decreases d, 3
  {
    if !raw.Dict? || |raw.entries| != 1 then code == INVALID_CHOICE
    else
      var (key, value) := raw.entries[0];
      || (code == INVALID_CHOICE && forall i | 0 <= i < |d.choices| :: d.choices[i].name != key)
      || exists i: nat :: Takes(d, key, i) &&
           if d.choices[i].kind.SEQUENCE? && value.Dict? then
             ObjectAtFault(code, rules, d.choices[i], value.entries, depth + 1)
           else LeafAtFault(code, rules, d.choices[i], value)
  }

  lemma ScalarFault(rules: Rules, d: Descriptor, raw: Json)
    ensures ValidateScalar(rules, d, raw).Err? ==> LeafAtFault(ValidateScalar(rules, d, raw).error, rules, d, raw)
  {
  }

  /** Too many array items: the one fault that no single value has. */
  ghost predicate TooMany(code: ErrorCode, rules: Rules, count: nat, weight: nat) {
    code == REQUEST_TOO_LARGE && count + weight > rules.maxElements
  }

  lemma {:induction false} ElementFault(rules: Rules, d: Descriptor, raw: Json, depth: nat, count: nat)
    requires count <= rules.maxElements
    ensures var r := ValidateElement(rules, d, raw, depth, count);
            r.Err? ==>
              ElementAtFault(r.error, rules, d, raw, depth) || TooMany(r.error, rules, count, ElementWeight(d, raw))
    decreases d, 4
  {
    hide ItemAtFault, ItemsWeight, ValidateItem, ValidateItems, ValidateChoice, ChoiceAtFault, ChoiceWeight;
    if d.kind.CHOICE? {
      ChoiceFault(rules, d, raw, depth, count);
    } else if d.maxValues == Some(1) {
      if |Values(raw)| == 1 {
        ItemFault(rules, d, Values(raw)[0], depth, count);
        assert Values(raw) == [Values(raw)[0]];
      }
    } else if count + |Values(raw)| <= rules.maxElements {
      ItemsFault(rules, d, Values(raw), depth, count + |Values(raw)|);
    }
  }

  lemma {:induction false} ItemsFault(rules: Rules, d: Descriptor, items: seq<Json>, depth: nat, count: nat)
    requires !d.kind.CHOICE? && count <= rules.maxElements
    ensures var r := ValidateItems(rules, d, items, depth, count);
            r.Err? ==>
              || (exists i :: 0 <= i < |items| && ItemAtFault(r.error, rules, d, items[i], depth))
              || TooMany(r.error, rules, count, ItemsWeight(d, items))
    decreases d, 3, |items|
  {
    hide ItemAtFault, ValidateItem;
    if items != [] {
      var init, last := items[..|items| - 1], items[|items| - 1];
      ItemsExactly(rules, d, init, depth, count);
      ItemsFault(rules, d, init, depth, count);
      var r := ValidateItems(rules, d, init, depth, count);
      if r.Ok? {
        ItemFault(rules, d, last, depth, r.value.1);
        OneWeight(d, last);
      } else if i :| 0 <= i < |init| && ItemAtFault(r.error, rules, d, init[i], depth) {
        assert items[i] == init[i];
      }
    }
  }

  lemma {:induction false} ItemFault(rules: Rules, d: Descriptor, raw: Json, depth: nat, count: nat)
    requires !d.kind.CHOICE? && count <= rules.maxElements
    ensures var r := ValidateItem(rules, d, raw, depth, count);
            r.Err? ==>
              ItemAtFault(r.error, rules, d, raw, depth) || TooMany(r.error, rules, count, ItemsWeight(d, [raw]))
    decreases d, 3, 0
  {
    OneWeight(d, raw);
    if d.kind.SEQUENCE? {
      if raw.Dict? {
        ObjectFault(rules, d, raw.entries, depth + 1, count);
      }
    } else {
      ScalarFault(rules, d, raw);
    }
  }

  lemma {:induction false} ObjectFault(rules: Rules, d: Descriptor, entries: Entries, depth: nat, count: nat)
    requires count <= rules.maxElements
    ensures var r := ValidateObject(rules, d, entries, depth, count);
            r.Err? ==>
              ObjectAtFault(r.error, rules, d, entries, depth)
                || TooMany(r.error, rules, count, EntriesWeight(d, entries))
    decreases d, 2
  {
    hide EntriesAtFault, EntriesWeight, ValidateEntries;
    EntriesExactly(rules, d, entries, depth, count);
    EntriesFault(rules, d, entries, depth, count);
  }

  lemma {:induction false} EntriesFault(rules: Rules, d: Descriptor, entries: Entries, depth: nat, count: nat)
    requires count <= rules.maxElements
    ensures var r := ValidateEntries(rules, d, entries, depth, count);
            r.Err? ==>
              || EntriesAtFault(r.error, rules, d, entries, depth)
              || TooMany(r.error, rules, count, EntriesWeight(d, entries))
    decreases d, 1, |entries|
  {
    hide ElementAtFault, ElementWeight, ValidateElement, Lookup, EntriesAtFault;
    if entries != [] {
      var init, last := entries[..|entries| - 1], entries[|entries| - 1];
      assert entries == init + [last];
      EntriesExactly(rules, d, init, depth, count);
      EntriesFault(rules, d, init, depth, count);
      var r := ValidateEntries(rules, d, init, depth, count);
      var child := Lookup(d.children, last.0);
      if r.Ok? && child.Some? {
        ElementFault(rules, child.value, last.1, depth, r.value.1);
      }
      if ValidateEntries(rules, d, entries, depth, count).Err? {
        FaultSnoc(ValidateEntries(rules, d, entries, depth, count).error, rules, d, init, last, depth);
      }
    }
  }

  /** A fault in the first entries, or in the last, is a fault in all. */
  lemma FaultSnoc(code: ErrorCode, rules: Rules, d: Descriptor, init: Entries, last: (string, Json), depth: nat)
    ensures EntriesAtFault(code, rules, d, init, depth) ==> EntriesAtFault(code, rules, d, init + [last], depth)
    ensures (if Lookup(d.children, last.0).None? then code == UNKNOWN_ELEMENT && rules.rejectUnknown
             else || ElementAtFault(code, rules, Lookup(d.children, last.0).value, last.1, depth)
                  || (code == INVALID_ARGUMENT && Lookup(d.children, last.0).value.name in Given(d, init))) ==>
              EntriesAtFault(code, rules, d, init + [last], depth)
  {
    hide ElementAtFault, Lookup, GivenOnce, Given;
    assert forall e <- init :: e in init + [last];
    assert last in init + [last];
    OnceSnoc(d, init, last);
  }

  lemma {:induction false} ChoiceFault(rules: Rules, d: Descriptor, raw: Json, depth: nat, count: nat)
    requires count <= rules.maxElements
    ensures var r := ValidateChoice(rules, d, raw, depth, count);
            r.Err? ==>
              ChoiceAtFault(r.error, rules, d, raw, depth) || TooMany(r.error, rules, count, ChoiceWeight(d, raw))
    decreases d, 3
  {
    hide ObjectAtFault, EntriesWeight, ValidateObject, ValidateScalar, LeafAtFault;
    if raw.Dict? && |raw.entries| == 1 {
      var (key, value) := raw.entries[0];
      assert d.choices[0..] == d.choices;
      FirstNamedMeans(d, d.choices, key, 0);
      if FirstNamed(d.choices, key).Some? {
        var branch := FirstNamed(d.choices, key).value;
        var i: nat :| Takes(d, key, i);
        assert d.choices[i] == branch;
        if branch.kind.SEQUENCE? && value.Dict? {
          ObjectFault(rules, branch, value.entries, depth + 1, count);
        } else {
          ScalarFault(rules, branch, value);
        }
      }
    }
  }

  /** The error of a refused request is that of a fault it has. */
  lemma RefusedForThatReason(rules: Rules, d: Descriptor, parameters: Json, override: Option<bool>)
    requires rules.maxElements >= 0
    ensures var r := ValidateParameters(rules, d, parameters, override);
            var tightened := rules.(rejectUnknown := rules.rejectUnknown || override == Some(true));
            r.Err? ==>
              if !parameters.Dict? then r.error == INVALID_ARGUMENT
              else
                || ObjectAtFault(r.error, tightened, d, parameters.entries, 0)
                || TooMany(r.error, rules, 0, EntriesWeight(d, parameters.entries))
  {
    hide ObjectAtFault, EntriesWeight, ValidateObject;
    var tightened := rules.(rejectUnknown := rules.rejectUnknown || override == Some(true));
    if parameters.Dict? {
      ObjectFault(tightened, d, parameters.entries, 0, 0);
    }
  }
}
