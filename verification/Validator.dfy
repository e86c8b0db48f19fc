/**
 The request validator as it is written: loops that fill dicts and lists, and one counter of array items
 shared by the whole request. Each method is proved against its function in Validation.
 */
module Validator {
  import opened Wrappers
  import opened Descriptors
  import opened Validation

  class Counters {
    const maxElements: int
    var arrayElements: nat

    constructor (maxElements: int)
      ensures this.maxElements == maxElements && arrayElements == 0
    {
      this.maxElements, arrayElements := maxElements, 0;
    }

    method CountArrayItems(n: nat) returns (ok: bool)
      modifies this
      ensures arrayElements == old(arrayElements) + n
      ensures ok <==> arrayElements <= maxElements
    {
      arrayElements := arrayElements + n;
      ok := arrayElements <= maxElements;
    }
  }

  /** The dict from accepted keys to children: names first, then alternate names that are still free. */
  method BuildKnown(ds: seq<Descriptor>) returns (known: map<string, Descriptor>)
    ensures forall key :: key in known <==> Lookup(ds, key).Some?
    ensures forall key <- known :: known[key] == Lookup(ds, key).value
  {
    known := map[];
    assert ds[..0] == [];
    for i := 0 to |ds|
      invariant forall key :: key in known <==> ByName(ds[..i], key).Some?
      invariant forall key <- known :: known[key] == ByName(ds[..i], key).value
    {
      ByNameSnoc(ds[..i], ds[i]);
      assert ds[..i + 1] == ds[..i] + [ds[i]];
      known := known[ds[i].name := ds[i]];
    }
    assert ds[..|ds|] == ds;
    ghost var names := known;
    for i := 0 to |ds|
      invariant KnownUpTo(known, names, ds[..i])
    {
      known := AddAliases(known, names, ds[..i], ds[i]);
      assert ds[..i + 1] == ds[..i] + [ds[i]];
    }
  }

  ghost predicate KnownUpTo(known: map<string, Descriptor>, names: map<string, Descriptor>, ds: seq<Descriptor>) {
    && (forall key :: key in known <==> key in names || ByAlias(ds, key).Some?)
    && (forall key <- known :: known[key] == if key in names then names[key] else ByAlias(ds, key).value)
  }

  method AddAliases(before: map<string, Descriptor>, ghost names: map<string, Descriptor>, ghost ds: seq<Descriptor>,
                    d: Descriptor)
    returns (known: map<string, Descriptor>)
    requires KnownUpTo(before, names, ds)
    ensures KnownUpTo(known, names, ds + [d])
  {
    known := before;
    for j := 0 to |d.alternates|
      invariant forall key :: key in known <==> key in before || key in d.alternates[..j]
      invariant forall key <- known :: known[key] == if key in before then before[key] else d
    {
      assert d.alternates[..j + 1] == d.alternates[..j] + [d.alternates[j]];
      if d.alternates[j] !in known {
        known := known[d.alternates[j] := d];
      }
    }
    assert d.alternates[..|d.alternates|] == d.alternates;
    forall key ensures key in known <==> key in names || ByAlias(ds + [d], key).Some? {
      ByAliasSnoc(ds, d, key);
    }
    forall key <- known ensures known[key] == if key in names then names[key] else ByAlias(ds + [d], key).value {
      ByAliasSnoc(ds, d, key);
    }
  }

  lemma ByNameSnoc(ds: seq<Descriptor>, d: Descriptor)
    ensures forall key :: ByName(ds + [d], key) == if d.name == key then Some(d) else ByName(ds, key)
  {
    assert (ds + [d])[..|ds|] == ds;
  }

  lemma {:induction false} ByAliasSnoc(ds: seq<Descriptor>, d: Descriptor, key: string)
    ensures ByAlias(ds + [d], key) ==
              if ByAlias(ds, key).Some? then ByAlias(ds, key) else if key in d.alternates then Some(d) else None
  {
    if ds != [] {
      assert (ds + [d])[1..] == ds[1..] + [d];
      ByAliasSnoc(ds[1..], d, key);
    } else {
      assert ds + [d] == [d];
    }
  }

  /** The function's answer, told apart into the value a method returns and the counter it leaves. */
  ghost predicate Agrees<T>(spec: Result<(T, nat)>, r: Result<T>, count: nat) {
    match spec
    case Ok((value, n)) => r == Ok(value) && count == n
    case Err(error) => r == Err(error)
  }

  method CheckObject(rules: Rules, d: Descriptor, values: Entries, counters: Counters, depth: nat)
    returns (r: Result<Entries>)
    requires counters.maxElements == rules.maxElements
    modifies counters
    ensures Agrees(ValidateObject(rules, d, values, depth, old(counters.arrayElements)), r, counters.arrayElements)
    decreases d, 2
  {
    if depth > rules.maxDepth {
      return Err(REQUEST_TOO_LARGE);
    }
    var filled := CheckEntries(rules, d, values, counters, depth);
    if filled.Err? {
      return filled;
    }
    for i := 0 to |d.children|
      invariant forall c <- d.children[..i] :: !(c.minValues >= 1 && c.name !in Keys(filled.value))
    {
      if d.children[i].minValues >= 1 && d.children[i].name !in Keys(filled.value) {
        assert d.children[i] in d.children;
        return Err(MISSING_REQUIRED_ELEMENT);
      }
      assert d.children[..i + 1] == d.children[..i] + [d.children[i]];
    }
    assert d.children[..|d.children|] == d.children;
    return filled;
  }

  lemma EntriesFail(rules: Rules, d: Descriptor, entries: Entries, k: nat, depth: nat, count: nat)
    requires k <= |entries| && ValidateEntries(rules, d, entries[..k], depth, count).Err?
    ensures ValidateEntries(rules, d, entries, depth, count) == ValidateEntries(rules, d, entries[..k], depth, count)
    decreases |entries| - k
  {
    if k < |entries| {
      assert entries[..k + 1][..k] == entries[..k];
      EntriesFail(rules, d, entries, k + 1, depth, count);
    } else {
      assert entries[..k] == entries;
    }
  }

  lemma ItemsFail(rules: Rules, d: Descriptor, items: seq<Json>, k: nat, depth: nat, count: nat)
    requires !d.kind.CHOICE? && k <= |items| && ValidateItems(rules, d, items[..k], depth, count).Err?
    ensures ValidateItems(rules, d, items, depth, count) == ValidateItems(rules, d, items[..k], depth, count)
    decreases |items| - k
  {
    if k < |items| {
      assert items[..k + 1][..k] == items[..k];
      ItemsFail(rules, d, items, k + 1, depth, count);
    } else {
      assert items[..k] == items;
    }
  }

  method CheckEntries(rules: Rules, d: Descriptor, values: Entries, counters: Counters, depth: nat)
    returns (r: Result<Entries>)
    requires counters.maxElements == rules.maxElements
    modifies counters
    ensures Agrees(ValidateEntries(rules, d, values, depth, old(counters.arrayElements)), r, counters.arrayElements)
    decreases d, 1
  {
    var known := BuildKnown(d.children);
    var result: Entries := [];
    var seen: set<string> := {};
    ghost var count := counters.arrayElements;
    for i := 0 to |values|
      invariant seen == Keys(result)
      invariant ValidateEntries(rules, d, values[..i], depth, count) == Ok((result, counters.arrayElements))
    {
      var (key, raw) := values[i];
      assert values[..i + 1][..i] == values[..i];
      if key !in known {
        if rules.rejectUnknown {
          EntriesFail(rules, d, values, i + 1, depth, count);
          return Err(UNKNOWN_ELEMENT);
        }
      } else {
        var child := known[key];
        if child.name in seen {
          EntriesFail(rules, d, values, i + 1, depth, count);
          return Err(INVALID_ARGUMENT);
        }
        seen := seen + {child.name};
        var checked := CheckElement(rules, child, raw, counters, depth);
        if checked.Err? {
          EntriesFail(rules, d, values, i + 1, depth, count);
          return Err(checked.error);
        }
        result := result + [(child.name, checked.value)];
      }
    }
    assert values[..|values|] == values;
    return Ok(result);
  }

  method CheckElement(rules: Rules, d: Descriptor, raw: Json, counters: Counters, depth: nat) returns (r: Result<Json>)
    requires counters.maxElements == rules.maxElements
    modifies counters
    ensures Agrees(ValidateElement(rules, d, raw, depth, old(counters.arrayElements)), r, counters.arrayElements)
    decreases d, 4
  {
    if d.kind.CHOICE? {
      r := CheckChoice(rules, d, raw, counters, depth);
      return;
    }
    if d.Repeated() {
      if rules.strictTypes && !raw.List? {
        return Err(INVALID_ELEMENT_TYPE);
      }
      r := CheckList(rules, d, if raw.List? then raw.items else [raw], counters, depth);
      return;
    }
    if rules.strictTypes && raw.List? {
      return Err(INVALID_ELEMENT_TYPE);
    }
    if raw.List? && |raw.items| != 1 {
      return Err(INVALID_ELEMENT_TYPE);
    }
    r := CheckItem(rules, d, if raw.List? then raw.items[0] else raw, counters, depth);
  }

  method CheckList(rules: Rules, d: Descriptor, items: seq<Json>, counters: Counters, depth: nat)
    returns (r: Result<Json>)
    requires counters.maxElements == rules.maxElements && !d.kind.CHOICE? && d.Repeated()
    modifies counters
    ensures Agrees(ValidateElement(rules, d, List(items), depth, old(counters.arrayElements)), r,
                   counters.arrayElements)
    decreases d, 3, 1
  {
    ghost var count := counters.arrayElements;
    var within := counters.CountArrayItems(|items|);
    if !within {
      return Err(REQUEST_TOO_LARGE);
    }
    if d.maxValues.Some? && |items| > d.maxValues.value {
      return Err(REQUEST_TOO_LARGE);
    }
    if d.minValues >= 1 && |items| < d.minValues {
      return Err(MISSING_REQUIRED_ELEMENT);
    }
    ghost var counted := counters.arrayElements;
    assert CheckArray(rules, d, items, count) == Ok(counted);
    var validated: seq<Json> := [];
    for i := 0 to |items|
      invariant ValidateItems(rules, d, items[..i], depth, counted) == Ok((validated, counters.arrayElements))
    {
      assert items[..i + 1][..i] == items[..i];
      var checked := CheckItem(rules, d, items[i], counters, depth);
      if checked.Err? {
        ItemsFail(rules, d, items, i + 1, depth, counted);
        return Err(checked.error);
      }
      validated := validated + [checked.value];
    }
    assert items[..|items|] == items;
    return Ok(List(validated));
  }

  method CheckItem(rules: Rules, d: Descriptor, raw: Json, counters: Counters, depth: nat) returns (r: Result<Json>)
    requires counters.maxElements == rules.maxElements && !d.kind.CHOICE?
    modifies counters
    ensures Agrees(ValidateItem(rules, d, raw, depth, old(counters.arrayElements)), r, counters.arrayElements)
    decreases d, 3, 0
  {
    if d.kind.SEQUENCE? {
      if !raw.Dict? {
        return Err(INVALID_ELEMENT_TYPE);
      }
      var filled := CheckObject(rules, d, raw.entries, counters, depth + 1);
      if filled.Err? {
        return Err(filled.error);
      }
      return Ok(Dict(filled.value));
    }
    r := ValidateScalar(rules, d, raw);
  }

  method CheckChoice(rules: Rules, d: Descriptor, raw: Json, counters: Counters, depth: nat) returns (r: Result<Json>)
    requires counters.maxElements == rules.maxElements
    modifies counters
    ensures Agrees(ValidateChoice(rules, d, raw, depth, old(counters.arrayElements)), r, counters.arrayElements)
    decreases d, 3
  {
    if !raw.Dict? || |raw.entries| != 1 {
      return Err(INVALID_CHOICE);
    }
    var (name, value) := raw.entries[0];
    var branch := FirstNamed(d.choices, name);
    if branch.None? {
      return Err(INVALID_CHOICE);
    }
    if branch.value.kind.SEQUENCE? && value.Dict? {
      var filled := CheckObject(rules, branch.value, value.entries, counters, depth + 1);
      if filled.Err? {
        return Err(filled.error);
      }
      return Ok(Dict(filled.value));
    }
    var scalar := ValidateScalar(rules, branch.value, value);
    if scalar.Err? {
      return Err(scalar.error);
    }
    return Ok(Dict([(name, scalar.value)]));
  }

  method CheckParameters(rules: Rules, d: Descriptor, parameters: Json, override: Option<bool>)
    returns (r: Result<Json>)
    ensures r == ValidateParameters(rules, d, parameters, override)
  {
    if !parameters.Dict? {
      return Err(INVALID_ARGUMENT);
    }
    var reject := rules.rejectUnknown || override == Some(true);
    var counters := new Counters(rules.maxElements);
    var filled := CheckObject(rules.(rejectUnknown := reject), d, parameters.entries, counters, 0);
    if filled.Err? {
      return Err(filled.error);
    }
    return Ok(Dict(filled.value));
  }
}
