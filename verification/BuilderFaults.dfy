/** Why population raises: the error names a fault of the parameters, and where there is none it does not raise. */
module BuilderFaults {
  import opened Wrappers
  import opened Descriptors
  import opened RequestBuilder

  ghost predicate MembersAtFault(code: ErrorCode, d: Descriptor, values: Entries)
    decreases d, 1
  {
    exists e <- values :: EntryAtFault(code, d, e)
  }

  /** A name that is no child, or a fault in the value of one. */
  ghost predicate EntryAtFault(code: ErrorCode, d: Descriptor, e: (string, Json))
    decreases d, 0
  {
    if ByName(d.children, e.0).None? then code == UNKNOWN_ELEMENT
    else ElementAtFault(code, ByName(d.children, e.0).value, e.1)
  }

  /** An item of a composite that is no object, a choice that is not one known branch, or a fault further in. */
  ghost predicate ElementAtFault(code: ErrorCode, d: Descriptor, value: Json)
    decreases d, 3
  {
    if value.Null? then false
    else if d.kind.SEQUENCE? then
      if value.List? then exists item <- value.items :: ItemAtFault(code, d, item) else ItemAtFault(code, d, value)
    else if d.kind.CHOICE? then
      if !value.Dict? || |value.entries| != 1 || FirstNamed(d.choices, value.entries[0].0).None? then
        code == INVALID_CHOICE
      else ElementAtFault(code, FirstNamed(d.choices, value.entries[0].0).value, value.entries[0].1)
    else false
  }

  ghost predicate ItemAtFault(code: ErrorCode, d: Descriptor, item: Json)
    decreases d, 2
  {
    if item.Dict? then MembersAtFault(code, d, item.entries) else code == INVALID_ELEMENT_TYPE
  }

  lemma {:induction false} MembersExactly(d: Descriptor, values: Entries)
    ensures MembersError(d, values).Some? ==> MembersAtFault(MembersError(d, values).value, d, values)
    ensures MembersError(d, values).None? ==> forall code :: !MembersAtFault(code, d, values)
    decreases d, 1, |values|
  {
    hide EntryAtFault, ElementError;
    if values != [] {
      var init, last := values[..|values| - 1], values[|values| - 1];
      MembersExactly(d, init);
      assert values == init + [last] && last in values;
      assert forall e <- init :: e in values;
      assert forall e <- values :: e in init || e == last;
      EntryExactly(d, last);
      forall code | MembersAtFault(code, d, values) ensures MembersError(d, values).Some? {
        var e :| e in values && EntryAtFault(code, d, e);
        assert e in init ==> MembersAtFault(code, d, init);
      }
    }
  }

  lemma {:induction false} EntryExactly(d: Descriptor, e: (string, Json))
    ensures forall code :: EntryAtFault(code, d, e) ==>
              ByName(d.children, e.0).None? || ElementError(ByName(d.children, e.0).value, e.1).Some?
    ensures ByName(d.children, e.0).None? ==> EntryAtFault(UNKNOWN_ELEMENT, d, e)
    ensures ByName(d.children, e.0).Some? && ElementError(ByName(d.children, e.0).value, e.1).Some? ==>
              EntryAtFault(ElementError(ByName(d.children, e.0).value, e.1).value, d, e)
    decreases d, 0
  {
    hide ElementAtFault, ElementError;
    if ByName(d.children, e.0).Some? {
      ElementExactly(ByName(d.children, e.0).value, e.1);
    }
  }

  lemma {:induction false} ElementExactly(d: Descriptor, value: Json)
    ensures ElementError(d, value).Some? ==> ElementAtFault(ElementError(d, value).value, d, value)
    ensures ElementError(d, value).None? ==> forall code :: !ElementAtFault(code, d, value)
    decreases d, 3
  {
    if value.Null? {
    } else if d.kind.SEQUENCE? {
      if value.List? {
        ItemsExactly(d, value.items);
      } else {
        ItemsExactly(d, [value]);
        assert value in [value];
      }
    } else if d.kind.CHOICE? && value.Dict? && |value.entries| == 1 {
      var branch := FirstNamed(d.choices, value.entries[0].0);
      if branch.Some? {
        ElementExactly(branch.value, value.entries[0].1);
      }
    }
  }

  lemma {:induction false} ItemsExactly(d: Descriptor, items: seq<Json>)
    ensures ItemsError(d, items).Some? ==> exists item <- items :: ItemAtFault(ItemsError(d, items).value, d, item)
    ensures ItemsError(d, items).None? ==> forall item <- items, code :: !ItemAtFault(code, d, item)
    decreases d, 2, |items|
  {
    hide MembersAtFault, MembersError;
    if items != [] {
      var init, last := items[..|items| - 1], items[|items| - 1];
      ItemsExactly(d, init);
      assert items == init + [last] && last in items;
      assert forall item <- init :: item in items;
      assert forall item <- items :: item in init || item == last;
      if last.Dict? {
        MembersExactly(d, last.entries);
      }
    }
  }
}
