/** The JSON Schema documents the gateway emits, and what they mean (JSON Schema Core, draft 2020-12). */
module JsonSchema {
  import opened Wrappers
  import opened Descriptors

  datatype JsonType = StringType | BooleanType | IntegerType | NumberType

  type Properties = seq<(string, Schema)>

  type Definitions = map<string, Schema>

  /** Enumerated values are listed in sorted order, so as a multiset; no branches stands for any object. */
  datatype Schema =
    | TooDeep
    | Plain(jsonType: JsonType, format: Option<string>, contentEncoding: Option<string>, maxLength: Option<nat>)
    | Enumeration(values: multiset<string>)
    | AnyObject
    | Ref(name: string)
    | AnyOf(branches: Properties)
    | Object(properties: Properties, required: seq<string>)
    | Array(items: Schema, minItems: Option<int>, maxItems: Option<int>)

  datatype Document = Document(root: Schema, defs: Definitions)

  /** Assignment to a key of a dict. */
  function Put(props: Properties, name: string, s: Schema): Properties {
    if props == [] then [(name, s)]
    else if props[0].0 == name then [(name, s)] + props[1..]
    else [props[0]] + Put(props[1..], name, s)
  }

  function Property(props: Properties, name: string): (r: Option<Schema>)
    ensures r.Some? ==> (name, r.value) in props
  {
    if props == [] then None
    else if props[0].0 == name then Some(props[0].1)
    else Property(props[1..], name)
  }

  lemma {:induction false} PropertyOfPut(props: Properties, name: string, s: Schema, key: string)
    ensures Property(Put(props, name, s), key) == if key == name then Some(s) else Property(props, key)
  {
    if props != [] {
      PropertyOfPut(props[1..], name, s, key);
    }
  }

  // -------------------------------------------------------------- references

  function RefsIn(s: Schema): set<string> {
    match s
    case Ref(name) => {name}
    case AnyOf(branches) => set b <- branches, n <- RefsIn(b.1) :: n
    case Object(properties, _) => set p <- properties, n <- RefsIn(p.1) :: n
    case Array(items, _, _) => RefsIn(items)
    case _ => {}
  }

  /** Every reference has a definition. */
  ghost predicate Resolves(defs: Definitions, s: Schema) {
    RefsIn(s) <= defs.Keys
  }

  ghost predicate AllResolve(defs: Definitions) {
    forall n <- defs :: Resolves(defs, defs[n])
  }

  /** References are replaced by what they refer to, at most fuel deep. */
  function Expand(defs: Definitions, s: Schema, fuel: nat): Schema
    decreases fuel, s
  {
    match s
    case Ref(name) => if fuel > 0 && name in defs then Expand(defs, defs[name], fuel - 1) else s
    case AnyOf(branches) =>
      AnyOf(seq(|branches|, i requires 0 <= i < |branches| => (branches[i].0, Expand(defs, branches[i].1, fuel))))
    case Object(properties, required) =>
      Object(seq(|properties|, i requires 0 <= i < |properties| =>
        (properties[i].0, Expand(defs, properties[i].1, fuel))), required)
    case Array(items, minItems, maxItems) => Array(Expand(defs, items, fuel), minItems, maxItems)
    case _ => s
  }

  function ExpandProperties(defs: Definitions, props: Properties, fuel: nat): (r: Properties)
    ensures |r| == |props|
    ensures forall i | 0 <= i < |r| :: r[i] == (props[i].0, Expand(defs, props[i].1, fuel))
  {
    seq(|props|, i requires 0 <= i < |props| => (props[i].0, Expand(defs, props[i].1, fuel)))
  }

  lemma ExpandInside(defs: Definitions, s: Schema, fuel: nat)
    ensures s.AnyOf? ==> Expand(defs, s, fuel) == AnyOf(ExpandProperties(defs, s.branches, fuel))
    ensures s.Object? ==> Expand(defs, s, fuel) == Object(ExpandProperties(defs, s.properties, fuel), s.required)
  {
  }

  lemma ExpandCons(defs: Definitions, p: (string, Schema), rest: Properties, fuel: nat)
    ensures ExpandProperties(defs, [p] + rest, fuel) ==
              [(p.0, Expand(defs, p.1, fuel))] + ExpandProperties(defs, rest, fuel)
  {
    hide Expand;
  }

  lemma {:induction false} ExpandPut(defs: Definitions, props: Properties, name: string, s: Schema, fuel: nat)
    ensures ExpandProperties(defs, Put(props, name, s), fuel) ==
              Put(ExpandProperties(defs, props, fuel), name, Expand(defs, s, fuel))
  {
    hide Expand, ExpandProperties;
    ExpandCons(defs, (name, s), [], fuel);
    if props == [] {
      assert [(name, s)] + [] == [(name, s)] && ExpandProperties(defs, [], fuel) == [];
    } else {
      var head, tail := props[0], props[1..];
      assert props == [head] + tail;
      ExpandCons(defs, head, tail, fuel);
      var expanded := ExpandProperties(defs, tail, fuel);
      assert ExpandProperties(defs, props, fuel)[1..] == expanded;
      if head.0 == name {
        ExpandCons(defs, (name, s), tail, fuel);
      } else {
        ExpandCons(defs, head, Put(tail, name, s), fuel);
        ExpandPut(defs, tail, name, s, fuel);
      }
    }
  }

  /** A finished expansion is not changed by more definitions or more fuel. */
  lemma {:induction false} ExpandStable(defs: Definitions, more: Definitions, s: Schema, fuel: nat, fuel': nat)
    requires defs.Keys <= more.Keys && forall n <- defs :: more[n] == defs[n]
    requires fuel <= fuel' && RefsIn(Expand(defs, s, fuel)) == {}
    ensures Expand(more, s, fuel') == Expand(defs, s, fuel)
    decreases fuel, s
  {
    match s
    case Ref(name) =>
      if fuel > 0 && name in defs {
        ExpandStable(defs, more, defs[name], fuel - 1, fuel' - 1);
      }
    case AnyOf(branches) =>
      PropertiesStable(defs, more, s, branches, fuel, fuel');
      ExpandInside(defs, s, fuel);
      ExpandInside(more, s, fuel');
    case Object(properties, _) =>
      PropertiesStable(defs, more, s, properties, fuel, fuel');
      ExpandInside(defs, s, fuel);
      ExpandInside(more, s, fuel');
    case Array(items, _, _) =>
      ExpandStable(defs, more, items, fuel, fuel');
    case _ =>
  }

  lemma {:induction false} PropertiesStable(defs: Definitions, more: Definitions, s: Schema, props: Properties,
                                            fuel: nat, fuel': nat)
    requires (s.AnyOf? && s.branches == props) || (s.Object? && s.properties == props)
    requires defs.Keys <= more.Keys && forall n <- defs :: more[n] == defs[n]
    requires fuel <= fuel' && RefsIn(Expand(defs, s, fuel)) == {}
    ensures ExpandProperties(more, props, fuel') == ExpandProperties(defs, props, fuel)
    decreases fuel, s, 0
  {
    ExpandInside(defs, s, fuel);
    var expanded := ExpandProperties(defs, props, fuel);
    forall i | 0 <= i < |props| ensures Expand(more, props[i].1, fuel') == Expand(defs, props[i].1, fuel) {
      assert expanded[i] in expanded && expanded[i].1 == Expand(defs, props[i].1, fuel);
      assert RefsIn(expanded[i].1) <= RefsIn(Expand(defs, s, fuel));
      ExpandStable(defs, more, props[i].1, fuel, fuel');
    }
  }

  // ------------------------------------------------------------- conformance

  /** The value is an instance of a schema without references. */
  ghost predicate Conforms(s: Schema, value: Json)
    decreases s
  {
    match s
    case TooDeep => value.Text?
    case Plain(jsonType, _, _, maxLength) =>
      (match jsonType
       case StringType => value.Text? && (maxLength.Some? ==> |value.s| <= maxLength.value)
       case BooleanType => value.Bool?
       case IntegerType => value.Int?
       case NumberType => value.Int? || value.Float?)
    case Enumeration(values) => value.Text? && value.s in values
    case AnyObject => value.Dict?
    case Ref(_) => false
    case AnyOf(branches) =>
      && value.Dict? && |value.entries| <= 1
      && (branches == [] ||
          exists b <- branches ::
            b.0 in Keys(value.entries) && forall e <- value.entries :: e.0 == b.0 ==> Conforms(b.1, e.1))
    case Object(properties, required) =>
      && value.Dict?
      && (forall e <- value.entries ::
            Property(properties, e.0).Some? && Conforms(Property(properties, e.0).value, e.1))
      && (forall name <- required :: name in Keys(value.entries))
    case Array(items, minItems, maxItems) =>
      && value.List?
      && (minItems.Some? ==> |value.items| >= minItems.value)
      && (maxItems.Some? ==> |value.items| <= maxItems.value)
      && forall v <- value.items :: Conforms(items, v)
  }
}
