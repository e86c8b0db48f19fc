/**
 Schema generation as functions (blp/schema_converter.py): complex types are shared under their type name.
 The shared document has no dangling reference, and it means what the unshared one means.
 */
module SchemaEmission {
  import opened Wrappers
  import opened Descriptors
  import opened JsonSchema

  const MAX_SCHEMA_DEPTH: int := 64

  /** A composite type is shared when it has a type name. */
  predicate Shared(d: Descriptor) {
    d.Composite() && d.typeName.Some? && d.typeName.value != ""
  }

  /** What the schema of a composite is made of. */
  function Parts(d: Descriptor): seq<Descriptor> {
    if d.kind.CHOICE? then d.choices else d.children
  }

  function Text(format: Option<string>): Schema {
    Plain(StringType, format, None, None)
  }

  function Leaf(d: Descriptor): Schema {
    match d.kind
    case ENUMERATION => if d.enumValues == [] then Text(None) else Enumeration(multiset(d.enumValues))
    case CHAR => Plain(StringType, None, None, Some(1))
    case BOOL => Plain(BooleanType, None, None, None)
    case INT32 => Plain(IntegerType, None, None, None)
    case INT64 => Plain(IntegerType, None, None, None)
    case BYTE => Plain(IntegerType, None, None, None)
    case FLOAT32 => Plain(NumberType, None, None, None)
    case FLOAT64 => Plain(NumberType, None, None, None)
    case DATE => Text(Some("date"))
    case TIME => Text(Some("time"))
    case DATETIME => Text(Some("date-time"))
    case BYTEARRAY => Plain(StringType, None, Some("base64"), None)
    case _ => Text(None)
  }

  function WrapArray(d: Descriptor, item: Schema): Schema {
    if !d.Repeated() then item
    else Array(item, if d.minValues > 0 then Some(d.minValues) else None, d.maxValues)
  }

  function PropertiesOf(ds: seq<Descriptor>, schemas: seq<Schema>): Properties
    requires |ds| == |schemas|
  {
    if ds == [] then []
    else
      var k := |ds| - 1;
      Put(PropertiesOf(ds[..k], schemas[..k]), ds[k].name, WrapArray(ds[k], schemas[k]))
  }

  function RequiredOf(ds: seq<Descriptor>): seq<string> {
    if ds == [] then []
    else
      var k := |ds| - 1;
      RequiredOf(ds[..k]) + if ds[k].minValues >= 1 then [ds[k].name] else []
  }

  function BranchesOf(ds: seq<Descriptor>, schemas: seq<Schema>): Properties
    requires |ds| == |schemas|
  {
    seq(|ds|, i requires 0 <= i < |ds| => (ds[i].name, schemas[i]))
  }

  /** The schema of a composite from the schemas of its parts. */
  function Body(d: Descriptor, schemas: seq<Schema>): Schema
    requires |schemas| == |Parts(d)|
  {
    if d.kind.CHOICE? then AnyOf(BranchesOf(Parts(d), schemas))
    else Object(PropertiesOf(Parts(d), schemas), RequiredOf(Parts(d)))
  }

  /** Emission of one descriptor: its schema, and the definitions afterwards. */
  function Emit(d: Descriptor, depth: nat, maxDepth: int, defs: Definitions,
                inProgress: set<string>): (Schema, Definitions)
    decreases d, 2
  {
    if depth > maxDepth then (TooDeep, defs)
    else if !d.Composite() then (Leaf(d), defs)
    else if !Shared(d) then EmitComposite(d, depth, maxDepth, defs, inProgress)
    else
      var name := d.typeName.value;
      if name in defs then (Ref(name), defs)
      else if name in inProgress then (Ref(name), defs[name := AnyObject])
      else
        var (schema, defs') := EmitComposite(d, depth, maxDepth, defs, inProgress + {name});
        (Ref(name), defs'[name := schema])
  }

  function EmitComposite(d: Descriptor, depth: nat, maxDepth: int, defs: Definitions,
                         inProgress: set<string>): (Schema, Definitions)
    decreases d, 1
  {
    var (schemas, defs') := EmitParts(d, |Parts(d)|, depth, maxDepth, defs, inProgress);
    (Body(d, schemas), defs')
  }

  /** The first k parts in order, each with the definitions the ones before it left. */
  function EmitParts(d: Descriptor, k: nat, depth: nat, maxDepth: int, defs: Definitions, inProgress: set<string>)
    : (r: (seq<Schema>, Definitions))
    requires k <= |Parts(d)|
    ensures |r.0| == k
    decreases d, 0, k
  {
    if k == 0 then ([], defs)
    else
      var (schemas, defs') := EmitParts(d, k - 1, depth, maxDepth, defs, inProgress);
      var (schema, defs'') := Emit(Parts(d)[k - 1], depth + 1, maxDepth, defs', inProgress);
      (schemas + [schema], defs'')
  }

  function EmitDocument(d: Descriptor, includeDefs: bool, maxDepth: int): Document {
    var (root, defs) := Emit(d, 0, maxDepth, map[], {});
    Document(root, if includeDefs then defs else map[])
  }

  // -------------------------------------------------- references resolve

  lemma {:induction false} RefsOfPut(props: Properties, name: string, s: Schema, bound: set<string>)
    requires RefsIn(s) <= bound && forall p <- props :: RefsIn(p.1) <= bound
    ensures forall p <- Put(props, name, s) :: RefsIn(p.1) <= bound
  {
    if props != [] {
      RefsOfPut(props[1..], name, s, bound);
    }
  }

  lemma {:induction false} RefsOfProperties(ds: seq<Descriptor>, schemas: seq<Schema>, bound: set<string>)
    requires |ds| == |schemas| && forall s <- schemas :: RefsIn(s) <= bound
    ensures forall p <- PropertiesOf(ds, schemas) :: RefsIn(p.1) <= bound
    decreases |ds|
  {
    if ds != [] {
      var k := |ds| - 1;
      RefsOfProperties(ds[..k], schemas[..k], bound);
      assert schemas[k] in schemas;
      RefsOfPut(PropertiesOf(ds[..k], schemas[..k]), ds[k].name, WrapArray(ds[k], schemas[k]), bound);
    }
  }

  lemma RefsOfBody(d: Descriptor, schemas: seq<Schema>, bound: set<string>)
    requires |schemas| == |Parts(d)| && forall s <- schemas :: RefsIn(s) <= bound
    ensures RefsIn(Body(d, schemas)) <= bound
  {
    if d.kind.CHOICE? {
      forall b <- BranchesOf(Parts(d), schemas) ensures RefsIn(b.1) <= bound {
        assert b.1 in schemas;
      }
    } else {
      RefsOfProperties(Parts(d), schemas, bound);
    }
  }

  lemma {:induction false} EmitResolves(d: Descriptor, depth: nat, maxDepth: int, defs: Definitions,
                                        inProgress: set<string>)
    requires AllResolve(defs)
    ensures var (schema, defs') := Emit(d, depth, maxDepth, defs, inProgress);
            defs.Keys <= defs'.Keys && Resolves(defs', schema) && AllResolve(defs')
    decreases d, 2
  {
    if depth <= maxDepth && d.Composite() {
      if !Shared(d) {
        CompositeResolves(d, depth, maxDepth, defs, inProgress);
      } else if d.typeName.value !in defs && d.typeName.value !in inProgress {
        CompositeResolves(d, depth, maxDepth, defs, inProgress + {d.typeName.value});
      }
    }
  }

  lemma {:induction false} CompositeResolves(d: Descriptor, depth: nat, maxDepth: int, defs: Definitions,
                                             inProgress: set<string>)
    requires AllResolve(defs)
    ensures var (schema, defs') := EmitComposite(d, depth, maxDepth, defs, inProgress);
            defs.Keys <= defs'.Keys && Resolves(defs', schema) && AllResolve(defs')
    decreases d, 1
  {
    PartsResolve(d, |Parts(d)|, depth, maxDepth, defs, inProgress);
    var (schemas, defs') := EmitParts(d, |Parts(d)|, depth, maxDepth, defs, inProgress);
    RefsOfBody(d, schemas, defs'.Keys);
  }

  lemma {:induction false} PartsResolve(d: Descriptor, k: nat, depth: nat, maxDepth: int, defs: Definitions,
                                        inProgress: set<string>)
    requires AllResolve(defs) && k <= |Parts(d)|
    ensures var (schemas, defs') := EmitParts(d, k, depth, maxDepth, defs, inProgress);
            defs.Keys <= defs'.Keys && AllResolve(defs') && forall s <- schemas :: Resolves(defs', s)
    decreases d, 0, k
  {
    if k > 0 {
      PartsResolve(d, k - 1, depth, maxDepth, defs, inProgress);
      EmitResolves(Parts(d)[k - 1], depth + 1, maxDepth, EmitParts(d, k - 1, depth, maxDepth, defs, inProgress).1,
                   inProgress);
    }
  }

  /** Every reference in the document, in the root or in any definition, has a definition. */
  lemma EveryRefResolves(d: Descriptor, maxDepth: int)
    ensures var document := EmitDocument(d, true, maxDepth);
            Resolves(document.defs, document.root) && AllResolve(document.defs)
  {
    EmitResolves(d, 0, maxDepth, map[], {});
  }

  // ------------------------------------------------- sharing keeps the meaning

  /** The schema without sharing. */
  function Inline(d: Descriptor): Schema
    decreases d, 1
  {
    if d.Composite() then Body(d, InlineParts(d, |Parts(d)|)) else Leaf(d)
  }

  function InlineParts(d: Descriptor, k: nat): (r: seq<Schema>)
    requires k <= |Parts(d)|
    ensures |r| == k
    decreases d, 0, k
  {
    if k == 0 then [] else InlineParts(d, k - 1) + [Inline(Parts(d)[k - 1])]
  }

  lemma {:induction false} InlinePartAt(d: Descriptor, k: nat, i: nat)
    requires i < k <= |Parts(d)|
    ensures InlineParts(d, k)[i] == Inline(Parts(d)[i])
  {
    if i < k - 1 {
      InlinePartAt(d, k - 1, i);
    }
  }

  function Max(a: nat, b: nat): nat {
    if a < b then b else a
  }

  /** The number of levels below a descriptor. */
  function Height(d: Descriptor): nat
    decreases d, 1
  {
    if d.Composite() then PartsHeight(d, |Parts(d)|) else 0
  }

  function PartsHeight(d: Descriptor, k: nat): nat
    requires k <= |Parts(d)|
    decreases d, 0, k
  {
    if k == 0 then 0 else Max(PartsHeight(d, k - 1), Height(Parts(d)[k - 1]) + 1)
  }

  lemma {:induction false} PartIsLower(d: Descriptor, k: nat, i: nat)
    requires i < k <= |Parts(d)|
    ensures Height(Parts(d)[i]) < PartsHeight(d, k)
  {
    if i < k - 1 {
      PartIsLower(d, k - 1, i);
    }
  }

  /** One type name, one structure: the names are those of `types`, all the way down. */
  ghost predicate Consistent(d: Descriptor, types: map<string, Descriptor>) {
    && (Shared(d) ==> d.typeName.value in types && SameStructure(d, types[d.typeName.value]))
    && (d.Composite() ==> forall c <- Parts(d) :: Consistent(c, types))
  }

  predicate SameStructure(d: Descriptor, e: Descriptor) {
    d.kind == e.kind && Parts(d) == Parts(e)
  }

  lemma {:induction false} SameParts(d: Descriptor, e: Descriptor, k: nat)
    requires SameStructure(d, e) && k <= |Parts(d)|
    ensures InlineParts(d, k) == InlineParts(e, k) && PartsHeight(d, k) == PartsHeight(e, k)
  {
    if k > 0 {
      SameParts(d, e, k - 1);
    }
  }

  lemma SameSchema(d: Descriptor, e: Descriptor)
    requires SameStructure(d, e)
    ensures d.Composite() ==> Inline(d) == Inline(e) && Height(d) == Height(e)
  {
    SameParts(d, e, |Parts(d)|);
  }

  lemma {:induction false} InlineHasNoRefs(d: Descriptor)
    ensures RefsIn(Inline(d)) == {}
    decreases d
  {
    if d.Composite() {
      var schemas := InlineParts(d, |Parts(d)|);
      forall s <- schemas ensures RefsIn(s) <= {} {
        var i :| 0 <= i < |schemas| && schemas[i] == s;
        InlinePartAt(d, |Parts(d)|, i);
        InlineHasNoRefs(Parts(d)[i]);
      }
      RefsOfBody(d, schemas, {});
    }
  }

  function ExpandAll(defs: Definitions, schemas: seq<Schema>, fuel: nat): (r: seq<Schema>)
    ensures |r| == |schemas|
    ensures forall i | 0 <= i < |r| :: r[i] == Expand(defs, schemas[i], fuel)
  {
    seq(|schemas|, i requires 0 <= i < |schemas| => Expand(defs, schemas[i], fuel))
  }

  lemma ExpandWrapped(defs: Definitions, d: Descriptor, s: Schema, fuel: nat)
    ensures Expand(defs, WrapArray(d, s), fuel) == WrapArray(d, Expand(defs, s, fuel))
  {
  }

  lemma {:induction false} ExpandPropertiesOf(defs: Definitions, ds: seq<Descriptor>, schemas: seq<Schema>, fuel: nat)
    requires |ds| == |schemas|
    ensures ExpandProperties(defs, PropertiesOf(ds, schemas), fuel) == PropertiesOf(ds, ExpandAll(defs, schemas, fuel))
    decreases |ds|
  {
    hide Expand, WrapArray, Put;
    if ds != [] {
      var k := |ds| - 1;
      ExpandWrapped(defs, ds[k], schemas[k], fuel);
      ExpandPropertiesOf(defs, ds[..k], schemas[..k], fuel);
      ExpandPut(defs, PropertiesOf(ds[..k], schemas[..k]), ds[k].name, WrapArray(ds[k], schemas[k]), fuel);
      assert ExpandAll(defs, schemas, fuel)[..k] == ExpandAll(defs, schemas[..k], fuel);
    }
  }

  lemma ExpandBody(defs: Definitions, d: Descriptor, schemas: seq<Schema>, fuel: nat)
    requires |schemas| == |Parts(d)|
    ensures Expand(defs, Body(d, schemas), fuel) == Body(d, ExpandAll(defs, schemas, fuel))
  {
    ExpandInside(defs, Body(d, schemas), fuel);
    if d.kind.CHOICE? {
      assert ExpandProperties(defs, BranchesOf(Parts(d), schemas), fuel) ==
             BranchesOf(Parts(d), ExpandAll(defs, schemas, fuel));
    } else {
      ExpandPropertiesOf(defs, Parts(d), schemas, fuel);
    }
  }

  /** Every definition expands to the unshared schema of its type. */
  ghost predicate Sound(defs: Definitions, types: map<string, Descriptor>) {
    forall n <- defs :: n in types && Expand(defs, defs[n], Height(types[n])) == Inline(types[n])
  }

  /** Definitions are only added, and only for types that are lower than the bound. */
  ghost predicate Grows(defs: Definitions, defs': Definitions, types: map<string, Descriptor>, bound: nat) {
    && defs.Keys <= defs'.Keys && (forall n <- defs :: defs'[n] == defs[n])
    && (forall n <- defs' | n !in defs :: n in types && Height(types[n]) < bound)
  }

  /** What is in progress is higher than what is being emitted. */
  ghost predicate Above(inProgress: set<string>, types: map<string, Descriptor>, height: int) {
    forall n <- inProgress :: n in types && Height(types[n]) > height
  }

  lemma ExpandGrown(defs: Definitions, defs': Definitions, s: Schema, d: Descriptor, fuel: nat, fuel': nat)
    requires defs.Keys <= defs'.Keys && (forall n <- defs :: defs'[n] == defs[n])
    requires fuel <= fuel' && Expand(defs, s, fuel) == Inline(d)
    ensures Expand(defs', s, fuel') == Inline(d)
  {
    InlineHasNoRefs(d);
    ExpandStable(defs, defs', s, fuel, fuel');
  }

  lemma SoundGrown(defs: Definitions, types: map<string, Descriptor>, name: string, s: Schema)
    requires Sound(defs, types) && name !in defs && name in types
    requires Expand(defs, s, Height(types[name])) == Inline(types[name])
    ensures Sound(defs[name := s], types)
  {
    var defs' := defs[name := s];
    forall n <- defs' ensures n in types && Expand(defs', defs'[n], Height(types[n])) == Inline(types[n]) {
      ExpandGrown(defs, defs', defs'[n], types[n], Height(types[n]), Height(types[n]));
    }
  }

  lemma {:induction false} EmitMeans(d: Descriptor, depth: nat, maxDepth: int, defs: Definitions,
                                     inProgress: set<string>, types: map<string, Descriptor>)
    requires Consistent(d, types) && depth + Height(d) <= maxDepth
    requires Sound(defs, types) && Above(inProgress, types, Height(d))
    ensures var (schema, defs') := Emit(d, depth, maxDepth, defs, inProgress);
            && Grows(defs, defs', types, Height(d) + 1) && Sound(defs', types)
            && Expand(defs', schema, Height(d) + 1) == Inline(d)
    decreases d, 2
  {
    if Shared(d) {
      SharedMeans(d, depth, maxDepth, defs, inProgress, types);
    } else if d.Composite() {
      CompositeMeans(d, depth, maxDepth, defs, inProgress, types);
      var (schema, defs') := EmitComposite(d, depth, maxDepth, defs, inProgress);
      ExpandGrown(defs', defs', schema, d, Height(d), Height(d) + 1);
    }
  }

  lemma {:induction false} SharedMeans(d: Descriptor, depth: nat, maxDepth: int, defs: Definitions,
                                       inProgress: set<string>, types: map<string, Descriptor>)
    requires Shared(d) && Consistent(d, types) && depth + Height(d) <= maxDepth
    requires Sound(defs, types) && Above(inProgress, types, Height(d))
    ensures var (schema, defs') := Emit(d, depth, maxDepth, defs, inProgress);
            && Grows(defs, defs', types, Height(d) + 1) && Sound(defs', types)
            && Expand(defs', schema, Height(d) + 1) == Inline(d)
    decreases d, 1, 1
  {
    hide Inline, Height, EmitComposite;
    var name := d.typeName.value;
    SameSchema(d, types[name]);
    if name !in defs {
      CompositeMeans(d, depth, maxDepth, defs, inProgress + {name}, types);
      var (schema, defs') := EmitComposite(d, depth, maxDepth, defs, inProgress + {name});
      SoundGrown(defs', types, name, schema);
      ExpandGrown(defs', defs'[name := schema], schema, d, Height(d), Height(d));
    }
  }

  lemma {:induction false} CompositeMeans(d: Descriptor, depth: nat, maxDepth: int, defs: Definitions,
                                          inProgress: set<string>, types: map<string, Descriptor>)
    requires d.Composite() && Consistent(d, types) && depth + Height(d) <= maxDepth
    requires Sound(defs, types) && Above(inProgress, types, Height(d) - 1)
    ensures var (schema, defs') := EmitComposite(d, depth, maxDepth, defs, inProgress);
            && Grows(defs, defs', types, Height(d)) && Sound(defs', types)
            && Expand(defs', schema, Height(d)) == Inline(d)
    decreases d, 1, 0
  {
    PartsMean(d, |Parts(d)|, depth, maxDepth, defs, inProgress, types);
    var (schemas, defs') := EmitParts(d, |Parts(d)|, depth, maxDepth, defs, inProgress);
    ExpandBody(defs', d, schemas, Height(d));
    assert ExpandAll(defs', schemas, Height(d)) == InlineParts(d, |Parts(d)|);
  }

  lemma {:induction false} PartsMean(d: Descriptor, k: nat, depth: nat, maxDepth: int, defs: Definitions,
                                     inProgress: set<string>, types: map<string, Descriptor>)
    requires d.Composite() && Consistent(d, types) && depth + Height(d) <= maxDepth && k <= |Parts(d)|
    requires Sound(defs, types) && Above(inProgress, types, Height(d) - 1)
    ensures var (schemas, defs') := EmitParts(d, k, depth, maxDepth, defs, inProgress);
            && Grows(defs, defs', types, Height(d)) && Sound(defs', types)
            && ExpandAll(defs', schemas, Height(d)) == InlineParts(d, k)
    decreases d, 0, k
  {
    hide Expand, Emit, Inline;
    if k > 0 {
      var part := Parts(d)[k - 1];
      PartsMean(d, k - 1, depth, maxDepth, defs, inProgress, types);
      PartIsLower(d, |Parts(d)|, k - 1);
      var (schemas, defs') := EmitParts(d, k - 1, depth, maxDepth, defs, inProgress);
      EmitMeans(part, depth + 1, maxDepth, defs', inProgress, types);
      var (schema, defs'') := Emit(part, depth + 1, maxDepth, defs', inProgress);
      PartsExtend(d, k, types, defs', defs'', schemas, schema);
    }
  }

  lemma PartsExtend(d: Descriptor, k: nat, types: map<string, Descriptor>, defs: Definitions, defs': Definitions,
                    schemas: seq<Schema>, schema: Schema)
    requires 0 < k <= |Parts(d)| && Grows(defs, defs', types, Height(d))
    requires ExpandAll(defs, schemas, Height(d)) == InlineParts(d, k - 1)
    requires Height(Parts(d)[k - 1]) < Height(d)
    requires Expand(defs', schema, Height(Parts(d)[k - 1]) + 1) == Inline(Parts(d)[k - 1])
    ensures ExpandAll(defs', schemas + [schema], Height(d)) == InlineParts(d, k)
  {
    hide Height, Expand;
    ExpandGrown(defs', defs', schema, Parts(d)[k - 1], Height(Parts(d)[k - 1]) + 1, Height(d));
    forall i | 0 <= i < k - 1 ensures Expand(defs', schemas[i], Height(d)) == Inline(Parts(d)[i]) {
      InlinePartAt(d, k - 1, i);
      ExpandGrown(defs, defs', schemas[i], Parts(d)[i], Height(d), Height(d));
    }
    forall i | 0 <= i < k ensures InlineParts(d, k)[i] == Inline(Parts(d)[i]) {
      InlinePartAt(d, k, i);
    }
  }

  // ------------------------------------------- emission without type names

  /** The same tree with no type names, so that nothing is shared. */
  function Unnamed(d: Descriptor): Descriptor {
    d.(typeName := None,
       children := seq(|d.children|, i requires 0 <= i < |d.children| => Unnamed(d.children[i])),
       choices := seq(|d.choices|, i requires 0 <= i < |d.choices| => Unnamed(d.choices[i])))
  }

  lemma UnnamedParts(d: Descriptor)
    ensures Unnamed(d).Composite() == d.Composite() && !Shared(Unnamed(d)) && Leaf(Unnamed(d)) == Leaf(d)
    ensures |Parts(Unnamed(d))| == |Parts(d)|
    ensures forall i | 0 <= i < |Parts(d)| :: Parts(Unnamed(d))[i] == Unnamed(Parts(d)[i])
  {
  }

  /** All that the schema of a composite takes from its parts beside their schemas. */
  ghost predicate Alike(ds: seq<Descriptor>, es: seq<Descriptor>) {
    && |ds| == |es|
    && forall i | 0 <= i < |ds| ::
         ds[i].name == es[i].name && ds[i].minValues == es[i].minValues && ds[i].maxValues == es[i].maxValues
  }

  lemma {:induction false} AlikeProperties(ds: seq<Descriptor>, es: seq<Descriptor>, schemas: seq<Schema>)
    requires Alike(ds, es) && |schemas| == |ds|
    ensures PropertiesOf(ds, schemas) == PropertiesOf(es, schemas) && RequiredOf(ds) == RequiredOf(es)
    decreases |ds|
  {
    if ds != [] {
      var k := |ds| - 1;
      AlikeProperties(ds[..k], es[..k], schemas[..k]);
    }
  }

  lemma UnnamedBody(d: Descriptor, schemas: seq<Schema>)
    requires |schemas| == |Parts(d)|
    ensures |schemas| == |Parts(Unnamed(d))| && Body(Unnamed(d), schemas) == Body(d, schemas)
  {
    UnnamedParts(d);
    assert Alike(Parts(Unnamed(d)), Parts(d));
    AlikeProperties(Parts(Unnamed(d)), Parts(d), schemas);
  }

  lemma {:induction false} UnnamedEmits(d: Descriptor, depth: nat, maxDepth: int, defs: Definitions,
                                        inProgress: set<string>)
    requires depth + Height(d) <= maxDepth
    ensures Emit(Unnamed(d), depth, maxDepth, defs, inProgress) == (Inline(d), defs)
    decreases d, 1
  {
    UnnamedParts(d);
    if d.Composite() {
      UnnamedPartsEmit(d, |Parts(d)|, depth, maxDepth, defs, inProgress);
      UnnamedBody(d, InlineParts(d, |Parts(d)|));
    }
  }

  lemma {:induction false} UnnamedPartsEmit(d: Descriptor, k: nat, depth: nat, maxDepth: int, defs: Definitions,
                                            inProgress: set<string>)
    requires d.Composite() && depth + Height(d) <= maxDepth && k <= |Parts(d)| == |Parts(Unnamed(d))|
    ensures EmitParts(Unnamed(d), k, depth, maxDepth, defs, inProgress) == (InlineParts(d, k), defs)
    decreases d, 0, k
  {
    if k > 0 {
      UnnamedPartsEmit(d, k - 1, depth, maxDepth, defs, inProgress);
      UnnamedParts(d);
      PartIsLower(d, |Parts(d)|, k - 1);
      UnnamedEmits(Parts(d)[k - 1], depth + 1, maxDepth, defs, inProgress);
    }
  }

  /**
   When a type name always stands for one structure and the tree fits the depth limit, replacing every
   reference in the shared document gives exactly the document emitted without type names.
   */
  lemma SharingKeepsTheMeaning(d: Descriptor, maxDepth: int, types: map<string, Descriptor>, fuel: nat)
    requires Consistent(d, types) && Height(d) <= maxDepth && fuel > Height(d)
    ensures var shared := EmitDocument(d, true, maxDepth);
            Document(Expand(shared.defs, shared.root, fuel), map[]) == EmitDocument(Unnamed(d), true, maxDepth)
  {
    EmitMeans(d, 0, maxDepth, map[], {}, types);
    var (root, defs) := Emit(d, 0, maxDepth, map[], {});
    ExpandGrown(defs, defs, root, d, Height(d) + 1, fuel);
    UnnamedEmits(d, 0, maxDepth, map[], {});
  }
}
