/** Schema generation as it is written: one dict of definitions and one set of open type names, updated in place. */
module SchemaEmitter {
  import opened Wrappers
  import opened Descriptors
  import opened JsonSchema
  import opened SchemaEmission

  class Emitter {
    const maxDepth: int
    var defs: Definitions
    var inProgress: set<string>

    constructor (maxDepth: int)
      ensures this.maxDepth == maxDepth && defs == map[] && inProgress == {}
    {
      this.maxDepth, defs, inProgress := maxDepth, map[], {};
    }

    method EmitOne(d: Descriptor, depth: nat) returns (schema: Schema)
      modifies this
      ensures (schema, defs) == Emit(d, depth, maxDepth, old(defs), old(inProgress))
      ensures inProgress == old(inProgress)
      decreases d, 1
    {
      if depth > maxDepth {
        return TooDeep;
      }
      if d.Composite() {
        if Shared(d) && d.typeName.value in defs {
          return Ref(d.typeName.value);
        }
        if Shared(d) && d.typeName.value in inProgress {
          defs := defs[d.typeName.value := AnyObject];
          return Ref(d.typeName.value);
        }
        if Shared(d) {
          inProgress := inProgress + {d.typeName.value};
        }
        schema := CompositeSchema(d, depth);
        if Shared(d) {
          inProgress := inProgress - {d.typeName.value};
          defs := defs[d.typeName.value := schema];
          return Ref(d.typeName.value);
        }
        return;
      }
      return Leaf(d);
    }

    method CompositeSchema(d: Descriptor, depth: nat) returns (schema: Schema)
      requires d.Composite()
      modifies this
      ensures (schema, defs) == EmitComposite(d, depth, maxDepth, old(defs), old(inProgress))
      ensures inProgress == old(inProgress)
      decreases d, 0, 1
    {
      hide EmitParts, PropertiesOf, RequiredOf;
      if d.kind.CHOICE? {
        var branches;
        ghost var schemas;
        branches, schemas := Branches(d, depth);
        return AnyOf(branches);
      }
      var properties, required;
      ghost var schemas;
      properties, required, schemas := Children(d, depth);
      return Object(properties, required);
    }

    method Branches(d: Descriptor, depth: nat) returns (branches: Properties, ghost schemas: seq<Schema>)
      requires d.kind.CHOICE?
      modifies this
      ensures (schemas, defs) == EmitParts(d, |d.choices|, depth, maxDepth, old(defs), old(inProgress))
      ensures branches == BranchesOf(d.choices, schemas) && inProgress == old(inProgress)
      decreases d, 0, 0
    {
      hide Emit;
      branches, schemas := [], [];
      for i := 0 to |d.choices|
        invariant inProgress == old(inProgress)
        invariant (schemas, defs) == EmitParts(d, i, depth, maxDepth, old(defs), old(inProgress))
        invariant branches == BranchesOf(d.choices[..i], schemas)
      {
        var branch := EmitOne(d.choices[i], depth + 1);
        branches := branches + [(d.choices[i].name, branch)];
        schemas := schemas + [branch];
      }
      assert d.choices[..|d.choices|] == d.choices;
    }

    method Children(d: Descriptor, depth: nat)
      returns (properties: Properties, required: seq<string>, ghost schemas: seq<Schema>)
      requires d.kind.SEQUENCE?
      modifies this
      ensures (schemas, defs) == EmitParts(d, |d.children|, depth, maxDepth, old(defs), old(inProgress))
      ensures properties == PropertiesOf(d.children, schemas) && required == RequiredOf(d.children)
      ensures inProgress == old(inProgress)
      decreases d, 0, 0
    {
      hide Emit, Put, WrapArray;
      properties, required, schemas := [], [], [];
      for i := 0 to |d.children|
        invariant inProgress == old(inProgress)
        invariant (schemas, defs) == EmitParts(d, i, depth, maxDepth, old(defs), old(inProgress))
        invariant properties == PropertiesOf(d.children[..i], schemas) && required == RequiredOf(d.children[..i])
      {
        var child := d.children[i];
        var item := EmitOne(child, depth + 1);
        PropertiesSnoc(d.children, schemas, item, i);
        properties := Put(properties, child.name, WrapArray(child, item));
        if child.minValues >= 1 {
          required := required + [child.name];
        }
        schemas := schemas + [item];
      }
      assert d.children[..|d.children|] == d.children;
    }
  }

  lemma PropertiesSnoc(ds: seq<Descriptor>, schemas: seq<Schema>, schema: Schema, i: nat)
    requires i < |ds| && |schemas| == i
    ensures PropertiesOf(ds[..i + 1], schemas + [schema]) ==
            Put(PropertiesOf(ds[..i], schemas), ds[i].name, WrapArray(ds[i], schema))
    ensures RequiredOf(ds[..i + 1]) == RequiredOf(ds[..i]) + if ds[i].minValues >= 1 then [ds[i].name] else []
  {
    assert ds[..i + 1][..i] == ds[..i] && (schemas + [schema])[..i] == schemas;
  }

  method DescriptorToJsonSchema(d: Descriptor, includeDefs: bool, maxDepth: int) returns (document: Document)
    ensures document == EmitDocument(d, includeDefs, maxDepth)
    ensures includeDefs ==> Resolves(document.defs, document.root) && AllResolve(document.defs)
  {
    var emitter := new Emitter(maxDepth);
    var root := emitter.EmitOne(d, 0);
    document := Document(root, if includeDefs then emitter.defs else map[]);
    EveryRefResolves(d, maxDepth);
  }
}
