/** Schema descriptors and JSON values (models.py). A dict is its entries in insertion order. */
module Descriptors {
  import opened Wrappers

  datatype Datatype =
    | BOOL | BYTE | BYTEARRAY | CHAR | CHOICE | CORRELATION_ID | DATE | DATETIME | DECIMAL
    | ENUMERATION | FLOAT32 | FLOAT64 | INT32 | INT64 | SEQUENCE | STRING | TIME | UNSUPPORTED

  datatype Descriptor = Descriptor(
    name: string,
    alternates: seq<string>,
    kind: Datatype,
    minValues: int,
    maxValues: Option<int>,
    children: seq<Descriptor>,
    enumValues: seq<string>,
    choices: seq<Descriptor>,
    typeName: Option<string>)
  {
    predicate Composite() {
      kind.SEQUENCE? || kind.CHOICE?
    }

    predicate Repeated() {
      maxValues != Some(1)
    }
  }

  /** Native is what the codec makes of a temporal or binary text. */
  datatype Json =
    | Null
    | Bool(b: bool)
    | Int(i: int)
    | Float(r: real)
    | Text(s: string)
    | List(items: seq<Json>)
    | Dict(entries: seq<(string, Json)>)
    | Native(kind: Datatype, text: string)

  type Entries = seq<(string, Json)>

  function Keys(entries: Entries): set<string> {
    set e <- entries :: e.0
  }

  ghost predicate DistinctKeys(entries: Entries) {
    forall i, j | 0 <= i < j < |entries| :: entries[i].0 != entries[j].0
  }

  function Names(ds: seq<Descriptor>): set<string> {
    set d <- ds :: d.name
  }

  ghost predicate DistinctNames(ds: seq<Descriptor>) {
    forall i, j | 0 <= i < j < |ds| :: ds[i].name != ds[j].name
  }

  /** The descriptor of this name; a later one of the same name wins, as in a dict display. */
  function ByName(ds: seq<Descriptor>, name: string): (r: Option<Descriptor>)
    ensures r.Some? ==> r.value in ds && r.value.name == name
    ensures r.None? ==> name !in Names(ds)
  {
    if ds == [] then None
    else if ds[|ds| - 1].name == name then Some(ds[|ds| - 1])
    else ByName(ds[..|ds| - 1], name)
  }

  /** The first descriptor of this name, as `next` over a generator finds it. */
  function FirstNamed(ds: seq<Descriptor>, name: string): (r: Option<Descriptor>)
    ensures r.Some? ==> r.value in ds && r.value.name == name
    ensures r.None? ==> name !in Names(ds)
  {
    if ds == [] then None else if ds[0].name == name then Some(ds[0]) else FirstNamed(ds[1..], name)
  }

  /** The first descriptor with this alternate name. */
  function ByAlias(ds: seq<Descriptor>, alias: string): (r: Option<Descriptor>)
    ensures r.Some? ==> r.value in ds && alias in r.value.alternates
    ensures r.None? ==> forall d <- ds :: alias !in d.alternates
  {
    if ds == [] then None else if alias in ds[0].alternates then Some(ds[0]) else ByAlias(ds[1..], alias)
  }

  /** A name always beats an alternate name. */
  function Lookup(ds: seq<Descriptor>, key: string): (r: Option<Descriptor>)
    ensures r.Some? ==> r.value in ds
  {
    if ByName(ds, key).Some? then ByName(ds, key) else ByAlias(ds, key)
  }

  lemma ByNameFinds(ds: seq<Descriptor>, d: Descriptor)
    requires DistinctNames(ds) && d in ds
    ensures ByName(ds, d.name) == Some(d) && Lookup(ds, d.name) == Some(d)
  {
  }

  lemma FirstNamedFinds(ds: seq<Descriptor>, d: Descriptor)
    requires DistinctNames(ds) && d in ds
    ensures FirstNamed(ds, d.name) == Some(d)
  {
  }

  /** Names are distinct wherever the tree is looked into. */
  ghost predicate WellNamed(d: Descriptor) {
    && DistinctNames(d.children) && DistinctNames(d.choices)
    && (forall c <- d.children :: WellNamed(c))
    && (forall c <- d.choices :: WellNamed(c))
  }

  /** No child of a SEQUENCE branch of a CHOICE is called like one of the branches. */
  ghost predicate BranchesApart(d: Descriptor) {
    && (forall c <- d.choices :: c.kind.SEQUENCE? ==> Names(c.children) !! Names(d.choices))
    && (forall c <- d.children :: BranchesApart(c))
    && (forall c <- d.choices :: BranchesApart(c))
  }
}
