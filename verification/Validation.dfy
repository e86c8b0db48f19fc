/** The request validator as functions (blp/schema_converter.py, blp/value_codec.py). */
module Validation {
  import opened Wrappers
  import opened Descriptors

  const INT32_MIN: int := -0x8000_0000
  const INT32_MAX: int := 0x7fff_ffff
  const INT64_MIN: int := -0x8000_0000_0000_0000
  const INT64_MAX: int := 0x7fff_ffff_ffff_ffff

  /** `parse` stands for the temporal and base64 decoders: the decoded text, or None when it is malformed. */
  datatype Rules = Rules(
    maxElements: int,
    maxDepth: int,
    rejectUnknown: bool,
    strictTypes: bool,
    parse: (Datatype, string) -> Option<string>)

  predicate Temporal(kind: Datatype) {
    kind.DATE? || kind.TIME? || kind.DATETIME? || kind.BYTEARRAY?
  }

  function Decode(value: Json, kind: Datatype, parse: (Datatype, string) -> Option<string>): Result<Json> {
    if value.Null? then Ok(Null)
    else
      match kind
      case STRING => if value.Text? then Ok(value) else Err(INVALID_ELEMENT_TYPE)
      case ENUMERATION => if value.Text? then Ok(value) else Err(INVALID_ELEMENT_TYPE)
      case INT32 =>
        if value.Int? && INT32_MIN <= value.i <= INT32_MAX then Ok(value) else Err(INVALID_ELEMENT_TYPE)
      case INT64 =>
        if value.Int? && INT64_MIN <= value.i <= INT64_MAX then Ok(value) else Err(INVALID_ELEMENT_TYPE)
      case BYTE =>
        if value.Int? && INT64_MIN <= value.i <= INT64_MAX then Ok(value) else Err(INVALID_ELEMENT_TYPE)
      case FLOAT32 => DecodeNumber(value)
      case FLOAT64 => DecodeNumber(value)
      case BOOL => if value.Bool? then Ok(value) else Err(INVALID_ELEMENT_TYPE)
      case CHAR => if value.Text? && |value.s| == 1 then Ok(value) else Err(INVALID_ELEMENT_TYPE)
      case _ =>
        if !value.Text? then Err(INVALID_ELEMENT_TYPE)
        else if Temporal(kind) then
          if parse(kind, value.s).Some? then Ok(Native(kind, parse(kind, value.s).value)) else Err(INVALID_ELEMENT_TYPE)
        else Ok(value)
  }

  function DecodeNumber(value: Json): Result<Json> {
    if value.Int? then Ok(Float(value.i as real))
    else if value.Float? then Ok(value)
    else Err(INVALID_ELEMENT_TYPE)
  }

  function ValidateScalar(rules: Rules, d: Descriptor, raw: Json): Result<Json> {
    if raw.Null? then Err(INVALID_ELEMENT_TYPE)
    else if d.kind.ENUMERATION? && d.enumValues != [] then
      if raw.Text? && raw.s in d.enumValues then Ok(raw) else Err(INVALID_ENUM_VALUE)
    else if d.kind.BYTE? && raw.Int? && !(0 <= raw.i <= 255) then Err(INVALID_ELEMENT_TYPE)
    else Decode(raw, d.kind, rules.parse)
  }

  /** Array items are counted as they are met, over the whole request. */
  function CountItems(rules: Rules, count: nat, n: nat): Result<nat> {
    if count + n > rules.maxElements then Err(REQUEST_TOO_LARGE) else Ok(count + n)
  }

  /** The cardinality checks of an array-valued element, in the order they are made. */
  function CheckArray(rules: Rules, d: Descriptor, items: seq<Json>, count: nat): Result<nat> {
    var counted :- CountItems(rules, count, |items|);
    if d.maxValues.Some? && |items| > d.maxValues.value then Err(REQUEST_TOO_LARGE)
    else if d.minValues >= 1 && |items| < d.minValues then Err(MISSING_REQUIRED_ELEMENT)
    else Ok(counted)
  }

  function Items(raw: Json): seq<Json> {
    if raw.List? then raw.items else [raw]
  }

  function MissingRequired(d: Descriptor, done: Entries): bool {
    exists c <- d.children :: c.minValues >= 1 && c.name !in Keys(done)
  }

  function ValidateObject(rules: Rules, d: Descriptor, entries: Entries, depth: nat, count: nat): Result<(Entries, nat)>
    decreases d, 2
  {
    if depth > rules.maxDepth then Err(REQUEST_TOO_LARGE)
    else
      var (done, n) :- ValidateEntries(rules, d, entries, depth, count);
      if MissingRequired(d, done) then Err(MISSING_REQUIRED_ELEMENT) else Ok((done, n))
  }

  /** The entries in order; the first one that is refused decides. */
  function ValidateEntries(rules: Rules, d: Descriptor, entries: Entries, depth: nat,
                           count: nat): Result<(Entries, nat)>
    decreases d, 1, |entries|
  {
    if entries == [] then Ok(([], count))
    else
      var (key, raw) := entries[|entries| - 1];
      var (done, n) :- ValidateEntries(rules, d, entries[..|entries| - 1], depth, count);
      var child := Lookup(d.children, key);
      if child.None? then if rules.rejectUnknown then Err(UNKNOWN_ELEMENT) else Ok((done, n))
      else if child.value.name in Keys(done) then Err(INVALID_ARGUMENT)
      else
        var (value, m) :- ValidateElement(rules, child.value, raw, depth, n);
        Ok((done + [(child.value.name, value)], m))
  }

  function ValidateElement(rules: Rules, d: Descriptor, raw: Json, depth: nat, count: nat): Result<(Json, nat)>
    decreases d, 4
  {
    if d.kind.CHOICE? then ValidateChoice(rules, d, raw, depth, count)
    else if d.Repeated() then
      if rules.strictTypes && !raw.List? then Err(INVALID_ELEMENT_TYPE)
      else
        var n :- CheckArray(rules, d, Items(raw), count);
        var (values, m) :- ValidateItems(rules, d, Items(raw), depth, n);
        Ok((List(values), m))
    else if rules.strictTypes && raw.List? then Err(INVALID_ELEMENT_TYPE)
    else if |Items(raw)| != 1 then Err(INVALID_ELEMENT_TYPE)
    else ValidateItem(rules, d, Items(raw)[0], depth, count)
  }

  function ValidateItems(rules: Rules, d: Descriptor, items: seq<Json>, depth: nat,
                         count: nat): Result<(seq<Json>, nat)>
    requires !d.kind.CHOICE?
    decreases d, 3, |items|
  {
    if items == [] then Ok(([], count))
    else
      var (values, n) :- ValidateItems(rules, d, items[..|items| - 1], depth, count);
      var (value, m) :- ValidateItem(rules, d, items[|items| - 1], depth, n);
      Ok((values + [value], m))
  }

  function ValidateItem(rules: Rules, d: Descriptor, raw: Json, depth: nat, count: nat): Result<(Json, nat)>
    requires !d.kind.CHOICE?
    decreases d, 3, 0
  {
    if d.kind.SEQUENCE? then
      if !raw.Dict? then Err(INVALID_ELEMENT_TYPE)
      else
        var (done, n) :- ValidateObject(rules, d, raw.entries, depth + 1, count);
        Ok((Dict(done), n))
    else
      var value :- ValidateScalar(rules, d, raw);
      Ok((value, count))
  }

  /** A SEQUENCE branch given as an object is replaced by the object itself: the branch name is not kept. */
  function ValidateChoice(rules: Rules, d: Descriptor, raw: Json, depth: nat, count: nat): Result<(Json, nat)>
    decreases d, 3
  {
    if !raw.Dict? || |raw.entries| != 1 then Err(INVALID_CHOICE)
    else
      var (name, value) := raw.entries[0];
      var branch := FirstNamed(d.choices, name);
      if branch.None? then Err(INVALID_CHOICE)
      else if branch.value.kind.SEQUENCE? && value.Dict? then
        var (done, n) :- ValidateObject(rules, branch.value, value.entries, depth + 1, count);
        Ok((Dict(done), n))
      else
        var scalar :- ValidateScalar(rules, branch.value, value);
        Ok((Dict([(name, scalar)]), count))
  }

  /** The whole request: the per-request override can only tighten the policy floor. */
  function ValidateParameters(rules: Rules, d: Descriptor, parameters: Json, override: Option<bool>): Result<Json> {
    if !parameters.Dict? then Err(INVALID_ARGUMENT)
    else
      var tightened := rules.(rejectUnknown := rules.rejectUnknown || override == Some(true));
      var (done, _) :- ValidateObject(tightened, d, parameters.entries, 0, 0);
      Ok(Dict(done))
  }
}
