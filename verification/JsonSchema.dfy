/**
 The bounded JSON Schema checker for tool arguments: which schemas it accepts, what its depth-limited
 verdict is, and the same verdict without any limit.
 */
module JsonSchema {
  import opened Options

  /** A decoded value. `text` is the literal of a number as it is encoded again. Maps have no key order. */
  datatype Json =
    | Null
    | Bool(b: bool)
    | Number(value: real, text: string)
    | Str(s: string)
    | Arr(items: seq<Json>)
    | Obj(fields: map<string, Json>)

  /** The regular expression engine: which patterns compile, and what they match. */
  datatype Engine = Engine(compiles: string -> bool, matches: (string, string) -> bool)

  const MAX_DEPTH := 32
  const MAX_INT: int := 9223372036854775807

  // ----- reading keywords -----

  predicate Has(schema: Json, key: string) {
    schema.Obj? && key in schema.fields
  }

  function Get(schema: Json, key: string): (r: Json)
    requires Has(schema, key)
    ensures r < schema
  {
    schema.fields[key]
  }

  predicate HasRef(schema: Json) {
    Has(schema, "$ref") && Get(schema, "$ref").Str?
  }

  function Properties(schema: Json): (r: map<string, Json>)
    ensures forall k :: k in r ==> r[k] < schema
  {
    if Has(schema, "properties") && Get(schema, "properties").Obj? then Get(schema, "properties").fields else map[]
  }

  predicate HasBranches(schema: Json, keyword: string) {
    Has(schema, keyword) && Get(schema, keyword).Arr?
  }

  function Branches(schema: Json, keyword: string): (r: seq<Json>)
    requires HasBranches(schema, keyword)
    ensures forall i :: 0 <= i < |r| ==> r[i] < schema
  {
    Get(schema, keyword).items
  }

  /** A keyword whose value is not an object stands for the empty schema. */
  function Node(raw: Json): (r: Json)
    ensures r.Obj?
  {
    if raw.Obj? then raw else Obj(map[])
  }

  function Names(items: seq<Json>): seq<string> {
    if items == [] then []
    else
      var rest := Names(items[..|items| - 1]);
      if items[|items| - 1].Str? then rest + [items[|items| - 1].s] else rest
  }

  /** A list of distinct non-empty strings; absent and null are the empty list. */
  function StringList(schema: Json, key: string): Option<seq<string>> {
    if !Has(schema, key) || Get(schema, key).Null? then Some([])
    else if !Get(schema, key).Arr? then None
    else
      var items := Get(schema, key).items;
      if (forall i :: 0 <= i < |items| ==> items[i].Str? && items[i].s != "")
         && (forall i, j :: 0 <= i < j < |items| ==> items[i] != items[j])
      then Some(Names(items)) else None
  }

  function Required(schema: Json): seq<string> {
    var names := StringList(schema, "required");
    if names.Some? then names.value else []
  }

  /** A usable count: a non-negative integer that fits the machine. */
  function CountKeyword(schema: Json, key: string): Option<int> {
    if !Has(schema, key) || !Get(schema, key).Number? then None
    else
      var n := Get(schema, key).value;
      if n < 0.0 || n.Floor as real != n || n > MAX_INT as real then None else Some(n.Floor)
  }

  predicate CountInRange(schema: Json, minimum: string, maximum: string, n: int) {
    && (CountKeyword(schema, minimum).Some? ==> n >= CountKeyword(schema, minimum).value)
    && (CountKeyword(schema, maximum).Some? ==> n <= CountKeyword(schema, maximum).value)
  }

  function Types(schema: Json): seq<string> {
    if !Has(schema, "type") then []
    else if Get(schema, "type").Str? then [Get(schema, "type").s]
    else if Get(schema, "type").Arr? then Names(Get(schema, "type").items)
    else []
  }

  predicate IsInteger(value: Json) {
    value.Number? && value.value.Floor as real == value.value
  }

  predicate HasType(value: Json, name: string) {
    match name
    case "null" => value.Null?
    case "object" => value.Obj?
    case "array" => value.Arr?
    case "string" => value.Str?
    case "boolean" => value.Bool?
    case "number" => value.Number?
    case "integer" => IsInteger(value)
    case _ => false
  }

  predicate KnownType(name: string) {
    name in {"object", "array", "string", "number", "integer", "boolean", "null"}
  }

  // ----- the parts of a verdict that do not recurse -----

  predicate TypeOk(value: Json, schema: Json) {
    Types(schema) == [] || exists i :: 0 <= i < |Types(schema)| && HasType(value, Types(schema)[i])
  }

  /** Values are compared by their encoding, so `1` and `1.0` differ. */
  predicate EnumOk(value: Json, schema: Json) {
    && (Has(schema, "enum") && Get(schema, "enum").Arr? ==> value in Get(schema, "enum").items)
    && (Has(schema, "const") ==> value == Get(schema, "const"))
  }

  predicate StringOk(e: Engine, s: string, schema: Json) {
    && CountInRange(schema, "minLength", "maxLength", |s|)
    && (Has(schema, "pattern") && Get(schema, "pattern").Str? ==>
          e.compiles(Get(schema, "pattern").s) && e.matches(Get(schema, "pattern").s, s))
  }

  predicate Bounded(schema: Json, key: string, holds: real -> bool) {
    Has(schema, key) && Get(schema, key).Number? ==> holds(Get(schema, key).value)
  }

  predicate RangeOk(n: real, schema: Json) {
    && Bounded(schema, "minimum", m => n >= m)
    && Bounded(schema, "maximum", m => n <= m)
    && Bounded(schema, "exclusiveMinimum", m => n > m)
    && Bounded(schema, "exclusiveMaximum", m => n < m)
  }

  /** The checker tests integrality a second time for numbers. */
  predicate NumberOk(value: Json, schema: Json)
    requires value.Number?
  {
    && ("integer" in Types(schema) && "number" !in Types(schema) ==> IsInteger(value))
    && RangeOk(value.value, schema)
  }

  // ----- references -----

  function Tokens(text: string): (r: seq<string>)
    ensures |r| > 0
  {
    if text == "" then [""]
    else
      var rest := Tokens(text[1..]);
      if text[0] == '/' then [""] + rest else [[text[0]] + rest[0]] + rest[1..]
  }

  /** Replaces every two-character escape by one character, left to right. */
  function Replace(text: string, mark: char, plain: char): string {
    if |text| < 2 then text
    else if text[0] == '~' && text[1] == mark then [plain] + Replace(text[2..], mark, plain)
    else [text[0]] + Replace(text[1..], mark, plain)
  }

  function Unescape(token: string): string {
    Replace(Replace(token, '1', '/'), '0', '~')
  }

  function Walk(current: Json, tokens: seq<string>): Option<Json> {
    if tokens == [] then Some(current)
    else if Has(current, Unescape(tokens[0])) then Walk(Get(current, Unescape(tokens[0])), tokens[1..])
    else None
  }

  /** Only references into the same document, and only to objects. */
  function ResolveRef(root: Json, reference: string): (r: Option<Json>)
    ensures r.Some? ==> r.value.Obj? && |reference| >= 2 && reference[0] == '#' && reference[1] == '/'
  {
    if |reference| < 2 || reference[..2] != "#/" then None
    else
      var target := Walk(root, Tokens(reference[2..]));
      if target.Some? && target.value.Obj? then target else None
  }

  // ----- which schemas are accepted -----

  predicate TypeAccepted(schema: Json) {
    Has(schema, "type") ==>
      var raw := Get(schema, "type");
      || (raw.Str? && KnownType(raw.s))
      || (raw.Arr? && raw.items != [] && forall i :: 0 <= i < |raw.items| ==> raw.items[i].Str? && KnownType(raw.items[i].s))
  }

  /** What is required of one node itself. */
  predicate NodeAccepted(e: Engine, node: Json, root: Json) {
    && node.Obj?
    && (HasRef(node) ==> ResolveRef(root, Get(node, "$ref").s).Some?)
    && TypeAccepted(node)
    && (Has(node, "pattern") && Get(node, "pattern").Str? ==> e.compiles(Get(node, "pattern").s))
    && (Has(node, "properties") ==> Get(node, "properties").Null? || Get(node, "properties").Obj?)
    && StringList(node, "required").Some?
    && (forall name :: name in Required(node) ==> name in Properties(node))
    && (Has(node, "additionalProperties") ==> Get(node, "additionalProperties").Bool? || Get(node, "additionalProperties").Obj?)
    && (forall keyword :: keyword in {"allOf", "anyOf", "oneOf"} && Has(node, keyword) ==>
          Get(node, keyword).Arr? && Get(node, keyword).items != [])
  }

  predicate Accepts(e: Engine, node: Json, root: Json, depth: nat)
    decreases node
  {
    && depth <= MAX_DEPTH && NodeAccepted(e, node, root)
    && (forall name :: name in Properties(node) ==> Accepts(e, Properties(node)[name], root, depth + 1))
    && (Has(node, "items") ==> Accepts(e, Get(node, "items"), root, depth + 1))
    && (Has(node, "additionalProperties") && !Get(node, "additionalProperties").Bool? ==>
          Accepts(e, Get(node, "additionalProperties"), root, depth + 1))
    && forall keyword :: keyword in {"allOf", "anyOf", "oneOf"} && HasBranches(node, keyword) ==>
         forall i :: 0 <= i < |Branches(node, keyword)| ==> Accepts(e, Branches(node, keyword)[i], root, depth + 1)
  }

  /** No reference anywhere in the schema. */
  predicate NoRefs(node: Json)
    decreases node
  {
    && !HasRef(node)
    && (forall name :: name in Properties(node) ==> NoRefs(Properties(node)[name]))
    && (Has(node, "items") ==> NoRefs(Get(node, "items")))
    && (Has(node, "additionalProperties") ==> NoRefs(Get(node, "additionalProperties")))
    && forall keyword :: keyword in {"allOf", "anyOf", "oneOf"} && HasBranches(node, keyword) ==>
         forall i :: 0 <= i < |Branches(node, keyword)| ==> NoRefs(Branches(node, keyword)[i])
  }

  // ----- the verdict, cut off at `limit` -----

  predicate Validates(e: Engine, limit: nat, value: Json, schema: Json, root: Json, depth: nat)
    decreases limit + 1 - depth, 0
  {
    if depth > limit then false
    else if HasRef(schema) then
      var target := ResolveRef(root, Get(schema, "$ref").s);
      target.Some? && Validates(e, limit, value, target.value, root, depth + 1)
    else
      && AllOk(e, limit, value, schema, root, depth)
      && AnyOk(e, limit, value, schema, root, depth)
      && OneOk(e, limit, value, schema, root, depth)
      && EnumOk(value, schema) && TypeOk(value, schema)
      && KindOk(e, limit, value, schema, root, depth)
  }

  predicate KindOk(e: Engine, limit: nat, value: Json, schema: Json, root: Json, depth: nat)
    requires depth <= limit
    decreases limit - depth, 3
  {
    match value
    case Obj(fields) => ObjectOk(e, limit, fields, schema, root, depth)
    case Arr(items) => ArrayOk(e, limit, items, schema, root, depth)
    case Str(s) => StringOk(e, s, schema)
    case Number(_, _) => NumberOk(value, schema)
    case _ => true
  }

  predicate AllOk(e: Engine, limit: nat, value: Json, schema: Json, root: Json, depth: nat)
    requires depth <= limit
    decreases limit - depth, 2
  {
    HasBranches(schema, "allOf") ==>
      forall i :: 0 <= i < |Branches(schema, "allOf")| ==>
        Validates(e, limit, value, Node(Branches(schema, "allOf")[i]), root, depth + 1)
  }

  predicate AnyOk(e: Engine, limit: nat, value: Json, schema: Json, root: Json, depth: nat)
    requires depth <= limit
    decreases limit - depth, 2
  {
    HasBranches(schema, "anyOf") ==>
      exists i :: 0 <= i < |Branches(schema, "anyOf")|
                  && Validates(e, limit, value, Node(Branches(schema, "anyOf")[i]), root, depth + 1)
  }

  predicate OneOk(e: Engine, limit: nat, value: Json, schema: Json, root: Json, depth: nat)
    requires depth <= limit
    decreases limit - depth, 2
  {
    HasBranches(schema, "oneOf") ==> Matching(e, limit, value, Branches(schema, "oneOf"), root, depth + 1) == 1
  }

  /** How many branches accept the value. */
  function Matching(e: Engine, limit: nat, value: Json, branches: seq<Json>, root: Json, depth: nat): nat
    requires depth <= limit + 1
    decreases limit + 1 - depth, 1, |branches|
  {
    if branches == [] then 0
    else
      var n := |branches| - 1;
      Matching(e, limit, value, branches[..n], root, depth)
      + if Validates(e, limit, value, Node(branches[n]), root, depth) then 1 else 0
  }

  predicate ObjectOk(e: Engine, limit: nat, fields: map<string, Json>, schema: Json, root: Json, depth: nat)
    requires depth <= limit
    decreases limit - depth, 2
  {
    && (forall name :: name in Required(schema) ==> name in fields)
    && (forall name :: name in fields ==> FieldOk(e, limit, name, fields[name], schema, root, depth))
    && CountInRange(schema, "minProperties", "maxProperties", |fields|)
  }

  predicate FieldOk(e: Engine, limit: nat, name: string, value: Json, schema: Json, root: Json, depth: nat)
    requires depth <= limit
    decreases limit - depth, 1
  {
    if name in Properties(schema) then Validates(e, limit, value, Node(Properties(schema)[name]), root, depth + 1)
    else if !Has(schema, "additionalProperties") then true
    else match Get(schema, "additionalProperties")
      case Bool(b) => b
      case Obj(_) => Validates(e, limit, value, Get(schema, "additionalProperties"), root, depth + 1)
      case _ => true
  }

  predicate ArrayOk(e: Engine, limit: nat, items: seq<Json>, schema: Json, root: Json, depth: nat)
    requires depth <= limit
    decreases limit - depth, 2
  {
    && CountInRange(schema, "minItems", "maxItems", |items|)
    && (Has(schema, "items") && Get(schema, "items").Obj? ==>
          forall i :: 0 <= i < |items| ==> Validates(e, limit, items[i], Get(schema, "items"), root, depth + 1))
  }

  // ----- the verdict without a cut-off, for schemas without references -----

  predicate Unlimited(e: Engine, value: Json, schema: Json)
    decreases schema, 2
  {
    && UnlimitedAll(e, value, schema) && UnlimitedAny(e, value, schema) && UnlimitedOne(e, value, schema)
    && EnumOk(value, schema) && TypeOk(value, schema)
    && (value.Obj? ==> UnlimitedObject(e, value.fields, schema))
    && (value.Arr? ==> UnlimitedArray(e, value.items, schema))
    && (value.Str? ==> StringOk(e, value.s, schema))
    && (value.Number? ==> RangeOk(value.value, schema))
  }

  /** `allOf`: every branch. */
  predicate UnlimitedAll(e: Engine, value: Json, schema: Json)
    decreases schema, 0
  {
    HasBranches(schema, "allOf") ==>
      forall i :: 0 <= i < |Branches(schema, "allOf")| ==> Unlimited(e, value, Branches(schema, "allOf")[i])
  }

  /** `anyOf`: some branch. */
  predicate UnlimitedAny(e: Engine, value: Json, schema: Json)
    decreases schema, 0
  {
    HasBranches(schema, "anyOf") ==>
      exists i :: 0 <= i < |Branches(schema, "anyOf")| && Unlimited(e, value, Branches(schema, "anyOf")[i])
  }

  /** `oneOf`: one branch and no other. */
  predicate UnlimitedOne(e: Engine, value: Json, schema: Json)
    decreases schema, 1
  {
    HasBranches(schema, "oneOf") ==>
      exists i :: 0 <= i < |Branches(schema, "oneOf")| && OnlyBranch(e, value, schema, i)
  }

  predicate OnlyBranch(e: Engine, value: Json, schema: Json, i: nat)
    requires HasBranches(schema, "oneOf") && i < |Branches(schema, "oneOf")|
    decreases schema, 0
  {
    && Unlimited(e, value, Branches(schema, "oneOf")[i])
    && forall j :: 0 <= j < |Branches(schema, "oneOf")| && j != i ==> !Unlimited(e, value, Branches(schema, "oneOf")[j])
  }

  /** Every required field is there, known fields meet their schema, the others meet `additionalProperties`. */
  predicate UnlimitedObject(e: Engine, fields: map<string, Json>, schema: Json)
    decreases schema, 0
  {
    && (forall name :: name in Required(schema) ==> name in fields)
    && (forall name :: name in fields && name in Properties(schema) ==> Unlimited(e, fields[name], Properties(schema)[name]))
    && (Has(schema, "additionalProperties") ==>
          forall name :: name in fields && name !in Properties(schema) ==>
            if Get(schema, "additionalProperties").Bool? then Get(schema, "additionalProperties").b
            else Unlimited(e, fields[name], Get(schema, "additionalProperties")))
    && CountInRange(schema, "minProperties", "maxProperties", |fields|)
  }

  predicate UnlimitedArray(e: Engine, items: seq<Json>, schema: Json)
    decreases schema, 0
  {
    && CountInRange(schema, "minItems", "maxItems", |items|)
    && (Has(schema, "items") ==> forall i :: 0 <= i < |items| ==> Unlimited(e, items[i], Get(schema, "items")))
  }
}
