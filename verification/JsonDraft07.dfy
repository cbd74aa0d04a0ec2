/**
 The supported keywords as draft-07 of JSON Schema defines them, written without reference to the checker: equality
 by value in `const` and `enum`, one type test, counts of any size. The checker agrees with it whenever numbers
 that are compared are written canonically and counts fit the machine; for schemas of a single such keyword it is
 said exactly when they part.
 */
module JsonDraft07 {
  import opened Options
  import opened JsonSchema
  import opened JsonSchemaTheorems

  /** The largest machine integer. */
  const LARGEST: int := 0x7FFF_FFFF_FFFF_FFFF

  // ----- single keywords -----

  /** Equality of values: numbers by value, objects whatever their order. */
  predicate Equal(a: Json, b: Json) {
    match a
    case Number(value, _) => b.Number? && b.value == value
    case Arr(items) => b.Arr? && |b.items| == |items| && forall i :: 0 <= i < |items| ==> Equal(items[i], b.items[i])
    case Obj(fields) => b.Obj? && b.fields.Keys == fields.Keys && forall k :: k in fields ==> Equal(fields[k], b.fields[k])
    case _ => a == b
  }

  predicate Is(r: real, n: int) {
    r == n as real
  }

  ghost predicate Integral(r: real) {
    exists n: int :: Is(r, n)
  }

  function Primitive(value: Json): string {
    match value
    case Null => "null"
    case Bool(_) => "boolean"
    case Number(_, _) => "number"
    case Str(_) => "string"
    case Arr(_) => "array"
    case Obj(_) => "object"
  }

  ghost predicate IsA(value: Json, name: string) {
    name == Primitive(value) || (name == "integer" && value.Number? && Integral(value.value))
  }

  /** `type`: one name, or a list of which one must fit. */
  ghost predicate Typed(value: Json, schema: Json) {
    Has(schema, "type") ==>
      var raw := Get(schema, "type");
      || (raw.Str? && IsA(value, raw.s))
      || (raw.Arr? && exists i :: 0 <= i < |raw.items| && raw.items[i].Str? && IsA(value, raw.items[i].s))
  }

  ghost predicate Enumerated(value: Json, schema: Json) {
    Has(schema, "enum") && Get(schema, "enum").Arr? ==>
      exists i :: 0 <= i < |Get(schema, "enum").items| && Equal(value, Get(schema, "enum").items[i])
  }

  predicate Constant(value: Json, schema: Json) {
    Has(schema, "const") ==> Equal(value, Get(schema, "const"))
  }

  /** A count is a non-negative integer of any size. */
  ghost predicate IsCount(schema: Json, key: string) {
    Has(schema, key) && Get(schema, key).Number? && Get(schema, key).value >= 0.0 && Integral(Get(schema, key).value)
  }

  ghost predicate Sized(schema: Json, minimum: string, maximum: string, n: nat) {
    && (IsCount(schema, minimum) ==> n as real >= Get(schema, minimum).value)
    && (IsCount(schema, maximum) ==> n as real <= Get(schema, maximum).value)
  }

  predicate Within(n: real, schema: Json) {
    && (Has(schema, "minimum") && Get(schema, "minimum").Number? ==> n >= Get(schema, "minimum").value)
    && (Has(schema, "maximum") && Get(schema, "maximum").Number? ==> n <= Get(schema, "maximum").value)
    && (Has(schema, "exclusiveMinimum") && Get(schema, "exclusiveMinimum").Number? ==> n > Get(schema, "exclusiveMinimum").value)
    && (Has(schema, "exclusiveMaximum") && Get(schema, "exclusiveMaximum").Number? ==> n < Get(schema, "exclusiveMaximum").value)
  }

  predicate Patterned(e: Engine, s: string, schema: Json) {
    Has(schema, "pattern") && Get(schema, "pattern").Str? ==> e.matches(Get(schema, "pattern").s, s)
  }

  predicate RequiredThere(fields: map<string, Json>, schema: Json) {
    Has(schema, "required") && Get(schema, "required").Arr? ==>
      forall i :: 0 <= i < |Get(schema, "required").items| && Get(schema, "required").items[i].Str? ==>
        Get(schema, "required").items[i].s in fields
  }

  // ----- schemas -----

  /** The value is an instance of the schema. */
  ghost predicate Instance(e: Engine, value: Json, schema: Json)
    decreases schema, 2
  {
    && InstanceOfAll(e, value, schema) && InstanceOfAny(e, value, schema) && InstanceOfOne(e, value, schema)
    && Typed(value, schema) && Enumerated(value, schema) && Constant(value, schema)
    && (value.Obj? ==> ObjectInstance(e, value.fields, schema))
    && (value.Arr? ==> ArrayInstance(e, value.items, schema))
    && (value.Str? ==> Sized(schema, "minLength", "maxLength", |value.s|) && Patterned(e, value.s, schema))
    && (value.Number? ==> Within(value.value, schema))
  }

  ghost predicate InstanceOfAll(e: Engine, value: Json, schema: Json)
    decreases schema, 0
  {
    HasBranches(schema, "allOf") ==>
      forall i :: 0 <= i < |Branches(schema, "allOf")| ==> Instance(e, value, Branches(schema, "allOf")[i])
  }

  ghost predicate InstanceOfAny(e: Engine, value: Json, schema: Json)
    decreases schema, 0
  {
    HasBranches(schema, "anyOf") ==>
      exists i :: 0 <= i < |Branches(schema, "anyOf")| && Instance(e, value, Branches(schema, "anyOf")[i])
  }

  ghost predicate InstanceOfOne(e: Engine, value: Json, schema: Json)
    decreases schema, 1
  {
    HasBranches(schema, "oneOf") ==>
      exists i :: 0 <= i < |Branches(schema, "oneOf")| && InstanceOfOnly(e, value, schema, i)
  }

  ghost predicate InstanceOfOnly(e: Engine, value: Json, schema: Json, i: nat)
    requires HasBranches(schema, "oneOf") && i < |Branches(schema, "oneOf")|
    decreases schema, 0
  {
    && Instance(e, value, Branches(schema, "oneOf")[i])
    && forall j :: 0 <= j < |Branches(schema, "oneOf")| && j != i ==> !Instance(e, value, Branches(schema, "oneOf")[j])
  }

  ghost predicate ObjectInstance(e: Engine, fields: map<string, Json>, schema: Json)
    decreases schema, 1
  {
    && RequiredThere(fields, schema)
    && (forall name :: name in fields ==> FieldInstance(e, name, fields[name], schema))
    && Sized(schema, "minProperties", "maxProperties", |fields|)
  }

  /** A named property meets its schema, any other meets `additionalProperties`. */
  ghost predicate FieldInstance(e: Engine, name: string, value: Json, schema: Json)
    decreases schema, 0
  {
    if name in Properties(schema) then Instance(e, value, Properties(schema)[name])
    else Has(schema, "additionalProperties") ==>
      var additional := Get(schema, "additionalProperties");
      if additional.Bool? then additional.b else Instance(e, value, additional)
  }

  ghost predicate ArrayInstance(e: Engine, items: seq<Json>, schema: Json)
    decreases schema, 0
  {
    && Sized(schema, "minItems", "maxItems", |items|)
    && (Has(schema, "items") ==> forall i :: 0 <= i < |items| ==> Instance(e, items[i], Get(schema, "items")))
  }

  // ----- when the checker compares and counts as the standard does -----

  /** Every number is written the one way the encoder writes it. */
  predicate Canonical(j: Json, encode: real -> string) {
    match j
    case Number(value, text) => text == encode(value)
    case Arr(items) => forall i :: 0 <= i < |items| ==> Canonical(items[i], encode)
    case Obj(fields) => forall k :: k in fields ==> Canonical(fields[k], encode)
    case _ => true
  }

  predicate Fits(schema: Json, key: string) {
    Has(schema, key) && Get(schema, key).Number? ==> Get(schema, key).value <= LARGEST as real
  }

  /** The node's constants are written canonically and its counts fit the machine. */
  predicate PlainNode(schema: Json, encode: real -> string) {
    && (Has(schema, "const") ==> Canonical(Get(schema, "const"), encode))
    && (Has(schema, "enum") ==> Canonical(Get(schema, "enum"), encode))
    && Fits(schema, "minLength") && Fits(schema, "maxLength") && Fits(schema, "minItems") && Fits(schema, "maxItems")
    && Fits(schema, "minProperties") && Fits(schema, "maxProperties")
  }

  predicate Plain(schema: Json, encode: real -> string)
    decreases schema
  {
    && PlainNode(schema, encode)
    && (forall name :: name in Properties(schema) ==> Plain(Properties(schema)[name], encode))
    && (Has(schema, "items") ==> Plain(Get(schema, "items"), encode))
    && (Has(schema, "additionalProperties") ==> Plain(Get(schema, "additionalProperties"), encode))
    && forall keyword :: keyword in {"allOf", "anyOf", "oneOf"} && HasBranches(schema, keyword) ==>
         forall i :: 0 <= i < |Branches(schema, keyword)| ==> Plain(Branches(schema, keyword)[i], encode)
  }

  /** Comparing encodings is comparing values, as long as numbers are written canonically. */
  lemma {:induction false} SameEncodingIsEqual(a: Json, b: Json, encode: real -> string)
    requires Canonical(a, encode) && Canonical(b, encode)
    ensures a == b <==> Equal(a, b)
    decreases a
  {
    match a {
      case Arr(items) =>
        if b.Arr? && |b.items| == |items| {
          forall i | 0 <= i < |items| ensures items[i] == b.items[i] <==> Equal(items[i], b.items[i]) {
            SameEncodingIsEqual(items[i], b.items[i], encode);
          }
        }
      case Obj(fields) =>
        if b.Obj? && b.fields.Keys == fields.Keys {
          forall k | k in fields ensures fields[k] == b.fields[k] <==> Equal(fields[k], b.fields[k]) {
            SameEncodingIsEqual(fields[k], b.fields[k], encode);
          }
          if Equal(a, b) {
            assert fields == b.fields;
          }
        }
      case _ =>
    }
  }

  /** What is equal by encoding is equal by value, however it is written. */
  lemma {:induction false} SameIsEqual(a: Json)
    ensures Equal(a, a)
  {
    match a {
      case Arr(items) =>
        forall i | 0 <= i < |items| ensures Equal(items[i], items[i]) {
          SameIsEqual(items[i]);
        }
      case Obj(fields) =>
        forall k | k in fields ensures Equal(fields[k], fields[k]) {
          SameIsEqual(fields[k]);
        }
      case _ =>
    }
  }

  lemma EnumAgrees(value: Json, schema: Json, encode: real -> string)
    requires PlainNode(schema, encode) && Canonical(value, encode)
    ensures EnumOk(value, schema) <==> Enumerated(value, schema) && Constant(value, schema)
  {
    if Has(schema, "enum") && Get(schema, "enum").Arr? {
      var items := Get(schema, "enum").items;
      forall i | 0 <= i < |items| ensures value == items[i] <==> Equal(value, items[i]) {
        SameEncodingIsEqual(value, items[i], encode);
      }
    }
    if Has(schema, "const") {
      SameEncodingIsEqual(value, Get(schema, "const"), encode);
    }
  }

  // ----- reading keywords -----

  lemma FloorIsIntegral(r: real)
    ensures Integral(r) <==> r.Floor as real == r
  {
    if Integral(r) {
      var n: int :| Is(r, n);
      assert r.Floor == n;
    } else {
      assert !Is(r, r.Floor);
    }
  }

  lemma {:induction false} NamesAre(items: seq<Json>, name: string)
    ensures name in Names(items) <==> exists i :: 0 <= i < |items| && items[i].Str? && items[i].s == name
  {
    if items != [] {
      var front := items[..|items| - 1];
      NamesAre(front, name);
      forall i | 0 <= i < |front| ensures front[i] == items[i] {
      }
      if name in Names(front) {
        var i :| 0 <= i < |front| && front[i].Str? && front[i].s == name;
        assert items[i].Str? && items[i].s == name;
      }
    }
  }

  lemma IsAType(value: Json, name: string)
    ensures HasType(value, name) <==> IsA(value, name)
  {
    if value.Number? {
      FloorIsIntegral(value.value);
    }
  }

  lemma TypeAgrees(value: Json, schema: Json)
    requires TypeAccepted(schema)
    ensures TypeOk(value, schema) <==> Typed(value, schema)
  {
    if Has(schema, "type") {
      var raw := Get(schema, "type");
      if raw.Str? {
        IsAType(value, raw.s);
        assert Types(schema)[0] == raw.s;
      } else {
        TypesAgree(value, raw.items);
      }
    }
  }

  lemma TypesAgree(value: Json, items: seq<Json>)
    requires items != [] && forall i :: 0 <= i < |items| ==> items[i].Str?
    ensures Names(items) != []
    ensures (exists i :: 0 <= i < |Names(items)| && HasType(value, Names(items)[i]))
            <==> exists i :: 0 <= i < |items| && items[i].Str? && IsA(value, items[i].s)
  {
    var names := Names(items);
    NamesAre(items, items[0].s);
    forall i | 0 <= i < |names| && HasType(value, names[i])
      ensures exists j :: 0 <= j < |items| && items[j].Str? && IsA(value, items[j].s)
    {
      NamesAre(items, names[i]);
      IsAType(value, names[i]);
    }
    forall j | 0 <= j < |items| && IsA(value, items[j].s) ensures exists i :: 0 <= i < |names| && HasType(value, names[i]) {
      NamesAre(items, items[j].s);
      IsAType(value, items[j].s);
      assert items[j].s in names;
    }
  }

  lemma CountAgrees(schema: Json, key: string)
    requires Fits(schema, key)
    ensures IsCount(schema, key) <==> CountKeyword(schema, key).Some?
    ensures IsCount(schema, key) ==> CountKeyword(schema, key).value as real == Get(schema, key).value
  {
    if Has(schema, key) && Get(schema, key).Number? {
      FloorIsIntegral(Get(schema, key).value);
    }
  }

  lemma SizeAgrees(schema: Json, minimum: string, maximum: string, n: nat)
    requires Fits(schema, minimum) && Fits(schema, maximum)
    ensures CountInRange(schema, minimum, maximum, n) <==> Sized(schema, minimum, maximum, n)
  {
    CountAgrees(schema, minimum);
    CountAgrees(schema, maximum);
  }

  lemma RequiredAgrees(fields: map<string, Json>, schema: Json)
    requires StringList(schema, "required").Some?
    ensures (forall name :: name in Required(schema) ==> name in fields) <==> RequiredThere(fields, schema)
  {
    if Has(schema, "required") && Get(schema, "required").Arr? {
      var items := Get(schema, "required").items;
      assert Required(schema) == Names(items);
      forall name | name in Names(items)
        ensures exists i :: 0 <= i < |items| && items[i].Str? && items[i].s == name
      {
        NamesAre(items, name);
      }
      forall i | 0 <= i < |items| && items[i].Str? ensures items[i].s in Names(items) {
        NamesAre(items, items[i].s);
      }
    }
  }

  // ----- whole schemas -----

  /** Acceptance and plainness, together, as subschemas inherit them; a boolean needs neither. */
  ghost predicate Readable(e: Engine, schema: Json, root: Json, depth: nat, encode: real -> string) {
    Accepts(e, schema, root, depth) && Plain(schema, encode)
  }

  lemma {:induction false} BranchReads(e: Engine, value: Json, schema: Json, root: Json, depth: nat, encode: real -> string,
                                       keyword: string)
    requires Readable(e, schema, root, depth, encode) && Canonical(value, encode)
    requires keyword in {"allOf", "anyOf", "oneOf"} && HasBranches(schema, keyword)
    ensures forall i :: 0 <= i < |Branches(schema, keyword)| ==>
              (Unlimited(e, value, Branches(schema, keyword)[i]) <==> Instance(e, value, Branches(schema, keyword)[i]))
    decreases schema, 0
  {
    forall i | 0 <= i < |Branches(schema, keyword)|
      ensures Unlimited(e, value, Branches(schema, keyword)[i]) <==> Instance(e, value, Branches(schema, keyword)[i])
    {
      Reads(e, value, Branches(schema, keyword)[i], root, depth + 1, encode);
    }
  }

  lemma {:induction false} AllReads(e: Engine, value: Json, schema: Json, root: Json, depth: nat, encode: real -> string)
    requires Readable(e, schema, root, depth, encode) && Canonical(value, encode)
    ensures UnlimitedAll(e, value, schema) <==> InstanceOfAll(e, value, schema)
    ensures UnlimitedAny(e, value, schema) <==> InstanceOfAny(e, value, schema)
    decreases schema, 1
  {
    if HasBranches(schema, "allOf") {
      BranchReads(e, value, schema, root, depth, encode, "allOf");
    }
    if HasBranches(schema, "anyOf") {
      BranchReads(e, value, schema, root, depth, encode, "anyOf");
    }
  }

  lemma {:induction false} OneReads(e: Engine, value: Json, schema: Json, root: Json, depth: nat, encode: real -> string)
    requires Readable(e, schema, root, depth, encode) && Canonical(value, encode)
    ensures UnlimitedOne(e, value, schema) <==> InstanceOfOne(e, value, schema)
    decreases schema, 1
  {
    if HasBranches(schema, "oneOf") {
      BranchReads(e, value, schema, root, depth, encode, "oneOf");
      forall i | 0 <= i < |Branches(schema, "oneOf")|
        ensures OnlyBranch(e, value, schema, i) <==> InstanceOfOnly(e, value, schema, i)
      {
      }
    }
  }

  lemma {:induction false} FieldReads(e: Engine, name: string, value: Json, schema: Json, root: Json, depth: nat,
                                      encode: real -> string)
    requires Readable(e, schema, root, depth, encode) && Canonical(value, encode)
    ensures FieldUnlimited(e, name, value, schema) <==> FieldInstance(e, name, value, schema)
    decreases schema, 0
  {
    if name in Properties(schema) {
      Reads(e, value, Properties(schema)[name], root, depth + 1, encode);
    } else if Has(schema, "additionalProperties") && !Get(schema, "additionalProperties").Bool? {
      Reads(e, value, Get(schema, "additionalProperties"), root, depth + 1, encode);
    }
  }

  lemma {:induction false} ObjectReads(e: Engine, fields: map<string, Json>, schema: Json, root: Json, depth: nat,
                                       encode: real -> string)
    requires Readable(e, schema, root, depth, encode) && forall k :: k in fields ==> Canonical(fields[k], encode)
    ensures UnlimitedObject(e, fields, schema) <==> ObjectInstance(e, fields, schema)
    decreases schema, 1
  {
    FieldsUnlimited(e, fields, schema);
    RequiredAgrees(fields, schema);
    SizeAgrees(schema, "minProperties", "maxProperties", |fields|);
    forall name | name in fields
      ensures FieldUnlimited(e, name, fields[name], schema) <==> FieldInstance(e, name, fields[name], schema)
    {
      FieldReads(e, name, fields[name], schema, root, depth, encode);
    }
  }

  lemma {:induction false} ArrayReads(e: Engine, items: seq<Json>, schema: Json, root: Json, depth: nat, encode: real -> string)
    requires Readable(e, schema, root, depth, encode) && forall i :: 0 <= i < |items| ==> Canonical(items[i], encode)
    ensures UnlimitedArray(e, items, schema) <==> ArrayInstance(e, items, schema)
    decreases schema, 1
  {
    SizeAgrees(schema, "minItems", "maxItems", |items|);
    if Has(schema, "items") {
      forall i | 0 <= i < |items|
        ensures Unlimited(e, items[i], Get(schema, "items")) <==> Instance(e, items[i], Get(schema, "items"))
      {
        Reads(e, items[i], Get(schema, "items"), root, depth + 1, encode);
      }
    }
  }

  lemma {:induction false} Reads(e: Engine, value: Json, schema: Json, root: Json, depth: nat, encode: real -> string)
    requires Readable(e, schema, root, depth, encode) && Canonical(value, encode)
    ensures Unlimited(e, value, schema) <==> Instance(e, value, schema)
    decreases schema, 3
  {
    AllReads(e, value, schema, root, depth, encode);
    OneReads(e, value, schema, root, depth, encode);
    TypeAgrees(value, schema);
    EnumAgrees(value, schema, encode);
    match value {
      case Obj(fields) => ObjectReads(e, fields, schema, root, depth, encode);
      case Arr(items) => ArrayReads(e, items, schema, root, depth, encode);
      case Str(s) => SizeAgrees(schema, "minLength", "maxLength", |s|);
      case _ =>
    }
  }

  /**
   For accepted schemas without references the checker's verdict is the draft-07 meaning of the supported keywords,
   on every value, if constants and value are written canonically and counts fit the machine.
   */
  lemma AcceptedSchemaMeansWhatItSays(e: Engine, schema: Json, value: Json, encode: real -> string)
    requires Accepts(e, schema, schema, 0) && NoRefs(schema)
    requires Plain(schema, encode) && Canonical(value, encode)
    ensures Validates(e, MAX_DEPTH, value, schema, schema, 0) <==> Instance(e, value, schema)
  {
    LimitNeverDecides(e, schema, value);
    Reads(e, value, schema, schema, 0, encode);
  }

  // ----- where verdict and meaning part -----

  ghost predicate Differs(e: Engine, value: Json, schema: Json) {
    Validates(e, MAX_DEPTH, value, schema, schema, 0) != Instance(e, value, schema)
  }

  /** A schema with one keyword that holds no subschema. */
  function Single(keyword: string, raw: Json): Json {
    Obj(map[keyword := raw])
  }

  /** A schema whose keywords hold no subschema. */
  predicate Flat(schema: Json) {
    && schema.Obj?
    && schema.fields.Keys !! {"$ref", "allOf", "anyOf", "oneOf", "properties", "required", "items", "additionalProperties"}
  }

  /** What the checker tests at a node without subschemas. */
  predicate Checked(e: Engine, value: Json, schema: Json) {
    && EnumOk(value, schema) && TypeOk(value, schema)
    && (value.Str? ==> StringOk(e, value.s, schema))
    && (value.Number? ==> NumberOk(value, schema))
    && (value.Arr? ==> CountInRange(schema, "minItems", "maxItems", |value.items|))
    && (value.Obj? ==> CountInRange(schema, "minProperties", "maxProperties", |value.fields|))
  }

  /** What the standard asks at such a node. */
  ghost predicate Meant(e: Engine, value: Json, schema: Json) {
    && Enumerated(value, schema) && Constant(value, schema) && Typed(value, schema)
    && (value.Str? ==> Sized(schema, "minLength", "maxLength", |value.s|) && Patterned(e, value.s, schema))
    && (value.Number? ==> Within(value.value, schema))
    && (value.Arr? ==> Sized(schema, "minItems", "maxItems", |value.items|))
    && (value.Obj? ==> Sized(schema, "minProperties", "maxProperties", |value.fields|))
  }

  lemma FlatVerdict(e: Engine, value: Json, schema: Json)
    requires Flat(schema)
    ensures Validates(e, MAX_DEPTH, value, schema, schema, 0) <==> Checked(e, value, schema)
  {
    assert AllOk(e, MAX_DEPTH, value, schema, schema, 0);
    assert AnyOk(e, MAX_DEPTH, value, schema, schema, 0);
    assert OneOk(e, MAX_DEPTH, value, schema, schema, 0);
    if value.Obj? {
      forall name | name in value.fields ensures FieldOk(e, MAX_DEPTH, name, value.fields[name], schema, schema, 0) {
      }
    }
  }

  lemma FlatInstance(e: Engine, value: Json, schema: Json)
    requires Flat(schema)
    ensures Instance(e, value, schema) <==> Meant(e, value, schema)
  {
    if value.Obj? {
      assert RequiredThere(value.fields, schema);
      forall name | name in value.fields ensures FieldInstance(e, name, value.fields[name], schema) {
      }
    }
  }

  lemma FlatDiffers(e: Engine, value: Json, schema: Json)
    requires Flat(schema)
    ensures Differs(e, value, schema) <==> Checked(e, value, schema) != Meant(e, value, schema)
  {
    FlatVerdict(e, value, schema);
    FlatInstance(e, value, schema);
  }

  lemma SingleAccepted(e: Engine, keyword: string, raw: Json)
    requires keyword in {"const", "enum", "minLength", "minItems", "minProperties", "maxLength", "maxItems", "maxProperties"}
    ensures Flat(Single(keyword, raw)) && Accepts(e, Single(keyword, raw), Single(keyword, raw), 0)
  {
    var schema := Single(keyword, raw);
    assert schema.fields.Keys == {keyword};
    assert StringList(schema, "required") == Some([]) && Required(schema) == [];
    assert NodeAccepted(e, schema, schema);
  }

  /** A schema that only compares: what is tested and what is asked. */
  lemma OnlyCompares(e: Engine, keyword: string, raw: Json, value: Json)
    requires keyword in {"const", "enum"}
    ensures var schema := Single(keyword, raw);
            && (Checked(e, value, schema) <==> EnumOk(value, schema))
            && (Meant(e, value, schema) <==> Enumerated(value, schema) && Constant(value, schema))
  {
    assert Single(keyword, raw).fields.Keys == {keyword};
  }

  /** A schema that only counts. */
  lemma OnlyCounts(e: Engine, keyword: string, raw: Json, value: Json)
    requires keyword in {"minLength", "minItems", "minProperties"} && raw.Number?
    ensures var schema := Single(keyword, raw);
            var n := Size(value, keyword);
            && (Checked(e, value, schema)
                <==> (n >= 0 && CountKeyword(schema, keyword).Some? ==> n >= CountKeyword(schema, keyword).value))
            && (Meant(e, value, schema) <==> (n >= 0 && IsCount(schema, keyword) ==> n as real >= raw.value))
  {
    assert Single(keyword, raw).fields.Keys == {keyword};
  }

  /** The same for a largest count. */
  lemma OnlyLimits(e: Engine, keyword: string, raw: Json, value: Json)
    requires keyword in {"maxLength", "maxItems", "maxProperties"} && raw.Number?
    ensures var schema := Single(keyword, raw);
            var n := Size(value, keyword);
            && (Checked(e, value, schema)
                <==> (n >= 0 && CountKeyword(schema, keyword).Some? ==> n <= CountKeyword(schema, keyword).value))
            && (Meant(e, value, schema) <==> (n >= 0 && IsCount(schema, keyword) ==> n as real <= raw.value))
  {
    assert Single(keyword, raw).fields.Keys == {keyword};
  }

  /** How many characters, items or fields a keyword counts; negative for a value it does not apply to. */
  function Size(value: Json, keyword: string): int {
    match value
    case Str(s) => if keyword == "minLength" || keyword == "maxLength" then |s| else -1
    case Arr(items) => if keyword == "minItems" || keyword == "maxItems" then |items| else -1
    case Obj(fields) => if keyword == "minProperties" || keyword == "maxProperties" then |fields| else -1
    case _ => -1
  }

  /** On a constant the verdict departs from the standard exactly for equal values written differently. */
  lemma ConstDiffersExactly(e: Engine, c: Json, value: Json)
    ensures Accepts(e, Single("const", c), Single("const", c), 0)
    ensures Differs(e, value, Single("const", c)) <==> Equal(value, c) && value != c
  {
    SameIsEqual(c);
    SingleAccepted(e, "const", c);
    FlatDiffers(e, value, Single("const", c));
    OnlyCompares(e, "const", c, value);
  }

  /** For instance a constant written `1.0` rejects the number one. */
  lemma LiteralConstantRejectsEqualNumber(e: Engine)
    ensures var schema := Single("const", Number(1.0, "1.0"));
            !Validates(e, MAX_DEPTH, Number(1.0, "1"), schema, schema, 0) && Instance(e, Number(1.0, "1"), schema)
  {
    var schema := Single("const", Number(1.0, "1.0"));
    SingleAccepted(e, "const", Number(1.0, "1.0"));
    FlatVerdict(e, Number(1.0, "1"), schema);
    OnlyCompares(e, "const", Number(1.0, "1.0"), Number(1.0, "1"));
    ConstDiffersExactly(e, Number(1.0, "1.0"), Number(1.0, "1"));
  }

  /** On an enumeration it departs exactly when a candidate equals the value and none is written like it. */
  lemma EnumDiffersExactly(e: Engine, items: seq<Json>, value: Json)
    ensures Accepts(e, Single("enum", Arr(items)), Single("enum", Arr(items)), 0)
    ensures Differs(e, value, Single("enum", Arr(items)))
            <==> (exists i :: 0 <= i < |items| && Equal(value, items[i])) && value !in items
  {
    SameIsEqual(value);
    SingleAccepted(e, "enum", Arr(items));
    FlatDiffers(e, value, Single("enum", Arr(items)));
    OnlyCompares(e, "enum", Arr(items), value);
    EnumAlone(items, value);
  }

  lemma EnumAlone(items: seq<Json>, value: Json)
    ensures var schema := Single("enum", Arr(items));
            && (EnumOk(value, schema) <==> value in items)
            && (Enumerated(value, schema) && Constant(value, schema) <==> exists i :: 0 <= i < |items| && Equal(value, items[i]))
  {
    var schema := Single("enum", Arr(items));
    assert Get(schema, "enum").items == items && !Has(schema, "const");
    assert Enumerated(value, schema) <==> exists i :: 0 <= i < |items| && Equal(value, items[i]);
  }

  /** On a minimum it departs exactly when the count does not fit the machine and the value is too short for it. */
  lemma MinimumDiffersExactly(e: Engine, keyword: string, n: nat, text: string, value: Json)
    requires keyword in {"minLength", "minItems", "minProperties"}
    ensures var schema := Single(keyword, Number(n as real, text));
            && Accepts(e, schema, schema, 0)
            && (Differs(e, value, schema) <==> n > LARGEST && 0 <= Size(value, keyword) < n)
  {
    var raw := Number(n as real, text);
    assert Is(n as real, n);
    SingleAccepted(e, keyword, raw);
    FlatDiffers(e, value, Single(keyword, raw));
    OnlyCounts(e, keyword, raw, value);
  }

  /** On a maximum it departs exactly when the count does not fit the machine and the value is larger still. */
  lemma MaximumDiffersExactly(e: Engine, keyword: string, n: nat, text: string, value: Json)
    requires keyword in {"maxLength", "maxItems", "maxProperties"}
    ensures var schema := Single(keyword, Number(n as real, text));
            && Accepts(e, schema, schema, 0)
            && (Differs(e, value, schema) <==> LARGEST < n < Size(value, keyword))
  {
    var raw := Number(n as real, text);
    assert Is(n as real, n);
    SingleAccepted(e, keyword, raw);
    FlatDiffers(e, value, Single(keyword, raw));
    OnlyLimits(e, keyword, raw, value);
  }
}
