/** The checker as it runs: recursion over the schema with loops over branches, fields and items. */
module JsonSchemaCheck {
  import opened JsonSchema

  /** Counts the branches that accept. */
  method CountBranches(e: Engine, value: Json, branches: seq<Json>, root: Json, depth: nat) returns (matches: nat)
    requires depth <= MAX_DEPTH + 1
    ensures matches == Matching(e, MAX_DEPTH, value, branches, root, depth)
    decreases MAX_DEPTH + 1 - depth, 6
  {
    matches := 0;
    for i := 0 to |branches|
      invariant matches == Matching(e, MAX_DEPTH, value, branches[..i], root, depth)
    {
      assert branches[..i + 1][..i] == branches[..i];
      var ok := ValidateValue(e, value, Node(branches[i]), root, depth);
      if ok {
        matches := matches + 1;
      }
    }
    assert branches[..|branches|] == branches;
  }

  method SomeBranch(e: Engine, value: Json, branches: seq<Json>, root: Json, depth: nat) returns (matched: bool)
    requires depth <= MAX_DEPTH + 1
    ensures matched <==> exists i :: 0 <= i < |branches| && Validates(e, MAX_DEPTH, value, Node(branches[i]), root, depth)
    decreases MAX_DEPTH + 1 - depth, 6
  {
    matched := false;
    for i := 0 to |branches|
      invariant !matched && forall j :: 0 <= j < i ==> !Validates(e, MAX_DEPTH, value, Node(branches[j]), root, depth)
    {
      var ok := ValidateValue(e, value, Node(branches[i]), root, depth);
      if ok {
        return true;
      }
    }
  }

  method EveryBranch(e: Engine, value: Json, branches: seq<Json>, root: Json, depth: nat) returns (ok: bool)
    requires depth <= MAX_DEPTH + 1
    ensures ok <==> forall i :: 0 <= i < |branches| ==> Validates(e, MAX_DEPTH, value, Node(branches[i]), root, depth)
    decreases MAX_DEPTH + 1 - depth, 6
  {
    for i := 0 to |branches|
      invariant forall j :: 0 <= j < i ==> Validates(e, MAX_DEPTH, value, Node(branches[j]), root, depth)
    {
      ok := ValidateValue(e, value, Node(branches[i]), root, depth);
      if !ok {
        return;
      }
    }
    ok := true;
  }

  method ValidateField(e: Engine, name: string, value: Json, schema: Json, root: Json, depth: nat) returns (ok: bool)
    requires depth <= MAX_DEPTH
    ensures ok == FieldOk(e, MAX_DEPTH, name, value, schema, root, depth)
    ensures name !in Properties(schema) && (Has(schema, "additionalProperties") ==> !Get(schema, "additionalProperties").Obj?) ==>
              (ok <==> !(Has(schema, "additionalProperties") && Get(schema, "additionalProperties") == Bool(false)))
    decreases MAX_DEPTH + 1 - depth, 0
  {
    if name in Properties(schema) {
      ok := ValidateValue(e, value, Node(Properties(schema)[name]), root, depth + 1);
      return;
    }
    if !Has(schema, "additionalProperties") {
      return true;
    }
    match Get(schema, "additionalProperties")
    case Bool(b) => ok := b;
    case Obj(_) => ok := ValidateValue(e, value, Get(schema, "additionalProperties"), root, depth + 1);
    case _ => ok := true;
  }

  method HasRequired(fields: map<string, Json>, required: seq<string>) returns (ok: bool)
    ensures ok <==> forall name :: name in required ==> name in fields
  {
    for i := 0 to |required|
      invariant forall j :: 0 <= j < i ==> required[j] in fields
    {
      if required[i] !in fields {
        return false;
      }
    }
    ok := true;
  }

  /** Visits the fields in whatever order the map yields them. */
  method ValidateFields(e: Engine, fields: map<string, Json>, schema: Json, root: Json, depth: nat) returns (ok: bool)
    requires depth <= MAX_DEPTH
    ensures ok <==> forall name :: name in fields ==> FieldOk(e, MAX_DEPTH, name, fields[name], schema, root, depth)
    decreases MAX_DEPTH + 1 - depth, 1
  {
    var names := fields.Keys;
    while names != {}
      invariant names <= fields.Keys
      invariant forall name :: name in fields && name !in names ==> FieldOk(e, MAX_DEPTH, name, fields[name], schema, root, depth)
      decreases |names|
    {
      var name :| name in names;
      names := names - {name};
      ok := ValidateField(e, name, fields[name], schema, root, depth);
      if !ok {
        return;
      }
    }
    ok := true;
  }

  method ValidateObject(e: Engine, fields: map<string, Json>, schema: Json, root: Json, depth: nat) returns (ok: bool)
    requires depth <= MAX_DEPTH
    ensures ok == ObjectOk(e, MAX_DEPTH, fields, schema, root, depth)
    decreases MAX_DEPTH + 1 - depth, 2
  {
    ok := HasRequired(fields, Required(schema));
    if !ok {
      return;
    }
    ok := ValidateFields(e, fields, schema, root, depth);
    if !ok {
      return;
    }
    ok := CountInRange(schema, "minProperties", "maxProperties", |fields|);
  }

  method ValidateArray(e: Engine, items: seq<Json>, schema: Json, root: Json, depth: nat) returns (ok: bool)
    requires depth <= MAX_DEPTH
    ensures ok == ArrayOk(e, MAX_DEPTH, items, schema, root, depth)
    decreases MAX_DEPTH + 1 - depth, 1
  {
    if !CountInRange(schema, "minItems", "maxItems", |items|) {
      return false;
    }
    if !Has(schema, "items") || !Get(schema, "items").Obj? {
      return true;
    }
    for i := 0 to |items|
      invariant forall j :: 0 <= j < i ==> Validates(e, MAX_DEPTH, items[j], Get(schema, "items"), root, depth + 1)
    {
      ok := ValidateValue(e, items[i], Get(schema, "items"), root, depth + 1);
      if !ok {
        return;
      }
    }
    ok := true;
  }

  method ValidateAll(e: Engine, value: Json, schema: Json, root: Json, depth: nat) returns (ok: bool)
    requires depth <= MAX_DEPTH
    ensures ok == AllOk(e, MAX_DEPTH, value, schema, root, depth)
    decreases MAX_DEPTH + 1 - depth, 1
  {
    ok := true;
    if HasBranches(schema, "allOf") {
      ok := EveryBranch(e, value, Branches(schema, "allOf"), root, depth + 1);
    }
  }

  method ValidateAny(e: Engine, value: Json, schema: Json, root: Json, depth: nat) returns (ok: bool)
    requires depth <= MAX_DEPTH
    ensures ok == AnyOk(e, MAX_DEPTH, value, schema, root, depth)
    decreases MAX_DEPTH + 1 - depth, 1
  {
    ok := true;
    if HasBranches(schema, "anyOf") {
      ok := SomeBranch(e, value, Branches(schema, "anyOf"), root, depth + 1);
    }
  }

  method ValidateOne(e: Engine, value: Json, schema: Json, root: Json, depth: nat) returns (ok: bool)
    requires depth <= MAX_DEPTH
    ensures ok == OneOk(e, MAX_DEPTH, value, schema, root, depth)
    decreases MAX_DEPTH + 1 - depth, 1
  {
    ok := true;
    if HasBranches(schema, "oneOf") {
      var matches := CountBranches(e, value, Branches(schema, "oneOf"), root, depth + 1);
      ok := matches == 1;
    }
  }

  method ValidateKind(e: Engine, value: Json, schema: Json, root: Json, depth: nat) returns (ok: bool)
    requires depth <= MAX_DEPTH
    ensures ok == KindOk(e, MAX_DEPTH, value, schema, root, depth)
    decreases MAX_DEPTH + 1 - depth, 3
  {
    match value
    case Obj(fields) => ok := ValidateObject(e, fields, schema, root, depth);
    case Arr(items) => ok := ValidateArray(e, items, schema, root, depth);
    case Str(s) => ok := StringOk(e, s, schema);
    case Number(_, _) => ok := NumberOk(value, schema);
    case _ => ok := true;
  }

  /** Every keyword of a schema without a reference. */
  method ValidateKeywords(e: Engine, value: Json, schema: Json, root: Json, depth: nat) returns (ok: bool)
    requires depth <= MAX_DEPTH && !HasRef(schema)
    ensures ok == Validates(e, MAX_DEPTH, value, schema, root, depth)
    decreases MAX_DEPTH + 1 - depth, 4
  {
    var all := ValidateAll(e, value, schema, root, depth);
    if !all {
      return false;
    }
    var any := ValidateAny(e, value, schema, root, depth);
    if !any {
      return false;
    }
    var one := ValidateOne(e, value, schema, root, depth);
    if !one || !EnumOk(value, schema) || !TypeOk(value, schema) {
      return false;
    }
    ok := ValidateKind(e, value, schema, root, depth);
  }

  /** The depth-limited checker; it terminates on every schema, circular references included. */
  method ValidateValue(e: Engine, value: Json, schema: Json, root: Json, depth: nat) returns (ok: bool)
    requires depth <= MAX_DEPTH + 1
    ensures ok == Validates(e, MAX_DEPTH, value, schema, root, depth)
    ensures depth > 32 ==> !ok
    ensures HasRef(schema) && ok ==>
              var target := ResolveRef(root, schema.fields["$ref"].s);
              target.Some? && Validates(e, MAX_DEPTH, value, target.value, root, depth + 1)
    decreases MAX_DEPTH + 1 - depth, 5
  {
    if depth > MAX_DEPTH {
      return false;
    }
    if HasRef(schema) {
      var target := ResolveRef(root, Get(schema, "$ref").s);
      if target.None? {
        return false;
      }
      ok := ValidateValue(e, value, target.value, root, depth + 1);
      return;
    }
    ok := ValidateKeywords(e, value, schema, root, depth);
  }
}
