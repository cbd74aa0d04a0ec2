/** Which schemas are accepted: the recursive check as it runs, and what it demands of every schema nested in another. */
module JsonAccept {
  import opened Options
  import opened JsonSchema

  // ----- nested schemas -----

  predicate PropertyOf(parent: Json, child: Json, name: string) {
    && parent.Obj? && "properties" in parent.fields && parent.fields["properties"].Obj?
    && name in parent.fields["properties"].fields && child == parent.fields["properties"].fields[name]
  }

  predicate BranchOf(parent: Json, child: Json, keyword: string, i: nat) {
    && keyword in {"allOf", "anyOf", "oneOf"} && parent.Obj? && keyword in parent.fields && parent.fields[keyword].Arr?
    && i < |parent.fields[keyword].items| && child == parent.fields[keyword].items[i]
  }

  /** `child` is a schema directly inside `parent`. */
  ghost predicate Child(parent: Json, child: Json) {
    || (exists name :: PropertyOf(parent, child, name))
    || (exists keyword, i: nat :: BranchOf(parent, child, keyword, i))
    || (parent.Obj? && "items" in parent.fields && child == parent.fields["items"])
    || (parent.Obj? && "additionalProperties" in parent.fields && !parent.fields["additionalProperties"].Bool?
        && child == parent.fields["additionalProperties"])
  }

  /** Each schema of the chain is directly inside the one before, from `schema` on. */
  ghost predicate Nested(schema: Json, chain: seq<Json>) {
    && chain != [] && chain[0] == schema
    && forall i :: 0 < i < |chain| ==> Child(chain[i - 1], chain[i])
  }

  predicate TypeName(raw: Json) {
    raw.Str? && raw.s in {"object", "array", "string", "number", "integer", "boolean", "null"}
  }

  /** One known type, or a list of them. */
  predicate SoundType(raw: Json) {
    TypeName(raw) || (raw.Arr? && |raw.items| > 0 && forall i :: 0 <= i < |raw.items| ==> TypeName(raw.items[i]))
  }

  /** A list that names declared properties, none twice. */
  predicate SoundRequired(raw: Json, properties: map<string, Json>) {
    raw.Null?
    || (raw.Arr?
        && (forall i :: 0 <= i < |raw.items| ==> raw.items[i].Str? && raw.items[i].s != "" && raw.items[i].s in properties)
        && forall i, j :: 0 <= i < j < |raw.items| ==> raw.items[i] != raw.items[j])
  }

  /** What is demanded of one schema, whatever is nested in it. */
  predicate Sound(e: Engine, schema: Json, root: Json) {
    && schema.Obj?
    && var f := schema.fields;
       var properties := if "properties" in f && f["properties"].Obj? then f["properties"].fields else map[];
       && ("$ref" in f && f["$ref"].Str? ==> ResolveRef(root, f["$ref"].s).Some?)
       && ("type" in f ==> SoundType(f["type"]))
       && ("pattern" in f && f["pattern"].Str? ==> e.compiles(f["pattern"].s))
       && ("properties" in f ==> f["properties"].Null? || f["properties"].Obj?)
       && ("required" in f ==> SoundRequired(f["required"], properties))
       && ("additionalProperties" in f ==> f["additionalProperties"].Bool? || f["additionalProperties"].Obj?)
       && forall keyword :: keyword in {"allOf", "anyOf", "oneOf"} && keyword in f ==> f[keyword].Arr? && f[keyword].items != []
  }

  lemma {:induction false} NamesOf(items: seq<Json>, name: string)
    requires forall i :: 0 <= i < |items| ==> items[i].Str?
    ensures name in Names(items) <==> exists i :: 0 <= i < |items| && items[i].s == name
  {
    if items != [] {
      var n := |items| - 1;
      NamesOf(items[..n], name);
      assert forall i :: 0 <= i < n ==> items[..n][i] == items[i];
    }
  }

  lemma RequiredExactly(schema: Json)
    requires schema.Obj?
    ensures StringList(schema, "required").Some? && (forall name :: name in Required(schema) ==> name in Properties(schema))
            <==> ("required" in schema.fields ==> SoundRequired(schema.fields["required"], Properties(schema)))
  {
    if "required" in schema.fields && schema.fields["required"].Arr? && StringList(schema, "required").Some? {
      var items := schema.fields["required"].items;
      forall name ensures name in Required(schema) <==> exists i :: 0 <= i < |items| && items[i].s == name {
        NamesOf(items, name);
      }
    }
  }

  lemma SoundExactly(e: Engine, schema: Json, root: Json)
    ensures NodeAccepted(e, schema, root) <==> Sound(e, schema, root)
  {
    if schema.Obj? {
      RequiredExactly(schema);
      TypeExactly(schema);
      assert Properties(schema)
          == if "properties" in schema.fields && schema.fields["properties"].Obj? then schema.fields["properties"].fields else map[];
      forall keyword | keyword in {"allOf", "anyOf", "oneOf"}
        ensures Has(schema, keyword) <==> keyword in schema.fields
        ensures keyword in schema.fields ==> Get(schema, keyword) == schema.fields[keyword]
      {
      }
    }
  }

  lemma TypeExactly(schema: Json)
    requires schema.Obj?
    ensures TypeAccepted(schema) <==> ("type" in schema.fields ==> SoundType(schema.fields["type"]))
  {
  }

  // ----- acceptance -----

  lemma ChildIsSmaller(parent: Json, child: Json)
    requires Child(parent, child)
    ensures child < parent
  {
    if name :| PropertyOf(parent, child, name) {
      assert parent.fields["properties"] < parent;
    } else if keyword, i: nat :| BranchOf(parent, child, keyword, i) {
      assert parent.fields[keyword] < parent;
    }
  }

  /** Every schema directly inside is accepted one level deeper. */
  ghost predicate ChildrenAccepted(e: Engine, node: Json, root: Json, depth: nat) {
    forall child :: Child(node, child) ==> Accepts(e, child, root, depth + 1)
  }

  lemma AcceptedChildren(e: Engine, node: Json, root: Json, depth: nat)
    requires Accepts(e, node, root, depth)
    ensures ChildrenAccepted(e, node, root, depth)
  {
    forall child | Child(node, child) ensures Accepts(e, child, root, depth + 1) {
      if name :| PropertyOf(node, child, name) {
        assert child == Properties(node)[name];
      } else if keyword, i: nat :| BranchOf(node, child, keyword, i) {
        assert HasBranches(node, keyword) && child == Branches(node, keyword)[i];
      } else if "items" in node.fields && child == node.fields["items"] {
        assert Has(node, "items") && child == Get(node, "items");
      } else {
        assert Has(node, "additionalProperties") && child == Get(node, "additionalProperties");
      }
    }
  }

  lemma ChildrenSuffice(e: Engine, node: Json, root: Json, depth: nat)
    requires depth <= MAX_DEPTH && NodeAccepted(e, node, root) && ChildrenAccepted(e, node, root, depth)
    ensures Accepts(e, node, root, depth)
  {
    forall name | name in Properties(node) ensures Accepts(e, Properties(node)[name], root, depth + 1) {
      assert PropertyOf(node, Properties(node)[name], name);
      assert Child(node, Properties(node)[name]);
    }
    assert Has(node, "items") ==> Child(node, Get(node, "items"));
    assert Has(node, "additionalProperties") && !Get(node, "additionalProperties").Bool? ==>
             Child(node, Get(node, "additionalProperties"));
    forall keyword, i: nat | keyword in {"allOf", "anyOf", "oneOf"} && HasBranches(node, keyword) && i < |Branches(node, keyword)|
      ensures Accepts(e, Branches(node, keyword)[i], root, depth + 1)
    {
      assert BranchOf(node, Branches(node, keyword)[i], keyword, i);
      assert Child(node, Branches(node, keyword)[i]);
    }
  }

  /** Every schema nested in this one, at whatever depth up to the limit, is sound; and none is nested deeper. */
  ghost predicate AllSound(e: Engine, schema: Json, root: Json, depth: nat) {
    forall chain :: Nested(schema, chain) ==> depth + |chain| - 1 <= 32 && Sound(e, chain[|chain| - 1], root)
  }

  lemma {:induction false} AcceptedIsSound(e: Engine, schema: Json, root: Json, depth: nat, chain: seq<Json>)
    requires Accepts(e, schema, root, depth) && Nested(schema, chain)
    ensures depth + |chain| - 1 <= 32 && Sound(e, chain[|chain| - 1], root)
    decreases |chain|
  {
    if |chain| == 1 {
      SoundExactly(e, schema, root);
    } else {
      AcceptedChildren(e, schema, root, depth);
      assert Child(chain[0], chain[1]);
      AcceptedIsSound(e, chain[1], root, depth + 1, chain[1..]);
    }
  }

  lemma NestedCons(parent: Json, child: Json, chain: seq<Json>)
    requires Child(parent, child) && Nested(child, chain)
    ensures Nested(parent, [parent] + chain)
  {
  }

  lemma ChildSound(e: Engine, schema: Json, child: Json, root: Json, depth: nat)
    requires AllSound(e, schema, root, depth) && Child(schema, child)
    ensures AllSound(e, child, root, depth + 1)
  {
    forall chain | Nested(child, chain) ensures depth + 1 + |chain| - 1 <= 32 && Sound(e, chain[|chain| - 1], root) {
      NestedCons(schema, child, chain);
      var longer := [schema] + chain;
      assert longer[|longer| - 1] == chain[|chain| - 1];
    }
  }

  lemma ItselfSound(e: Engine, schema: Json, root: Json, depth: nat)
    requires AllSound(e, schema, root, depth)
    ensures depth <= 32 && Sound(e, schema, root)
  {
    assert Nested(schema, [schema]) && |[schema]| == 1 && [schema][0] == schema;
  }

  lemma {:induction false} SoundIsAccepted(e: Engine, schema: Json, root: Json, depth: nat)
    requires AllSound(e, schema, root, depth)
    ensures Accepts(e, schema, root, depth)
    decreases schema
  {
    forall child | Child(schema, child) ensures Accepts(e, child, root, depth + 1) {
      ChildIsSmaller(schema, child);
      ChildSound(e, schema, child, root, depth);
      SoundIsAccepted(e, child, root, depth + 1);
    }
    ItselfSound(e, schema, root, depth);
    SoundExactly(e, schema, root);
    ChildrenSuffice(e, schema, root, depth);
  }

  /** A schema is accepted if and only if every schema nested in it is sound and at most 32 levels down. */
  lemma AcceptedExactly(e: Engine, schema: Json)
    ensures Accepts(e, schema, schema, 0) <==> AllSound(e, schema, schema, 0)
  {
    if Accepts(e, schema, schema, 0) {
      forall chain | Nested(schema, chain) ensures |chain| - 1 <= 32 && Sound(e, chain[|chain| - 1], schema) {
        AcceptedIsSound(e, schema, schema, 0, chain);
      }
    } else if AllSound(e, schema, schema, 0) {
      SoundIsAccepted(e, schema, schema, 0);
    }
  }

  // ----- the check as it runs -----

  method ValidateBranches(e: Engine, node: Json, keyword: string, root: Json, depth: nat) returns (ok: bool)
    requires HasBranches(node, keyword)
    ensures ok <==> forall i :: 0 <= i < |Branches(node, keyword)| ==> Accepts(e, Branches(node, keyword)[i], root, depth + 1)
    decreases node, 0
  {
    var branches := Branches(node, keyword);
    for i := 0 to |branches|
      invariant forall j :: 0 <= j < i ==> Accepts(e, branches[j], root, depth + 1)
    {
      ok := ValidateSchemaNode(e, branches[i], root, depth + 1);
      if !ok {
        return;
      }
    }
    ok := true;
  }

  /** Visits the properties in whatever order the map yields them. */
  method ValidateProperties(e: Engine, node: Json, root: Json, depth: nat) returns (ok: bool)
    ensures ok <==> forall name :: name in Properties(node) ==> Accepts(e, Properties(node)[name], root, depth + 1)
    decreases node, 0
  {
    var names := Properties(node).Keys;
    while names != {}
      invariant names <= Properties(node).Keys
      invariant forall name :: name in Properties(node) && name !in names ==> Accepts(e, Properties(node)[name], root, depth + 1)
      decreases |names|
    {
      var name :| name in names;
      names := names - {name};
      ok := ValidateSchemaNode(e, Properties(node)[name], root, depth + 1);
      if !ok {
        return;
      }
    }
    ok := true;
  }

  method ValidateCombinators(e: Engine, node: Json, root: Json, depth: nat) returns (ok: bool)
    ensures ok <==> forall keyword :: keyword in {"allOf", "anyOf", "oneOf"} && HasBranches(node, keyword) ==>
                      forall i :: 0 <= i < |Branches(node, keyword)| ==> Accepts(e, Branches(node, keyword)[i], root, depth + 1)
    decreases node, 1
  {
    var keywords := ["allOf", "anyOf", "oneOf"];
    for k := 0 to |keywords|
      invariant forall j :: 0 <= j < k && HasBranches(node, keywords[j]) ==>
                  forall i :: 0 <= i < |Branches(node, keywords[j])| ==>
                    Accepts(e, Branches(node, keywords[j])[i], root, depth + 1)
    {
      if HasBranches(node, keywords[k]) {
        ok := ValidateBranches(e, node, keywords[k], root, depth);
        if !ok {
          assert keywords[k] in {"allOf", "anyOf", "oneOf"};
          return;
        }
      }
    }
    assert keywords[0] == "allOf" && keywords[1] == "anyOf" && keywords[2] == "oneOf";
    ok := true;
  }

  method ValidateSchemaNode(e: Engine, node: Json, root: Json, depth: nat) returns (ok: bool)
    ensures ok == Accepts(e, node, root, depth)
    decreases node, 2
  {
    if depth > MAX_DEPTH || !NodeAccepted(e, node, root) {
      return false;
    }
    ok := ValidateProperties(e, node, root, depth);
    if !ok {
      return;
    }
    if Has(node, "items") {
      ok := ValidateSchemaNode(e, Get(node, "items"), root, depth + 1);
      if !ok {
        return;
      }
    }
    if Has(node, "additionalProperties") && !Get(node, "additionalProperties").Bool? {
      ok := ValidateSchemaNode(e, Get(node, "additionalProperties"), root, depth + 1);
      if !ok {
        return;
      }
    }
    ok := ValidateCombinators(e, node, root, depth);
  }
}
