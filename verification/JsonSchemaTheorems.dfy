/** The nesting limit never decides the verdict on an accepted schema; and what references do. */
module JsonSchemaTheorems {
  import opened Options
  import opened JsonSchema

  /** Acceptance and freedom from references, together, as they are inherited by subschemas. */
  ghost predicate Good(e: Engine, schema: Json, root: Json, depth: nat) {
    Accepts(e, schema, root, depth) && NoRefs(schema)
  }

  function CountTrue(v: seq<bool>): nat {
    if v == [] then 0 else CountTrue(v[..|v| - 1]) + if v[|v| - 1] then 1 else 0
  }

  lemma {:induction false} CountNone(v: seq<bool>)
    ensures CountTrue(v) == 0 <==> forall j :: 0 <= j < |v| ==> !v[j]
  {
    if v != [] {
      CountNone(v[..|v| - 1]);
    }
  }

  ghost predicate OnlyAt(v: seq<bool>, i: nat) {
    i < |v| && v[i] && forall j :: 0 <= j < |v| && j != i ==> !v[j]
  }

  lemma {:induction false} CountOnly(v: seq<bool>, i: nat)
    requires OnlyAt(v, i)
    ensures CountTrue(v) == 1
  {
    var n := |v| - 1;
    if i < n {
      assert OnlyAt(v[..n], i);
      CountOnly(v[..n], i);
    } else {
      CountNone(v[..n]);
    }
  }

  /** Counting to exactly one is finding the only one. */
  lemma {:induction false} FindOnly(v: seq<bool>) returns (i: nat)
    requires CountTrue(v) == 1
    ensures OnlyAt(v, i)
  {
    var n := |v| - 1;
    if v[n] {
      CountNone(v[..n]);
      assert forall j :: 0 <= j < n ==> v[j] == v[..n][j];
      i := n;
    } else {
      i := FindOnly(v[..n]);
      assert v[..n][i] == v[i];
      assert forall j :: 0 <= j < n ==> v[j] == v[..n][j];
    }
  }

  lemma {:induction false} MatchingCounts(e: Engine, limit: nat, value: Json, branches: seq<Json>, root: Json, depth: nat, v: seq<bool>)
    requires depth <= limit + 1 && |v| == |branches|
    requires forall j :: 0 <= j < |branches| ==> Validates(e, limit, value, Node(branches[j]), root, depth) == v[j]
    ensures Matching(e, limit, value, branches, root, depth) == CountTrue(v)
  {
    if branches != [] {
      MatchingCounts(e, limit, value, branches[..|branches| - 1], root, depth, v[..|v| - 1]);
    }
  }

  /** A number that has one of the allowed types passes the second integrality test. */
  lemma SecondIntegerTest(value: Json, schema: Json)
    requires value.Number? && TypeOk(value, schema)
    ensures NumberOk(value, schema) <==> RangeOk(value.value, schema)
  {
    if Types(schema) != [] {
      var i :| 0 <= i < |Types(schema)| && HasType(value, Types(schema)[i]);
    }
  }

  ghost predicate Agree(e: Engine, limit: nat, value: Json, schema: Json, root: Json, depth: nat) {
    Validates(e, limit, value, schema, root, depth) <==> Unlimited(e, value, schema)
  }

  lemma {:induction false} BranchAgrees(e: Engine, limit: nat, value: Json, schema: Json, root: Json, depth: nat, keyword: string, i: nat)
    requires limit >= MAX_DEPTH && Good(e, schema, root, depth) && keyword in {"allOf", "anyOf", "oneOf"}
    requires HasBranches(schema, keyword) && i < |Branches(schema, keyword)|
    ensures Node(Branches(schema, keyword)[i]) == Branches(schema, keyword)[i]
    ensures Agree(e, limit, value, Branches(schema, keyword)[i], root, depth + 1)
    decreases schema, 0
  {
    Agreement(e, limit, value, Branches(schema, keyword)[i], root, depth + 1);
  }

  lemma {:induction false} AllAgrees(e: Engine, limit: nat, value: Json, schema: Json, root: Json, depth: nat)
    requires limit >= MAX_DEPTH && Good(e, schema, root, depth)
    ensures AllOk(e, limit, value, schema, root, depth) <==> UnlimitedAll(e, value, schema)
    decreases schema, 1
  {
    if HasBranches(schema, "allOf") {
      forall i | 0 <= i < |Branches(schema, "allOf")|
        ensures Validates(e, limit, value, Node(Branches(schema, "allOf")[i]), root, depth + 1)
                == Unlimited(e, value, Branches(schema, "allOf")[i])
      {
        BranchAgrees(e, limit, value, schema, root, depth, "allOf", i);
      }
    }
  }

  lemma {:induction false} AnyAgrees(e: Engine, limit: nat, value: Json, schema: Json, root: Json, depth: nat)
    requires limit >= MAX_DEPTH && Good(e, schema, root, depth)
    ensures AnyOk(e, limit, value, schema, root, depth) <==> UnlimitedAny(e, value, schema)
    decreases schema, 1
  {
    if HasBranches(schema, "anyOf") {
      forall i | 0 <= i < |Branches(schema, "anyOf")|
        ensures Validates(e, limit, value, Node(Branches(schema, "anyOf")[i]), root, depth + 1)
                == Unlimited(e, value, Branches(schema, "anyOf")[i])
      {
        BranchAgrees(e, limit, value, schema, root, depth, "anyOf", i);
      }
    }
  }

  lemma {:induction false} OneVerdicts(e: Engine, limit: nat, value: Json, schema: Json, root: Json, depth: nat) returns (v: seq<bool>)
    requires limit >= MAX_DEPTH && Good(e, schema, root, depth) && HasBranches(schema, "oneOf")
    ensures |v| == |Branches(schema, "oneOf")|
    ensures forall i :: 0 <= i < |v| ==> v[i] == Unlimited(e, value, Branches(schema, "oneOf")[i])
    ensures forall i :: 0 <= i < |v| ==> v[i] == Validates(e, limit, value, Node(Branches(schema, "oneOf")[i]), root, depth + 1)
    decreases schema, 1
  {
    var branches := Branches(schema, "oneOf");
    v := seq(|branches|, i requires 0 <= i < |branches| => Unlimited(e, value, branches[i]));
    forall i | 0 <= i < |branches| ensures v[i] == Validates(e, limit, value, Node(branches[i]), root, depth + 1) {
      BranchAgrees(e, limit, value, schema, root, depth, "oneOf", i);
    }
  }

  lemma {:induction false} OneAgrees(e: Engine, limit: nat, value: Json, schema: Json, root: Json, depth: nat)
    requires limit >= MAX_DEPTH && Good(e, schema, root, depth)
    ensures OneOk(e, limit, value, schema, root, depth) <==> UnlimitedOne(e, value, schema)
    decreases schema, 2
  {
    if HasBranches(schema, "oneOf") {
      var v := OneVerdicts(e, limit, value, schema, root, depth);
      OneIsOne(e, value, schema, v);
      MatchingCounts(e, limit, value, Branches(schema, "oneOf"), root, depth + 1, v);
      assert OneOk(e, limit, value, schema, root, depth) <==> CountTrue(v) == 1;
    }
  }

  lemma OneIsOne(e: Engine, value: Json, schema: Json, v: seq<bool>)
    requires HasBranches(schema, "oneOf") && |v| == |Branches(schema, "oneOf")|
    requires forall i :: 0 <= i < |v| ==> v[i] == Unlimited(e, value, Branches(schema, "oneOf")[i])
    ensures UnlimitedOne(e, value, schema) <==> CountTrue(v) == 1
  {
    if CountTrue(v) == 1 {
      var i := FindOnly(v);
      assert OnlyBranch(e, value, schema, i);
    }
    forall i | 0 <= i < |v| && OnlyBranch(e, value, schema, i) ensures CountTrue(v) == 1 {
      assert OnlyAt(v, i);
      CountOnly(v, i);
    }
  }

  lemma {:induction false} ObjectAgrees(e: Engine, limit: nat, fields: map<string, Json>, schema: Json, root: Json, depth: nat)
    requires limit >= MAX_DEPTH && Good(e, schema, root, depth)
    ensures ObjectOk(e, limit, fields, schema, root, depth) <==> UnlimitedObject(e, fields, schema)
    decreases schema, 1
  {
    forall name | name in fields
      ensures FieldOk(e, limit, name, fields[name], schema, root, depth) <==> FieldUnlimited(e, name, fields[name], schema)
    {
      FieldAgrees(e, limit, name, fields[name], schema, root, depth);
    }
    FieldsUnlimited(e, fields, schema);
  }

  /** What one field must meet. */
  ghost predicate FieldUnlimited(e: Engine, name: string, value: Json, schema: Json) {
    if name in Properties(schema) then Unlimited(e, value, Properties(schema)[name])
    else if !Has(schema, "additionalProperties") then true
    else if Get(schema, "additionalProperties").Bool? then Get(schema, "additionalProperties").b
    else Unlimited(e, value, Get(schema, "additionalProperties"))
  }

  lemma FieldsUnlimited(e: Engine, fields: map<string, Json>, schema: Json)
    ensures UnlimitedObject(e, fields, schema)
            <==> (forall name :: name in Required(schema) ==> name in fields)
                 && (forall name :: name in fields ==> FieldUnlimited(e, name, fields[name], schema))
                 && CountInRange(schema, "minProperties", "maxProperties", |fields|)
  {
  }

  lemma {:induction false} FieldAgrees(e: Engine, limit: nat, name: string, value: Json, schema: Json, root: Json, depth: nat)
    requires limit >= MAX_DEPTH && Good(e, schema, root, depth)
    ensures FieldOk(e, limit, name, value, schema, root, depth) <==> FieldUnlimited(e, name, value, schema)
    decreases schema, 0
  {
    if name in Properties(schema) {
      assert Accepts(e, Properties(schema)[name], root, depth + 1);
      Agreement(e, limit, value, Properties(schema)[name], root, depth + 1);
    } else if Has(schema, "additionalProperties") && !Get(schema, "additionalProperties").Bool? {
      Agreement(e, limit, value, Get(schema, "additionalProperties"), root, depth + 1);
    }
  }

  lemma {:induction false} ArrayAgrees(e: Engine, limit: nat, items: seq<Json>, schema: Json, root: Json, depth: nat)
    requires limit >= MAX_DEPTH && Good(e, schema, root, depth)
    ensures ArrayOk(e, limit, items, schema, root, depth) <==> UnlimitedArray(e, items, schema)
    decreases schema, 1
  {
    if Has(schema, "items") {
      assert Accepts(e, Get(schema, "items"), root, depth + 1);
      assert Get(schema, "items").Obj?;
      forall i | 0 <= i < |items| ensures Agree(e, limit, items[i], Get(schema, "items"), root, depth + 1) {
        Agreement(e, limit, items[i], Get(schema, "items"), root, depth + 1);
      }
    }
  }

  /**
   For an accepted schema without references, the verdict with any cut-off of at least the accepted depth is the
   verdict without one.
   */
  lemma {:induction false} Agreement(e: Engine, limit: nat, value: Json, schema: Json, root: Json, depth: nat)
    requires limit >= MAX_DEPTH && Good(e, schema, root, depth)
    ensures Agree(e, limit, value, schema, root, depth)
    decreases schema, 3
  {
    AllAgrees(e, limit, value, schema, root, depth);
    AnyAgrees(e, limit, value, schema, root, depth);
    OneAgrees(e, limit, value, schema, root, depth);
    match value {
      case Obj(fields) => ObjectAgrees(e, limit, fields, schema, root, depth);
      case Arr(items) => ArrayAgrees(e, limit, items, schema, root, depth);
      case Number(_, _) =>
        if TypeOk(value, schema) {
          SecondIntegerTest(value, schema);
        }
      case _ =>
    }
  }

  /** On accepted schemas without references the limit is never what decides. */
  lemma LimitNeverDecides(e: Engine, schema: Json, value: Json)
    requires Accepts(e, schema, schema, 0) && NoRefs(schema)
    ensures Validates(e, MAX_DEPTH, value, schema, schema, 0) <==> Unlimited(e, value, schema)
    ensures forall limit :: limit >= MAX_DEPTH ==>
              (Validates(e, limit, value, schema, schema, 0) <==> Validates(e, MAX_DEPTH, value, schema, schema, 0))
  {
    forall limit | limit >= MAX_DEPTH
      ensures Validates(e, limit, value, schema, schema, 0) <==> Unlimited(e, value, schema)
    {
      Agreement(e, limit, value, schema, schema, 0);
    }
  }

  // ----- references -----

  /** A reference that leads back to its own schema runs into the limit: such a schema rejects every value. */
  lemma {:induction false} CircularReferenceRejects(e: Engine, limit: nat, value: Json, schema: Json, root: Json, depth: nat)
    requires HasRef(schema) && ResolveRef(root, Get(schema, "$ref").s) == Some(schema)
    ensures !Validates(e, limit, value, schema, root, depth)
    decreases limit + 1 - depth
  {
    if depth <= limit {
      CircularReferenceRejects(e, limit, value, schema, root, depth + 1);
    }
  }

  /** How a member name is written inside a reference, after RFC 6901, section 3. */
  function Escape(name: string): string {
    if name == "" then ""
    else (if name[0] == '~' then "~0" else if name[0] == '/' then "~1" else [name[0]]) + Escape(name[1..])
  }

  function EscapeTilde(name: string): string {
    if name == "" then "" else (if name[0] == '~' then "~0" else [name[0]]) + EscapeTilde(name[1..])
  }

  lemma {:induction false} SlashesBack(name: string)
    ensures Replace(Escape(name), '1', '/') == EscapeTilde(name)
  {
    if name != "" {
      SlashesBack(name[1..]);
      var rest := Escape(name[1..]);
      var text := Escape(name);
      if name[0] == '~' {
        assert text == ['~', '0'] + rest && text[1..] == ['0'] + rest && text[1..][1..] == rest;
      } else if name[0] == '/' {
        assert text == ['~', '1'] + rest && text[2..] == rest;
      } else {
        assert text == [name[0]] + rest && text[1..] == rest;
      }
    }
  }

  lemma {:induction false} TildesBack(name: string)
    ensures Replace(EscapeTilde(name), '0', '~') == name
  {
    if name != "" {
      TildesBack(name[1..]);
      var rest := EscapeTilde(name[1..]);
      var text := EscapeTilde(name);
      if name[0] == '~' {
        assert text == ['~', '0'] + rest && text[2..] == rest;
      } else {
        assert text == [name[0]] + rest && text[1..] == rest;
      }
    }
  }

  function Pointer(names: seq<string>): string
    requires names != []
  {
    if |names| == 1 then Escape(names[0]) else Escape(names[0]) + "/" + Pointer(names[1..])
  }

  lemma {:induction false} EscapeHasNoSlash(name: string)
    ensures '/' !in Escape(name)
  {
    if name != "" {
      EscapeHasNoSlash(name[1..]);
    }
  }

  lemma {:induction false} TokensOf(token: string, rest: Option<string>)
    requires '/' !in token
    ensures Tokens(if rest.Some? then token + "/" + rest.value else token)
            == if rest.Some? then [token] + Tokens(rest.value) else [token]
  {
    var text := if rest.Some? then token + "/" + rest.value else token;
    if token == "" {
      if rest.Some? {
        assert text == ['/'] + rest.value && text[1..] == rest.value;
      }
    } else {
      TokensOf(token[1..], rest);
      assert text[0] == token[0] && text[0] in token;
      assert text[1..] == if rest.Some? then token[1..] + "/" + rest.value else token[1..];
      var more := Tokens(text[1..]);
      assert [text[0]] + more[0] == token;
      assert Tokens(text) == [token] + more[1..];
    }
  }

  /** Following member names one by one. */
  function Member(current: Json, names: seq<string>): Option<Json> {
    if names == [] then Some(current)
    else if Has(current, names[0]) then Member(Get(current, names[0]), names[1..])
    else None
  }

  lemma {:induction false} TokensLead(current: Json, names: seq<string>)
    requires names != []
    ensures Walk(current, Tokens(Pointer(names))) == Member(current, names)
  {
    SlashesBack(names[0]);
    TildesBack(names[0]);
    EscapeHasNoSlash(names[0]);
    if |names| == 1 {
      TokensOf(Escape(names[0]), None);
      assert names[1..] == [];
    } else {
      TokensOf(Escape(names[0]), Some(Pointer(names[1..])));
      if Has(current, names[0]) {
        TokensLead(Get(current, names[0]), names[1..]);
      }
    }
  }

  /** Whatever characters member names contain, a properly escaped reference reaches exactly that member. */
  lemma ReferenceReachesMember(root: Json, names: seq<string>)
    requires names != []
    ensures var target := Member(root, names);
            ResolveRef(root, "#/" + Pointer(names)) == if target.Some? && target.value.Obj? then target else None
  {
    var text := "#/" + Pointer(names);
    assert text[..2] == "#/" && text[2..] == Pointer(names);
    TokensLead(root, names);
  }
}
