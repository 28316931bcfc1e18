// What normalization does to the meaning of a schema, against a validator for the keywords
// of sections 6.1.1, 6.4.1, 6.4.2, 6.5.4, 6.5.6 and 6.7.1 to 6.7.3 of JSON Schema Validation draft-07.
module SchemaSemantics {
  import opened Wrappers
  import opened JsonValues
  import opened SchemaNormalizer

  // The keywords the validator interprets, and the ones that only hold definitions.
  const HANDLED: set<string> :=
    {"type", "items", "additionalItems", "properties", ADDITIONAL, "allOf", "anyOf", "oneOf", "$defs", "definitions"}

  // Every other keyword of a node is judged as a whole by `other`; `covers` says whether a
  // patternProperties value has a pattern for a property name.
  datatype Rest = Rest(other: (map<string, Json>, Json) -> bool, covers: (Json, string) -> bool)

  predicate HasType(t: string, v: Json) {
    match v
    case Null => t == "null"
    case Bool(_) => t == "boolean"
    case Num(r) => t == "number" || (t == "integer" && r == r.Floor as real)
    case Str(_) => t == "string"
    case Arr(_) => t == "array"
    case Obj(_) => t == "object"
  }

  predicate TypeOk(m: map<string, Json>, v: Json) {
    "type" in m ==>
      match m["type"]
      case Str(t) => HasType(t, v)
      case Arr(ts) => exists i :: 0 <= i < |ts| && ts[i].Str? && HasType(ts[i].s, v)
      case _ => false
  }

  // additionalProperties applies to this property name.
  predicate IsAdditional(rest: Rest, m: map<string, Json>, k: string) {
    && !("properties" in m && m["properties"].Obj? && k in m["properties"].fields)
    && !("patternProperties" in m && rest.covers(m["patternProperties"], k))
  }

  ghost predicate Valid(rest: Rest, schema: Json, v: Json)
    decreases schema, 1
  {
    match schema
    case Bool(b) => b
    case Obj(m) =>
      && TypeOk(m, v)
      && rest.other(m - HANDLED, v)
      && PropertiesOk(rest, schema, v)
      && AdditionalOk(rest, schema, v)
      && ItemsOk(rest, schema, v)
      && CombinersOk(rest, schema, v)
    case _ => false
  }

  ghost predicate PropertiesOk(rest: Rest, schema: Json, v: Json)
    requires schema.Obj?
    decreases schema, 0
  {
    var m := schema.fields;
    "properties" in m && m["properties"].Obj? && v.Obj? ==>
      forall k | k in m["properties"].fields && k in v.fields :: Valid(rest, m["properties"].fields[k], v.fields[k])
  }

  ghost predicate AdditionalOk(rest: Rest, schema: Json, v: Json)
    requires schema.Obj?
    decreases schema, 0
  {
    var m := schema.fields;
    ADDITIONAL in m && v.Obj? ==>
      forall k | k in v.fields && IsAdditional(rest, m, k) :: Valid(rest, m[ADDITIONAL], v.fields[k])
  }

  // items as one schema for every element, or as a list of schemas by position.
  ghost predicate ItemsOk(rest: Rest, schema: Json, v: Json)
    requires schema.Obj?
    decreases schema, 0
  {
    var m := schema.fields;
    "items" in m && v.Arr? ==>
      if m["items"].Arr? then
        && (forall i | 0 <= i < |v.items| && i < |m["items"].items| :: Valid(rest, m["items"].items[i], v.items[i]))
        && ("additionalItems" in m ==>
              forall i | |m["items"].items| <= i < |v.items| :: Valid(rest, m["additionalItems"], v.items[i]))
      else forall i | 0 <= i < |v.items| :: Valid(rest, m["items"], v.items[i])
  }

  // The verdict of each schema of a list.
  ghost function Verdicts(rest: Rest, list: Json, v: Json): (bs: seq<bool>)
    requires list.Arr?
    ensures |bs| == |list.items| && forall i | 0 <= i < |bs| :: bs[i] == Valid(rest, list.items[i], v)
    decreases list, 0
  {
    seq(|list.items|, i requires 0 <= i < |list.items| => Valid(rest, list.items[i], v))
  }

  predicate All(bs: seq<bool>) { forall i | 0 <= i < |bs| :: bs[i] }

  predicate Any(bs: seq<bool>) { exists i :: 0 <= i < |bs| && bs[i] }

  predicate One(bs: seq<bool>) {
    exists i :: 0 <= i < |bs| && bs[i] && forall j | 0 <= j < |bs| && j != i :: !bs[j]
  }

  ghost predicate CombinersOk(rest: Rest, schema: Json, v: Json)
    requires schema.Obj?
    decreases schema, 0
  {
    var m := schema.fields;
    && ("allOf" in m && m["allOf"].Arr? ==> All(Verdicts(rest, m["allOf"], v)))
    && ("anyOf" in m && m["anyOf"].Arr? ==> Any(Verdicts(rest, m["anyOf"], v)))
    && ("oneOf" in m && m["oneOf"].Arr? ==> One(Verdicts(rest, m["oneOf"], v)))
  }

  // The alternatives of a oneOf are at most one, or injection leaves them as they are.
  predicate StableUnion(list: Json) { list.Arr? && |list.items| > 1 ==> Inject(list) == list }

  predicate StableOne(schema: Json)
    requires schema.Obj?
  {
    "oneOf" in schema.fields ==> StableUnion(schema.fields["oneOf"])
  }

  // Every oneOf of the schema is stable.
  predicate StableUnions(j: Json)
    decreases j, 1
  {
    match j
    case Arr(items) => forall i | 0 <= i < |items| :: StableUnions(items[i])
    case Obj(_) => StableOne(j) && StableBelow(j)
    case _ => true
  }

  // The same of the schemas below a node, leaving out the node's own oneOf.
  predicate StableBelow(j: Json)
    requires j.Obj?
    decreases j, 0
  {
    var m := j.fields;
    && (forall k | k in m && k in NODE_KEYS :: StableUnions(m[k]))
    && (forall k | k in m && k in GROUP_KEYS && m[k].Obj? ::
          forall p | p in m[k].fields :: StableUnions(m[k].fields[p]))
  }

  // Every value valid under the normalized schema is valid under the schema itself.
  lemma {:induction false} NormalizationStrengthens(rest: Rest, schema: Json, v: Json)
    requires StableUnions(schema) && Valid(rest, Inject(schema), v)
    ensures Valid(rest, schema, v)
    decreases schema, 1
  {
    if schema.Obj? {
      InjectObj(schema);
      assert schema.fields - HANDLED == Inject(schema).fields - HANDLED;
      PropertiesStrengthen(rest, schema, v);
      ItemsStrengthen(rest, schema, v);
      AllAnyStrengthen(rest, schema, v);
      AdditionalStrengthen(rest, schema, v);
      StableOneStrengthens(rest, schema, v);
    }
  }

  ghost predicate OneOk(rest: Rest, schema: Json, v: Json)
    requires schema.Obj?
  {
    "oneOf" in schema.fields && schema.fields["oneOf"].Arr? ==> One(Verdicts(rest, schema.fields["oneOf"], v))
  }

  // A union that injection leaves alone, or of at most one alternative, only gets stronger.
  lemma {:induction false} StableOneStrengthens(rest: Rest, schema: Json, v: Json)
    requires schema.Obj? && StableBelow(schema) && StableOne(schema) && OneOk(rest, Inject(schema), v)
    ensures OneOk(rest, schema, v)
    decreases schema, 0
  {
    InjectObj(schema);
    if "oneOf" in schema.fields && schema.fields["oneOf"].Arr? {
      var list := schema.fields["oneOf"];
      assert Inject(schema).fields["oneOf"] == Inject(list);
      if |list.items| <= 1 {
        VerdictsStrengthen(rest, list, v);
        OnlyAlternative(Verdicts(rest, list, v), Verdicts(rest, Inject(list), v));
      }
    }
  }

  lemma OnlyAlternative(before: seq<bool>, after: seq<bool>)
    requires |before| == |after| <= 1 && forall i | 0 <= i < |after| && after[i] :: before[i]
    requires One(after)
    ensures One(before)
  {
    assert before[0];
  }

  lemma {:induction false} PropertiesStrengthen(rest: Rest, schema: Json, v: Json)
    requires schema.Obj? && StableBelow(schema) && PropertiesOk(rest, Inject(schema), v)
    ensures PropertiesOk(rest, schema, v)
    decreases schema, 0
  {
    var m := schema.fields;
    InjectObj(schema);
    if "properties" in m && m["properties"].Obj? && v.Obj? {
      forall k | k in m["properties"].fields && k in v.fields
        ensures Valid(rest, m["properties"].fields[k], v.fields[k])
      {
        assert Inject(schema).fields["properties"].fields[k] == Inject(m["properties"].fields[k]);
        NormalizationStrengthens(rest, m["properties"].fields[k], v.fields[k]);
      }
    }
  }

  // Where additionalProperties was said, it still says the same, of the same properties.
  lemma AdditionalStrengthen(rest: Rest, schema: Json, v: Json)
    requires schema.Obj? && AdditionalOk(rest, Inject(schema), v)
    ensures AdditionalOk(rest, schema, v)
  {
    var m, m' := schema.fields, Inject(schema).fields;
    InjectObj(schema);
    if ADDITIONAL in m && v.Obj? {
      forall k | k in v.fields && IsAdditional(rest, m, k) ensures Valid(rest, m[ADDITIONAL], v.fields[k]) {
        assert IsAdditional(rest, m', k);
      }
    }
  }

  lemma {:induction false} ItemsStrengthen(rest: Rest, schema: Json, v: Json)
    requires schema.Obj? && StableBelow(schema) && ItemsOk(rest, Inject(schema), v)
    ensures ItemsOk(rest, schema, v)
    decreases schema, 0
  {
    var m := schema.fields;
    InjectObj(schema);
    if "items" in m && v.Arr? {
      if m["items"].Arr? {
        InjectArr(m["items"]);
        forall i | 0 <= i < |v.items| && i < |m["items"].items| ensures Valid(rest, m["items"].items[i], v.items[i]) {
          NormalizationStrengthens(rest, m["items"].items[i], v.items[i]);
        }
      } else {
        forall i | 0 <= i < |v.items| ensures Valid(rest, m["items"], v.items[i]) {
          NormalizationStrengthens(rest, m["items"], v.items[i]);
        }
      }
    }
  }

  lemma {:induction false} VerdictsStrengthen(rest: Rest, list: Json, v: Json)
    requires list.Arr? && StableUnions(list)
    ensures var before, after := Verdicts(rest, list, v), Verdicts(rest, Inject(list), v);
            |before| == |after| && forall i | 0 <= i < |after| && after[i] :: before[i]
    decreases list, 0
  {
    InjectArr(list);
    var after := Verdicts(rest, Inject(list), v);
    forall i | 0 <= i < |after| && after[i] ensures Valid(rest, list.items[i], v) {
      NormalizationStrengthens(rest, list.items[i], v);
    }
  }

  // allOf and anyOf only get stronger.
  ghost predicate AllAnyOk(rest: Rest, schema: Json, v: Json)
    requires schema.Obj?
  {
    var m := schema.fields;
    && ("allOf" in m && m["allOf"].Arr? ==> All(Verdicts(rest, m["allOf"], v)))
    && ("anyOf" in m && m["anyOf"].Arr? ==> Any(Verdicts(rest, m["anyOf"], v)))
  }

  lemma {:induction false} AllAnyStrengthen(rest: Rest, schema: Json, v: Json)
    requires schema.Obj? && StableBelow(schema) && AllAnyOk(rest, Inject(schema), v)
    ensures AllAnyOk(rest, schema, v)
    decreases schema, 0
  {
    var m := schema.fields;
    InjectObj(schema);
    if "allOf" in m && m["allOf"].Arr? {
      VerdictsStrengthen(rest, m["allOf"], v);
    }
    if "anyOf" in m && m["anyOf"].Arr? {
      VerdictsStrengthen(rest, m["anyOf"], v);
      var after := Verdicts(rest, Inject(m["anyOf"]), v);
      var i :| 0 <= i < |after| && after[i];
      assert Verdicts(rest, m["anyOf"], v)[i];
    }
  }

  // A schema that says only "object", and perhaps additionalProperties.
  lemma ObjectOnly(rest: Rest, m: map<string, Json>, v: Json)
    requires (forall n, w :: rest.other(n, w)) && v.Obj?
    requires m.Keys <= {"type", ADDITIONAL} && "type" in m && m["type"] == Str("object")
    ensures Valid(rest, Obj(m), v) <==>
            (ADDITIONAL in m ==> forall k | k in v.fields :: Valid(rest, m[ADDITIONAL], v.fields[k]))
  {
    var s := Obj(m);
    forall k | k !in {"type", ADDITIONAL} ensures k !in m {}
    assert "properties" !in m && "patternProperties" !in m && "items" !in m;
    assert "allOf" !in m && "anyOf" !in m && "oneOf" !in m;
    assert PropertiesOk(rest, s, v) && ItemsOk(rest, s, v) && CombinersOk(rest, s, v);
    assert TypeOk(m, v);
    assert forall k :: IsAdditional(rest, m, k);
  }

  // A schema that is only a choice between two alternatives.
  function EitherOf(a: Json, b: Json): Json { Obj(map["oneOf" := Arr([a, b])]) }

  lemma OneOfTwo(bs: seq<bool>)
    requires |bs| == 2
    ensures One(bs) <==> bs[0] != bs[1]
  {
    if bs[0] && !bs[1] {
      assert bs[0] && forall j | 0 <= j < |bs| && j != 0 :: !bs[j];
    } else if bs[1] && !bs[0] {
      assert bs[1] && forall j | 0 <= j < |bs| && j != 1 :: !bs[j];
    }
  }

  lemma EitherOfValid(rest: Rest, a: Json, b: Json, v: Json)
    requires forall n, w :: rest.other(n, w)
    ensures Valid(rest, EitherOf(a, b), v) <==> (Valid(rest, a, v) <==> !Valid(rest, b, v))
  {
    var s := EitherOf(a, b);
    var m := s.fields;
    assert "properties" !in m && ADDITIONAL !in m && "items" !in m && "allOf" !in m && "anyOf" !in m && "type" !in m;
    var list := m["oneOf"].items;
    assert |list| == 2 && list[0] == a && list[1] == b;
    var bs := Verdicts(rest, m["oneOf"], v);
    assert bs[0] == Valid(rest, a, v) && bs[1] == Valid(rest, b, v);
    OneOfTwo(bs);
  }

  lemma InjectEitherOf(a: Json, b: Json)
    ensures Inject(EitherOf(a, b)) == EitherOf(Inject(a), Inject(b))
  {
    InjectObj(EitherOf(a, b));
    InjectArr(Arr([a, b]));
    assert Inject(Arr([a, b])).items == [Inject(a), Inject(b)];
    assert Inject(EitherOf(a, b)).fields == EitherOf(Inject(a), Inject(b)).fields;
  }

  const UNSAID := Obj(map["type" := Str("object")])
  const OPEN := Obj(map["type" := Str("object"), ADDITIONAL := Bool(true)])

  lemma OpenAccepts(rest: Rest, v: Json)
    requires (forall n, w :: rest.other(n, w)) && v.Obj?
    ensures Valid(rest, UNSAID, v) && Valid(rest, OPEN, v) && Inject(OPEN) == OPEN
  {
    ObjectOnly(rest, UNSAID.fields, v);
    ObjectOnly(rest, OPEN.fields, v);
    InjectObj(OPEN);
    assert Inject(OPEN).fields == OPEN.fields;
  }

  lemma ClosedRefuses(rest: Rest, v: Json, k: string)
    requires (forall n, w :: rest.other(n, w)) && v.Obj? && k in v.fields
    ensures !Valid(rest, Inject(UNSAID), v)
  {
    InjectObj(UNSAID);
    var m := Inject(UNSAID).fields;
    assert m.Keys == {"type", ADDITIONAL};
    ObjectOnly(rest, m, v);
  }

  // With oneOf the claim fails: closing one of two overlapping alternatives can make a value
  // that matched both, and so was refused, match exactly one, and so be accepted.
  lemma OneOfCanWeaken(rest: Rest)
    requires forall n, w :: rest.other(n, w)
    ensures var v := Obj(map["a" := Null]);
            Valid(rest, Inject(EitherOf(UNSAID, OPEN)), v) && !Valid(rest, EitherOf(UNSAID, OPEN), v)
  {
    var v := Obj(map["a" := Null]);
    InjectEitherOf(UNSAID, OPEN);
    EitherOfValid(rest, UNSAID, OPEN, v);
    EitherOfValid(rest, Inject(UNSAID), Inject(OPEN), v);
    OpenAccepts(rest, v);
    ClosedRefuses(rest, v, "a");
  }

  // Alternatives that only get stronger: exactly one accepts afterwards but not before when exactly one accepts
  // afterwards and another one accepted before.
  lemma OneFlips(before: seq<bool>, after: seq<bool>)
    requires |before| == |after| && forall i | 0 <= i < |after| && after[i] :: before[i]
    requires One(after)
    ensures !One(before) <==> exists i, k :: 0 <= i < |after| && 0 <= k < |before| && i != k && after[i] && before[k]
  {
    var i :| 0 <= i < |after| && after[i] && forall j | 0 <= j < |after| && j != i :: !after[j];
    if forall k | 0 <= k < |before| && k != i :: !before[k] {
      assert before[i] && One(before);
    } else {
      var k :| 0 <= k < |before| && k != i && before[k];
      assert after[i] && before[k] && i != k;
      forall n | 0 <= n < |before| && before[n] ensures exists j :: 0 <= j < |before| && j != n && before[j] {
        assert before[if n == i then k else i];
      }
    }
  }

  // At one oneOf node: a value that the normalized schema accepts was refused by the schema itself exactly when one
  // normalized alternative accepts it and another alternative accepted it before.
  lemma OneOfWeakensExactly(rest: Rest, schema: Json, v: Json)
    requires schema.Obj? && "oneOf" in schema.fields && schema.fields["oneOf"].Arr? && StableBelow(schema)
    requires Valid(rest, Inject(schema), v)
    ensures var list := schema.fields["oneOf"];
            var before, after := Verdicts(rest, list, v), Verdicts(rest, Inject(list), v);
            && One(after)
            && (!Valid(rest, schema, v) <==>
                exists i, k :: 0 <= i < |after| && 0 <= k < |before| && i != k && after[i] && before[k])
  {
    var list := schema.fields["oneOf"];
    InjectObj(schema);
    RestUnchanged(schema);
    PropertiesStrengthen(rest, schema, v);
    ItemsStrengthen(rest, schema, v);
    AllAnyStrengthen(rest, schema, v);
    AdditionalStrengthen(rest, schema, v);
    VerdictsStrengthen(rest, list, v);
    assert Inject(schema).fields["oneOf"] == Inject(list);
    OneFlips(Verdicts(rest, list, v), Verdicts(rest, Inject(list), v));
  }

  // --- What is not lost -------------------------------------------------------

  // The value gives no node that normalization closes a property the node does not declare,
  // whichever alternative is tried.
  predicate Declared(rest: Rest, schema: Json, v: Json)
    decreases schema, 1
  {
    schema.Obj? ==>
      var m := schema.fields;
      && (IsOpen(m) && v.Obj? ==> forall k | k in v.fields :: !IsAdditional(rest, m, k))
      && ("properties" in m && m["properties"].Obj? && v.Obj? ==>
            forall k | k in m["properties"].fields && k in v.fields ::
              Declared(rest, m["properties"].fields[k], v.fields[k]))
      && ("items" in m && v.Arr? && !m["items"].Arr? ==>
            forall i | 0 <= i < |v.items| :: Declared(rest, m["items"], v.items[i]))
      && ("items" in m && v.Arr? && m["items"].Arr? ==>
            forall i | 0 <= i < |v.items| && i < |m["items"].items| :: Declared(rest, m["items"].items[i], v.items[i]))
      && (forall c | c in COMBINERS && c in m && m[c].Arr? :: AllDeclared(rest, m[c], v))
  }

  const COMBINERS: set<string> := {"allOf", "anyOf", "oneOf"}

  predicate AllDeclared(rest: Rest, list: Json, v: Json)
    requires list.Arr?
    decreases list, 0
  {
    forall i | 0 <= i < |list.items| :: Declared(rest, list.items[i], v)
  }

  // Normalization does not change the verdict on a value that uses only declared properties,
  // for any schema, oneOf included.
  lemma {:induction false} DeclaredUnaffected(rest: Rest, schema: Json, v: Json)
    requires Declared(rest, schema, v)
    ensures Valid(rest, Inject(schema), v) <==> Valid(rest, schema, v)
    decreases schema, 1
  {
    if schema.Obj? {
      InjectObj(schema);
      RestUnchanged(schema);
      DeclaredProperties(rest, schema, v);
      DeclaredAdditional(rest, schema, v);
      DeclaredItems(rest, schema, v);
      DeclaredCombiners(rest, schema, v);
    }
  }

  // Injection touches no keyword outside those it handles, and no type.
  lemma RestUnchanged(schema: Json)
    requires schema.Obj?
    ensures Inject(schema).Obj? && schema.fields - HANDLED == Inject(schema).fields - HANDLED
    ensures forall v :: TypeOk(Inject(schema).fields, v) <==> TypeOk(schema.fields, v)
  {
    InjectObj(schema);
    assert "type" !in GROUP_KEYS && "type" !in NODE_KEYS && "type" != ADDITIONAL;
  }

  lemma {:induction false} DeclaredProperties(rest: Rest, schema: Json, v: Json)
    requires schema.Obj? && Declared(rest, schema, v)
    ensures PropertiesOk(rest, Inject(schema), v) <==> PropertiesOk(rest, schema, v)
    decreases schema, 0
  {
    var m, m' := schema.fields, Inject(schema).fields;
    InjectObj(schema);
    if "properties" in m && m["properties"].Obj? && v.Obj? {
      forall k | k in m["properties"].fields && k in v.fields
        ensures Valid(rest, m'["properties"].fields[k], v.fields[k]) <==>
                Valid(rest, m["properties"].fields[k], v.fields[k])
      {
        DeclaredUnaffected(rest, m["properties"].fields[k], v.fields[k]);
      }
    }
  }

  lemma DeclaredAdditional(rest: Rest, schema: Json, v: Json)
    requires schema.Obj? && Declared(rest, schema, v)
    ensures AdditionalOk(rest, Inject(schema), v) <==> AdditionalOk(rest, schema, v)
  {
    var m, m' := schema.fields, Inject(schema).fields;
    InjectObj(schema);
    forall k ensures IsAdditional(rest, m', k) == IsAdditional(rest, m, k) {}
  }

  lemma {:induction false} DeclaredItems(rest: Rest, schema: Json, v: Json)
    requires schema.Obj? && Declared(rest, schema, v)
    ensures ItemsOk(rest, Inject(schema), v) <==> ItemsOk(rest, schema, v)
    decreases schema, 0
  {
    var m, m' := schema.fields, Inject(schema).fields;
    InjectObj(schema);
    if "items" in m && v.Arr? {
      if m["items"].Arr? {
        InjectArr(m["items"]);
        forall i | 0 <= i < |v.items| && i < |m["items"].items|
          ensures Valid(rest, m'["items"].items[i], v.items[i]) <==> Valid(rest, m["items"].items[i], v.items[i])
        {
          DeclaredUnaffected(rest, m["items"].items[i], v.items[i]);
        }
      } else {
        forall i | 0 <= i < |v.items|
          ensures Valid(rest, m'["items"], v.items[i]) <==> Valid(rest, m["items"], v.items[i])
        {
          DeclaredUnaffected(rest, m["items"], v.items[i]);
        }
      }
    }
  }

  lemma {:induction false} DeclaredVerdicts(rest: Rest, list: Json, v: Json)
    requires list.Arr? && AllDeclared(rest, list, v)
    ensures Verdicts(rest, Inject(list), v) == Verdicts(rest, list, v)
    decreases list, 0
  {
    InjectArr(list);
    forall i | 0 <= i < |list.items| ensures Valid(rest, Inject(list.items[i]), v) == Valid(rest, list.items[i], v) {
      DeclaredUnaffected(rest, list.items[i], v);
    }
  }

  lemma {:induction false} DeclaredCombiners(rest: Rest, schema: Json, v: Json)
    requires schema.Obj?
    requires forall c | c in COMBINERS && c in schema.fields && schema.fields[c].Arr? ::
               AllDeclared(rest, schema.fields[c], v)
    ensures CombinersOk(rest, Inject(schema), v) <==> CombinersOk(rest, schema, v)
    decreases schema, 0
  {
    var m, m' := schema.fields, Inject(schema).fields;
    InjectObj(schema);
    forall c | c in COMBINERS && c in m && m[c].Arr?
      ensures m'[c].Arr? && Verdicts(rest, m'[c], v) == Verdicts(rest, m[c], v)
    {
      assert m'[c] == Inject(m[c]);
      DeclaredVerdicts(rest, m[c], v);
    }
    assert "allOf" in COMBINERS && "anyOf" in COMBINERS && "oneOf" in COMBINERS;
  }
}
