// _normalize_schema: closing every object-typed node of a JSON schema.
module SchemaNormalizer {
  import opened Wrappers
  import opened JsonValues

  // Keys whose value maps names to schemas, and keys whose value is a schema or a list of schemas.
  const GROUP_KEYS: set<string> := {"properties", "$defs", "definitions"}
  const NODE_KEYS: set<string> := {"items", "anyOf", "allOf", "oneOf"}
  const ADDITIONAL := "additionalProperties"

  // The node is an object type that does not say what else it allows.
  predicate IsOpen(m: map<string, Json>) {
    "type" in m && m["type"] == Str("object") && ADDITIONAL !in m
  }

  // What injection makes of one schema node, and of one map of schemas.
  function Inject(j: Json): Json {
    match j
    case Arr(items) => Arr(seq(|items|, i requires 0 <= i < |items| => Inject(items[i])))
    case Obj(m) =>
      var inner := map k | k in m ::
        if k in GROUP_KEYS then InjectGroup(m[k]) else if k in NODE_KEYS then Inject(m[k]) else m[k];
      Obj(if IsOpen(m) then inner[ADDITIONAL := Bool(false)] else inner)
    case _ => j
  }

  function InjectGroup(j: Json): Json {
    match j
    case Obj(m) => Obj(map k | k in m :: Inject(m[k]))
    case _ => j
  }

  lemma InjectArr(j: Json)
    requires j.Arr?
    ensures Inject(j).Arr? && |Inject(j).items| == |j.items|
    ensures forall i | 0 <= i < |j.items| :: Inject(j).items[i] == Inject(j.items[i])
  {}

  lemma InjectObj(j: Json)
    requires j.Obj?
    ensures Inject(j).Obj?
    ensures Inject(j).fields.Keys == j.fields.Keys + if IsOpen(j.fields) then {ADDITIONAL} else {}
    ensures IsOpen(j.fields) ==> Inject(j).fields[ADDITIONAL] == Bool(false)
    ensures forall k | k in j.fields ::
              Inject(j).fields[k] ==
              if k in GROUP_KEYS then InjectGroup(j.fields[k])
              else if k in NODE_KEYS then Inject(j.fields[k])
              else j.fields[k]
  {}

  lemma {:induction false} InjectIdempotent(j: Json)
    ensures Inject(Inject(j)) == Inject(j)
    decreases j, 1
  {
    match j
    case Arr(items) =>
      forall i | 0 <= i < |items| ensures Inject(Inject(items[i])) == Inject(items[i]) { InjectIdempotent(items[i]); }
    case Obj(m) =>
      forall k | k in m && k in GROUP_KEYS ensures InjectGroup(InjectGroup(m[k])) == InjectGroup(m[k]) {
        InjectGroupIdempotent(m[k]);
      }
      forall k | k in m && k in NODE_KEYS ensures Inject(Inject(m[k])) == Inject(m[k]) { InjectIdempotent(m[k]); }
      assert Inject(Inject(j)).fields == Inject(j).fields;
    case _ =>
  }

  lemma {:induction false} InjectGroupIdempotent(j: Json)
    ensures InjectGroup(InjectGroup(j)) == InjectGroup(j)
    decreases j, 0
  {
    if j.Obj? {
      forall k | k in j.fields ensures Inject(Inject(j.fields[k])) == Inject(j.fields[k]) {
        InjectIdempotent(j.fields[k]);
      }
    }
  }

  // --- Exactly what changes ---------------------------------------------------

  datatype Step = Key(k: string) | Index(i: nat)

  function At(j: Json, path: seq<Step>): Option<Json> {
    if path == [] then Some(j)
    else match path[0]
      case Key(k) => if j.Obj? && k in j.fields then At(j.fields[k], path[1..]) else None
      case Index(i) => if j.Arr? && i < |j.items| then At(j.items[i], path[1..]) else None
  }

  // Where a schema holds a schema or a list of schemas, and where it holds a map from names to schemas.
  predicate HoldsSchema(k: string) { k == "items" || k == "anyOf" || k == "allOf" || k == "oneOf" }

  predicate HoldsNamed(k: string) { k == "properties" || k == "$defs" || k == "definitions" }

  // The path leads from the schema to one of its nodes: through lists and keys that hold a schema, and through a key
  // that holds named schemas together with a name.
  predicate IsNode(j: Json, path: seq<Step>)
    decreases |path|
  {
    if path == [] then true
    else match path[0]
      case Index(i) => j.Arr? && i < |j.items| && IsNode(j.items[i], path[1..])
      case Key(k) =>
        j.Obj? && k in j.fields &&
        if HoldsSchema(k) then IsNode(j.fields[k], path[1..])
        else
          HoldsNamed(k) && |path| >= 2 && path[1].Key? && j.fields[k].Obj? && path[1].k in j.fields[k].fields
          && IsNode(j.fields[k].fields[path[1].k], path[2..])
  }

  // An object type that leaves additionalProperties unsaid.
  predicate LeavesOpen(j: Json) {
    j.Obj? && j.Get("type") == Some(Str("object")) && j.Get("additionalProperties") == None
  }

  // The path names the additionalProperties of such a node.
  predicate Closes(j: Json, path: seq<Step>) {
    && path != [] && path[|path|-1] == Key("additionalProperties")
    && IsNode(j, path[..|path|-1])
    && var node := At(j, path[..|path|-1]);
       node.Some? && LeavesOpen(node.value)
  }

  // The same kind of value: the same scalar, a list of the same length, or both mappings.
  predicate SameShape(a: Option<Json>, b: Option<Json>) {
    match (a, b)
    case (None, None) => true
    case (Some(Arr(x)), Some(Arr(y))) => |x| == |y|
    case (Some(Obj(_)), Some(Obj(_))) => true
    case (Some(x), Some(y)) => !x.Arr? && !x.Obj? && x == y
    case _ => false
  }

  lemma ClosesDown(j: Json, path: seq<Step>)
    requires |path| >= 2
    ensures j.Arr? && path[0].Index? && path[0].i < |j.items| ==>
              Closes(j, path) == Closes(j.items[path[0].i], path[1..])
    ensures j.Obj? && path[0].Key? && path[0].k in j.fields && path[0].k in NODE_KEYS ==>
              Closes(j, path) == Closes(j.fields[path[0].k], path[1..])
  {
    var q := path[..|path|-1];
    assert q[0] == path[0] && q[1..] == path[1..][..|path|-2];
  }

  lemma SameShapeRefl(a: Option<Json>)
    ensures SameShape(a, a)
  {}

  // At, unfolded at the empty path and at a path that starts with a key.
  lemma AtHere(j: Json)
    ensures At(j, []) == Some(j)
  {}

  lemma AtKey(j: Json, path: seq<Step>)
    requires path != [] && path[0].Key?
    ensures At(j, path) == if j.Obj? && path[0].k in j.fields then At(j.fields[path[0].k], path[1..]) else None
  {}

  // What normalization may do to a schema: at every path, false is added where it closes a node, and nothing else
  // changes.
  ghost predicate OnlyCloses(j: Json, closed: Json) { forall path :: ClosedAt(j, closed, path) }

  predicate ClosedAt(j: Json, closed: Json, path: seq<Step>) {
    if Closes(j, path) then At(j, path) == None && At(closed, path) == Some(Bool(false))
    else SameShape(At(j, path), At(closed, path))
  }

  lemma InjectOnlyCloses(j: Json)
    ensures OnlyCloses(j, Inject(j))
  {
    forall path ensures ClosedAt(j, Inject(j), path) { InjectExact(j, path); }
  }

  // At every path of a schema, injection adds false where it closes a node that left
  // additionalProperties unsaid, and changes nothing anywhere else.
  lemma {:induction false} InjectExact(j: Json, path: seq<Step>)
    ensures ClosedAt(j, Inject(j), path)
    decreases |path|
  {
    if |path| == 0 {
      AtHere(j);
      AtHere(Inject(j));
    } else {
      if |path| >= 2 { ClosesDown(j, path); }
      match path[0]
      case Index(i) =>
        if j.Arr? && i < |j.items| { InjectExact(j.items[i], path[1..]); }
      case Key(k) =>
        AtKey(j, path);
        AtKey(Inject(j), path);
        if j.Obj? { InjectObj(j); }
        if j.Obj? && k in j.fields {
          if k in GROUP_KEYS { InjectGroupExact(j, k, path); }
          else if k in NODE_KEYS { InjectExact(j.fields[k], path[1..]); }
          else { SameShapeRefl(At(j.fields[k], path[1..])); }
        }
    }
  }

  lemma GroupClosesDown(j: Json, k: string, path: seq<Step>)
    requires |path| >= 3 && path[0] == Key(k) && path[1].Key? && j.Obj? && k in j.fields && k in GROUP_KEYS
    requires j.fields[k].Obj? && path[1].k in j.fields[k].fields
    ensures Closes(j, path) == Closes(j.fields[k].fields[path[1].k], path[2..])
  {
    var s, q, rest := j.fields[k].fields[path[1].k], path[..|path|-1], path[2..];
    var q' := rest[..|rest|-1];
    assert q[0] == path[0] && q[1] == path[1] && q[2..] == q' && q[1..][1..] == q';
    assert IsNode(j, q) == IsNode(s, q');
    assert At(j, q) == At(j.fields[k], q[1..]) == At(s, q');
    assert rest[|rest|-1] == path[|path|-1];
  }

  lemma {:induction false} InjectGroupExact(j: Json, k: string, path: seq<Step>)
    requires path != [] && path[0] == Key(k) && j.Obj? && k in j.fields && k in GROUP_KEYS
    ensures ClosedAt(j, Inject(j), path)
    decreases |path|, 0
  {
    var g := j.fields[k];
    var g' := InjectGroup(g);
    InjectObj(j);
    AtKey(j, path);
    AtKey(Inject(j), path);
    if |path| == 1 {
      assert path[1..] == [];
      AtHere(g);
      AtHere(g');
    } else if g.Obj? && path[1].Key? && path[1].k in g.fields {
      var s := g.fields[path[1].k];
      var rest := path[2..];
      assert path[1..][1..] == rest;
      AtKey(g, path[1..]);
      AtKey(g', path[1..]);
      InjectExact(s, rest);
      if |path| >= 3 { GroupClosesDown(j, k, path); }
    } else if g.Obj? {
      if path[1].Key? {
        AtKey(g, path[1..]);
        AtKey(g', path[1..]);
      }
    } else {
      assert g' == g;
      SameShapeRefl(At(g, path[1..]));
    }
  }
}
