// _normalize_schema as it runs: a deep copy of the caller's dicts and lists, changed in place.
module SchemaHeap {
  import opened Wrappers
  import opened JsonValues
  import opened SchemaNormalizer

  // A Python value: a scalar, or a reference to a list or a dict.
  datatype Value = Atom(j: Json) | ListRef(list: PyList) | DictRef(dict: PyDict)

  class PyList {
    var items: seq<Value>

    constructor (items: seq<Value>)
      ensures this.items == items
    {
      this.items := items;
    }
  }

  class PyDict {
    var fields: map<string, Value>

    constructor (fields: map<string, Value>)
      ensures this.fields == fields
    {
      this.fields := fields;
    }
  }

  // --- What the heap holds ----------------------------------------------------

  // The tree of objects a value is made of; `foot` holds all those at and below a node.
  datatype Shape =
    | Leaf
    | ListShape(list: PyList, elems: seq<Shape>, foot: set<object>)
    | DictShape(dict: PyDict, kids: map<string, Shape>, foot: set<object>)

  function Foot(sh: Shape): set<object> { if sh.Leaf? then {} else sh.foot }

  // No object occurs twice in the tree.
  ghost predicate Separate(sh: Shape) {
    match sh
    case Leaf => true
    case ListShape(list, elems, foot) =>
      && list in foot
      && (forall i | 0 <= i < |elems| :: Separate(elems[i]) && Foot(elems[i]) <= foot - {list})
      && forall i, j | 0 <= i < j < |elems| :: Foot(elems[i]) !! Foot(elems[j])
    case DictShape(dict, kids, foot) =>
      && dict in foot
      && (forall k | k in kids :: Separate(kids[k]) && Foot(kids[k]) <= foot - {dict})
      && forall k, l | k in kids && l in kids && k != l :: Foot(kids[k]) !! Foot(kids[l])
  }

  // The value, read through the heap, is the JSON value j.
  ghost predicate Holds(v: Value, j: Json, sh: Shape)
    reads Foot(sh)
    decreases sh
  {
    match sh
    case Leaf => v == Atom(j) && !j.Arr? && !j.Obj?
    case ListShape(list, elems, foot) =>
      && v == ListRef(list) && list in foot && j.Arr? && |list.items| == |elems| == |j.items|
      && forall i | 0 <= i < |elems| :: Foot(elems[i]) <= foot && Holds(list.items[i], j.items[i], elems[i])
    case DictShape(dict, kids, foot) =>
      && v == DictRef(dict) && dict in foot && j.Obj? && dict.fields.Keys == kids.Keys == j.fields.Keys
      && forall k | k in kids :: Foot(kids[k]) <= foot && Holds(dict.fields[k], j.fields[k], kids[k])
  }

  // --- Lists ------------------------------------------------------------------

  // The same objects below every element.
  ghost predicate SameFeet(a: seq<Shape>, b: seq<Shape>) {
    |a| == |b| && forall i | 0 <= i < |a| :: Foot(a[i]) == Foot(b[i]) && Separate(a[i])
  }

  // The elements of a list when the first n are injected and the others not yet.
  function Partly(items: seq<Json>, n: nat, k: nat): Json
    requires k < |items|
  {
    if k < n then Inject(items[k]) else items[k]
  }

  ghost predicate ListUpTo(list: PyList, items: seq<Json>, sh: Shape, elems: seq<Shape>, n: nat)
    reads Foot(sh)
  {
    && sh.ListShape? && sh.list == list && list in sh.foot && |list.items| == |elems| == |items|
    && forall k | 0 <= k < |elems| :: Foot(elems[k]) <= sh.foot && Holds(list.items[k], Partly(items, n, k), elems[k])
  }

  lemma ListStep(list: PyList, items: seq<Json>, sh: Shape, elems: seq<Shape>, i: nat, elem: Shape)
    requires sh.ListShape? && sh.list == list && list in sh.foot && |list.items| == |elems| == |items| && i < |items|
    requires SameFeet(elems, sh.elems) && Foot(elem) == Foot(elems[i]) <= sh.foot && Separate(elem)
    requires Holds(list.items[i], Inject(items[i]), elem)
    requires forall k | 0 <= k < |elems| && k != i ::
               Foot(elems[k]) <= sh.foot && Holds(list.items[k], Partly(items, i, k), elems[k])
    ensures SameFeet(elems[i := elem], sh.elems) && ListUpTo(list, items, sh, elems[i := elem], i + 1)
  {
    forall k | 0 <= k < |elems| ensures Holds(list.items[k], Partly(items, i + 1, k), elems[i := elem][k]) {
      assert k != i ==> Partly(items, i + 1, k) == Partly(items, i, k);
    }
  }

  method InjectElem(list: PyList, i: nat, ghost items: seq<Json>, ghost sh: Shape, ghost elems: seq<Shape>)
    returns (ghost after: seq<Shape>)
    requires Separate(sh) && ListUpTo(list, items, sh, elems, i) && SameFeet(elems, sh.elems) && i < |items|
    modifies Foot(sh)
    ensures |list.items| == |old(list.items)|
    ensures SameFeet(after, sh.elems) && ListUpTo(list, items, sh, after, i + 1)
    decreases items[i], 3
  {
    ghost var elem := InjectAdditionalPropertiesFalse(list.items[i], items[i], elems[i]);
    forall k | 0 <= k < |elems| && k != i ensures Holds(list.items[k], Partly(items, i, k), elems[k]) {
      assert Foot(elems[k]) !! Foot(elems[i]);
      assert old(Holds(list.items[k], Partly(items, i, k), elems[k]));
    }
    ListStep(list, items, sh, elems, i, elem);
    after := elems[i := elem];
  }

  method InjectList(list: PyList, ghost j: Json, ghost sh: Shape) returns (ghost after: Shape)
    requires Separate(sh) && Holds(ListRef(list), j, sh)
    modifies Foot(sh)
    ensures Foot(after) == Foot(sh) && Separate(after) && Holds(ListRef(list), Inject(j), after)
    decreases j, 0
  {
    ghost var elems := sh.elems;
    for i := 0 to |list.items|
      invariant |list.items| == |old(list.items)| && SameFeet(elems, sh.elems) && ListUpTo(list, j.items, sh, elems, i)
    {
      elems := InjectElem(list, i, j.items, sh, elems);
    }
    after := ListShape(list, elems, sh.foot);
    InjectArr(j);
  }

  // --- Dicts ------------------------------------------------------------------

  ghost predicate SameKids(a: map<string, Shape>, b: map<string, Shape>) {
    a.Keys == b.Keys && forall k | k in a :: Foot(a[k]) == Foot(b[k]) && Separate(a[k])
  }

  // A field on its way: the new value under the keys finished, the old one under the others.
  function Halfway(m: map<string, Json>, target: map<string, Json>, finished: seq<string>, k: string): Json
    requires k in m && k in target
  {
    if k in finished then target[k] else m[k]
  }

  ghost predicate DictUpTo(dict: PyDict, m: map<string, Json>, target: map<string, Json>, sh: Shape,
                           kids: map<string, Shape>, finished: seq<string>)
    reads Foot(sh)
  {
    && sh.DictShape? && sh.dict == dict && dict in sh.foot && dict.fields.Keys == kids.Keys == m.Keys == target.Keys
    && forall k | k in kids ::
         Foot(kids[k]) <= sh.foot && Holds(dict.fields[k], Halfway(m, target, finished, k), kids[k])
  }

  // The value of a group key is a dict of schemas; any other is a schema or a list of schemas.
  function Inner(group: bool, j: Json): Json { if group then InjectGroup(j) else Inject(j) }

  method InjectValue(value: Value, group: bool, ghost j: Json, ghost sh: Shape) returns (ghost after: Shape)
    requires Separate(sh) && Holds(value, j, sh)
    modifies Foot(sh)
    ensures Foot(after) == Foot(sh) && Separate(after) && Holds(value, Inner(group, j), after)
    decreases j, 3
  {
    if !group {
      after := InjectAdditionalPropertiesFalse(value, j, sh);
    } else if value.DictRef? {
      after := InjectValues(value.dict, j, sh);
    } else {
      after := sh;
    }
  }

  lemma HalfwayNext(m: map<string, Json>, target: map<string, Json>, finished: seq<string>, key: string, k: string)
    requires k in m && k in target
    ensures Halfway(m, target, finished + [key], k) == if k == key then target[k] else Halfway(m, target, finished, k)
  {
    assert k in finished + [key] <==> k in finished || k == key;
  }

  lemma KidReplaced(kids: map<string, Shape>, was: map<string, Shape>, key: string, kid: Shape)
    requires SameKids(kids, was) && key in kids && Foot(kid) == Foot(kids[key]) && Separate(kid)
    ensures SameKids(kids[key := kid], was)
  {
  }

  lemma KeyStep(dict: PyDict, m: map<string, Json>, target: map<string, Json>, sh: Shape, kids: map<string, Shape>,
                finished: seq<string>, key: string, kid: Shape)
    requires sh.DictShape? && sh.dict == dict && dict in sh.foot
    requires dict.fields.Keys == kids.Keys == m.Keys == target.Keys && key in m
    requires Foot(kid) <= sh.foot && Holds(dict.fields[key], target[key], kid)
    requires forall k | k in kids && k != key ::
               Foot(kids[k]) <= sh.foot && Holds(dict.fields[k], Halfway(m, target, finished, k), kids[k])
    ensures DictUpTo(dict, m, target, sh, kids[key := kid], finished + [key])
  {
    var more := kids[key := kid];
    assert more.Keys == kids.Keys;
    forall k | k in more
      ensures Foot(more[k]) <= sh.foot && Holds(dict.fields[k], Halfway(m, target, finished + [key], k), more[k])
    {
      HalfwayNext(m, target, finished, key, k);
    }
  }

  method InjectKey(dict: PyDict, key: string, group: bool, ghost m: map<string, Json>, ghost target: map<string, Json>,
                   ghost sh: Shape, ghost kids: map<string, Shape>, ghost finished: seq<string>)
    returns (ghost after: map<string, Shape>)
    requires Separate(sh) && DictUpTo(dict, m, target, sh, kids, finished) && SameKids(kids, sh.kids)
    requires key in m && key !in finished && target[key] == Inner(group, m[key])
    modifies Foot(sh)
    ensures SameKids(after, sh.kids) && DictUpTo(dict, m, target, sh, after, finished + [key])
    decreases m[key], 4
  {
    ghost var kid := InjectValue(dict.fields[key], group, m[key], kids[key]);
    forall k | k in kids && k != key ensures Holds(dict.fields[k], Halfway(m, target, finished, k), kids[k]) {
      assert Foot(kids[k]) !! Foot(kids[key]);
      assert old(Holds(dict.fields[k], Halfway(m, target, finished, k), kids[k]));
    }
    KidReplaced(kids, sh.kids, key, kid);
    KeyStep(dict, m, target, sh, kids, finished, key, kid);
    after := kids[key := kid];
  }

  lemma NextKey(keys: seq<string>, i: nat)
    requires NoRepeats(keys) && i < |keys|
    ensures keys[..i+1] == keys[..i] + [keys[i]] && keys[i] !in keys[..i]
  {
  }

  lemma AllKeys(keys: seq<string>)
    ensures keys[..|keys|] == keys
  {
  }

  // The keys of a dict, in some order.
  method KeysOf(fields: map<string, Value>) returns (keys: seq<string>)
    ensures forall k :: k in keys <==> k in fields
    ensures NoRepeats(keys)
  {
    var rest := fields.Keys;
    keys := [];
    while rest != {}
      invariant forall k :: k in fields <==> k in keys || k in rest
      invariant forall k | k in keys :: k !in rest
      invariant NoRepeats(keys)
      decreases |rest|
    {
      var key :| key in rest;
      keys, rest := keys + [key], rest - {key};
    }
  }

  // The loop over the values of a group.
  method InjectEach(dict: PyDict, keys: seq<string>, ghost j: Json, ghost target: map<string, Json>, ghost sh: Shape)
    returns (ghost kids: map<string, Shape>)
    requires j.Obj? && Separate(sh) && sh.DictShape? && DictUpTo(dict, j.fields, target, sh, sh.kids, [])
    requires forall i | 0 <= i < |keys| :: keys[i] in j.fields && target[keys[i]] == Inner(false, j.fields[keys[i]])
    requires NoRepeats(keys)
    modifies Foot(sh)
    ensures SameKids(kids, sh.kids) && DictUpTo(dict, j.fields, target, sh, kids, keys)
    decreases j, 0
  {
    kids := sh.kids;
    for i := 0 to |keys|
      invariant SameKids(kids, sh.kids) && DictUpTo(dict, j.fields, target, sh, kids, keys[..i])
    {
      NextKey(keys, i);
      kids := InjectKey(dict, keys[i], false, j.fields, target, sh, kids, keys[..i]);
    }
    AllKeys(keys);
  }

  lemma DictStart(dict: PyDict, j: Json, target: map<string, Json>, sh: Shape)
    requires Separate(sh) && Holds(DictRef(dict), j, sh) && j.Obj? && target.Keys == j.fields.Keys
    ensures sh.DictShape? && SameKids(sh.kids, sh.kids) && DictUpTo(dict, j.fields, target, sh, sh.kids, [])
  {
  }

  lemma DictEnd(dict: PyDict, m: map<string, Json>, target: map<string, Json>, sh: Shape, kids: map<string, Shape>,
                finished: seq<string>)
    requires Separate(sh) && DictUpTo(dict, m, target, sh, kids, finished) && SameKids(kids, sh.kids)
    requires forall k | k in m && k !in finished :: target[k] == m[k]
    ensures Separate(DictShape(dict, kids, sh.foot))
    ensures Holds(DictRef(dict), Obj(target), DictShape(dict, kids, sh.foot))
  {
    forall k | k in kids ensures Holds(dict.fields[k], target[k], kids[k]) {
      assert Halfway(m, target, finished, k) == target[k];
    }
  }

  method InjectValues(dict: PyDict, ghost j: Json, ghost sh: Shape) returns (ghost after: Shape)
    requires Separate(sh) && Holds(DictRef(dict), j, sh)
    modifies Foot(sh)
    ensures Foot(after) == Foot(sh) && Separate(after) && Holds(DictRef(dict), InjectGroup(j), after)
    decreases j, 1
  {
    ghost var target := InjectGroup(j).fields;
    DictStart(dict, j, target, sh);
    var keys := KeysOf(dict.fields);
    ghost var kids := InjectEach(dict, keys, j, target, sh);
    DictEnd(dict, j.fields, target, sh, kids, keys);
    after := DictShape(dict, kids, sh.foot);
  }

  // What a dict holds once an open node has been closed.
  function Closed(m: map<string, Json>): map<string, Json> { if IsOpen(m) then m[ADDITIONAL := Bool(false)] else m }

  method SetDefault(dict: PyDict, ghost j: Json, ghost sh: Shape) returns (ghost after: Shape)
    requires Separate(sh) && Holds(DictRef(dict), j, sh)
    modifies dict
    ensures Foot(after) == Foot(sh) && Separate(after) && Holds(DictRef(dict), Obj(Closed(j.fields)), after)
  {
    after := sh;
    if "type" in dict.fields && dict.fields["type"] == Atom(Str("object")) && ADDITIONAL !in dict.fields {
      assert IsOpen(j.fields);
      dict.fields := dict.fields[ADDITIONAL := Atom(Bool(false))];
      after := DictShape(dict, sh.kids[ADDITIONAL := Leaf], sh.foot);
    } else {
      assert !IsOpen(j.fields);
    }
  }

  const GROUPS := ["properties", "$defs", "definitions"]
  const NODES := ["items", "anyOf", "allOf", "oneOf"]

  // The target of the named fields of a node is what one of the two loops makes of them.
  ghost predicate Targets(keys: seq<string>, group: bool, j: Json, target: map<string, Json>)
    requires j.Obj? && target.Keys == Closed(j.fields).Keys
  {
    forall k | k in keys && k in Closed(j.fields) :: k in j.fields && target[k] == Inner(group, j.fields[k])
  }

  // Tells the seven names apart by a letter each.
  function Rank(name: string): nat
    requires |name| >= 5
  {
    match name[0]
    case 'p' => 0
    case '$' => 1
    case 'd' => 2
    case 'i' => 3
    case 'o' => 6
    case _ => if name[1] == 'n' then 4 else if name[1] == 'l' then 5 else 7
  }

  lemma NamesAreDistinct()
    ensures NoRepeats(GROUPS) && NoRepeats(GROUPS + NODES) && ADDITIONAL !in GROUPS && ADDITIONAL !in NODES
    ensures [] + GROUPS == GROUPS
  {
    var all := GROUPS + NODES;
    assert all == ["properties", "$defs", "definitions", "items", "anyOf", "allOf", "oneOf"];
    assert forall i | 0 <= i < |all| :: Rank(all[i]) == i;
    assert Rank(ADDITIONAL) == 7;
  }

  lemma NamesAreKeys()
    ensures forall k :: k in GROUPS <==> k in GROUP_KEYS
    ensures forall k :: k in NODES <==> k in NODE_KEYS
    ensures forall k | k in NODES :: k !in GROUPS
  {
    NamesAreDistinct();
    forall k | k in NODES ensures k !in GROUPS {
      var n :| 0 <= n < |NODES| && NODES[n] == k;
      forall i | 0 <= i < |GROUPS| ensures GROUPS[i] != k {
        assert (GROUPS + NODES)[i] == GROUPS[i] && (GROUPS + NODES)[|GROUPS| + n] == k;
      }
    }
  }

  // What becomes of the fields of a closed node.
  lemma TargetOf(m: map<string, Json>)
    ensures Inject(Obj(m)).Obj? && Inject(Obj(m)).fields.Keys == Closed(m).Keys
    ensures Targets(GROUPS, true, Obj(m), Inject(Obj(m)).fields) && Targets(NODES, false, Obj(m), Inject(Obj(m)).fields)
    ensures forall k | k in Closed(m) && k !in GROUPS + NODES :: Inject(Obj(m)).fields[k] == Closed(m)[k]
  {
    InjectObj(Obj(m));
    NamesAreDistinct();
    NamesAreKeys();
  }

  lemma SkipKey(dict: PyDict, m: map<string, Json>, target: map<string, Json>, sh: Shape, kids: map<string, Shape>,
                finished: seq<string>, key: string)
    requires DictUpTo(dict, m, target, sh, kids, finished) && key !in m
    ensures DictUpTo(dict, m, target, sh, kids, finished + [key])
  {
    forall k | k in kids ensures Holds(dict.fields[k], Halfway(m, target, finished + [key], k), kids[k]) {
      assert Halfway(m, target, finished + [key], k) == Halfway(m, target, finished, k);
    }
  }

  lemma NextName(finished: seq<string>, keys: seq<string>, i: nat)
    requires NoRepeats(finished + keys) && i < |keys|
    ensures finished + keys[..i+1] == finished + keys[..i] + [keys[i]] && keys[i] !in finished + keys[..i]
  {
    var all := finished + keys;
    assert all[|finished| + i] == keys[i];
    assert forall k | 0 <= k < |finished| + i :: all[k] == (finished + keys[..i])[k];
  }

  // One of the two loops over named keys of a node.
  method InjectNamed(dict: PyDict, keys: seq<string>, group: bool, ghost j: Json, ghost target: map<string, Json>,
                     ghost sh: Shape, ghost kids: map<string, Shape>, ghost finished: seq<string>)
    returns (ghost after: map<string, Shape>)
    requires j.Obj? && Separate(sh) && sh.DictShape? && SameKids(kids, sh.kids)
    requires DictUpTo(dict, Closed(j.fields), target, sh, kids, finished)
    requires Targets(keys, group, j, target)
    requires NoRepeats(finished + keys) && ADDITIONAL !in keys
    modifies Foot(sh)
    ensures SameKids(after, sh.kids) && DictUpTo(dict, Closed(j.fields), target, sh, after, finished + keys)
    decreases j, 0
  {
    after := kids;
    assert finished + keys[..0] == finished;
    for i := 0 to |keys|
      invariant SameKids(after, sh.kids) && DictUpTo(dict, Closed(j.fields), target, sh, after, finished + keys[..i])
    {
      NextName(finished, keys, i);
      if keys[i] in dict.fields {
        after := InjectKey(dict, keys[i], group, Closed(j.fields), target, sh, after, finished + keys[..i]);
      } else {
        SkipKey(dict, Closed(j.fields), target, sh, after, finished + keys[..i], keys[i]);
      }
    }
    AllKeys(keys);
  }

  method InjectDict(dict: PyDict, ghost j: Json, ghost sh: Shape) returns (ghost after: Shape)
    requires Separate(sh) && Holds(DictRef(dict), j, sh)
    modifies Foot(sh)
    ensures Foot(after) == Foot(sh) && Separate(after) && Holds(DictRef(dict), Inject(j), after)
    ensures OnlyCloses(j, Inject(j))
    decreases j, 1
  {
    ghost var closed := SetDefault(dict, j, sh);
    ghost var m, target := Closed(j.fields), Inject(j).fields;
    TargetOf(j.fields);
    NamesAreDistinct();
    DictStart(dict, Obj(m), target, closed);
    ghost var kids := InjectNamed(dict, GROUPS, true, j, target, closed, closed.kids, []);
    kids := InjectNamed(dict, NODES, false, j, target, closed, kids, GROUPS);
    DictEnd(dict, m, target, closed, kids, GROUPS + NODES);
    InjectOnlyCloses(j);
    after := DictShape(dict, kids, closed.foot);
  }

  method InjectAdditionalPropertiesFalse(node: Value, ghost j: Json, ghost sh: Shape) returns (ghost after: Shape)
    requires Separate(sh) && Holds(node, j, sh)
    modifies Foot(sh)
    ensures Foot(after) == Foot(sh) && Separate(after) && Holds(node, Inject(j), after)
    decreases j, 2
  {
    match node {
      case ListRef(list) => after := InjectList(list, j, sh);
      case DictRef(dict) => after := InjectDict(dict, j, sh);
      case Atom(_) => after := sh;
    }
  }

  // --- The deep copy ----------------------------------------------------------

  method CopyList(list: PyList, ghost j: Json, ghost sh: Shape) returns (copy: PyList, ghost after: Shape)
    requires Holds(ListRef(list), j, sh)
    ensures fresh(Foot(after)) && Separate(after) && Holds(ListRef(copy), j, after)
    decreases j, 1
  {
    var items: seq<Value> := [];
    ghost var elems: seq<Shape> := [];
    ghost var foot: set<object> := {};
    for i := 0 to |list.items|
      invariant |items| == |elems| == i && fresh(foot)
      invariant forall k | 0 <= k < i ::
                  Separate(elems[k]) && Foot(elems[k]) <= foot && Holds(items[k], j.items[k], elems[k])
      invariant forall k, l | 0 <= k < l < i :: Foot(elems[k]) !! Foot(elems[l])
    {
      var item, elem := DeepCopy(list.items[i], j.items[i], sh.elems[i]);
      items, elems, foot := items + [item], elems + [elem], foot + Foot(elem);
    }
    copy := new PyList(items);
    after := ListShape(copy, elems, foot + {copy});
  }

  function Upto(keys: seq<string>, n: nat): set<string>
    requires n <= |keys|
  {
    set k | k in keys[..n]
  }

  lemma NextUpto(keys: seq<string>, i: nat)
    requires NoRepeats(keys) && i < |keys|
    ensures Upto(keys, i + 1) == Upto(keys, i) + {keys[i]} && keys[i] !in Upto(keys, i)
  {
    NextKey(keys, i);
  }

  // Fields copied so far.
  ghost predicate Copied(fields: map<string, Value>, j: Json, kids: map<string, Shape>, foot: set<object>)
    reads foot
  {
    && j.Obj? && fields.Keys == kids.Keys
    && (forall k | k in kids ::
          k in j.fields && Separate(kids[k]) && Foot(kids[k]) <= foot && Holds(fields[k], j.fields[k], kids[k]))
    && forall k, l | k in kids && l in kids && k != l :: Foot(kids[k]) !! Foot(kids[l])
  }

  lemma CopyStep(fields: map<string, Value>, j: Json, kids: map<string, Shape>, foot: set<object>, key: string,
                 value: Value, kid: Shape)
    requires Copied(fields, j, kids, foot) && key !in fields && key in j.fields
    requires Separate(kid) && Foot(kid) !! foot && Holds(value, j.fields[key], kid)
    ensures Copied(fields[key := value], j, kids[key := kid], foot + Foot(kid))
  {
    var more := kids[key := kid];
    forall k, l | k in more && l in more && k != l ensures Foot(more[k]) !! Foot(more[l]) {
      if k == key { assert Foot(kids[l]) <= foot; } else if l == key { assert Foot(kids[k]) <= foot; }
    }
  }

  method CopyFields(dict: PyDict, keys: seq<string>, ghost j: Json, ghost sh: Shape)
    returns (fields: map<string, Value>, ghost kids: map<string, Shape>, ghost foot: set<object>)
    requires Holds(DictRef(dict), j, sh) && NoRepeats(keys) && forall k | k in keys :: k in dict.fields
    ensures fields.Keys == Upto(keys, |keys|) && fresh(foot) && Copied(fields, j, kids, foot)
    decreases j, 0
  {
    fields, kids, foot := map[], map[], {};
    for i := 0 to |keys|
      invariant fields.Keys == Upto(keys, i) && fresh(foot) && Copied(fields, j, kids, foot)
    {
      NextUpto(keys, i);
      var value, kid := DeepCopy(dict.fields[keys[i]], j.fields[keys[i]], sh.kids[keys[i]]);
      CopyStep(fields, j, kids, foot, keys[i], value, kid);
      fields, kids, foot := fields[keys[i] := value], kids[keys[i] := kid], foot + Foot(kid);
    }
  }

  lemma CopyEnd(copy: PyDict, j: Json, kids: map<string, Shape>, foot: set<object>)
    requires Copied(copy.fields, j, kids, foot) && copy !in foot && copy.fields.Keys == j.fields.Keys
    ensures Separate(DictShape(copy, kids, foot + {copy}))
    ensures Holds(DictRef(copy), j, DictShape(copy, kids, foot + {copy}))
  {
  }

  lemma UptoAll(keys: seq<string>, all: set<string>)
    requires forall k :: k in keys <==> k in all
    ensures Upto(keys, |keys|) == all
  {
    AllKeys(keys);
  }

  method CopyDict(dict: PyDict, ghost j: Json, ghost sh: Shape) returns (copy: PyDict, ghost after: Shape)
    requires Holds(DictRef(dict), j, sh)
    ensures fresh(Foot(after)) && Separate(after) && Holds(DictRef(copy), j, after)
    decreases j, 1
  {
    var keys := KeysOf(dict.fields);
    var fields, kids, foot := CopyFields(dict, keys, j, sh);
    UptoAll(keys, dict.fields.Keys);
    copy := new PyDict(fields);
    CopyEnd(copy, j, kids, foot);
    after := DictShape(copy, kids, foot + {copy});
  }

  method DeepCopy(v: Value, ghost j: Json, ghost sh: Shape) returns (copy: Value, ghost after: Shape)
    requires Holds(v, j, sh)
    ensures fresh(Foot(after)) && Separate(after) && Holds(copy, j, after)
    decreases j, 2
  {
    match v {
      case ListRef(list) =>
        var l;
        l, after := CopyList(list, j, sh);
        copy := ListRef(l);
      case DictRef(dict) =>
        var d;
        d, after := CopyDict(dict, j, sh);
        copy := DictRef(d);
      case Atom(_) =>
        copy, after := v, Leaf;
    }
  }

  // The injected schema is built of new objects only, and says false exactly where a node was left open; nothing the
  // caller holds has changed.
  method NormalizeSchema(schema: PyDict, ghost j: Json, ghost sh: Shape)
    returns (normalized: PyDict, ghost after: Shape)
    requires Holds(DictRef(schema), j, sh)
    ensures fresh(Foot(after)) && Separate(after) && Holds(DictRef(normalized), Inject(j), after)
    ensures OnlyCloses(j, Inject(j)) && Holds(DictRef(schema), j, sh)
  {
    normalized, after := CopyDict(schema, j, sh);
    after := InjectAdditionalPropertiesFalse(DictRef(normalized), j, after);
    InjectOnlyCloses(j);
  }
}
