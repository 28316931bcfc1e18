// The evaluation as a rule about the set of applicable policies, whatever order they and the groups come in.
module PolicyRules {
  import opened Wrappers
  import opened KeyLedger
  import opened PolicyEngine

  // A policy concerns a user.
  predicate Applies(user: User, p: Policy) {
    && p.isActive
    && (|| p.scopeType == "global"
        || (p.scopeType == "user" && p.scopeId == user.id)
        || (p.scopeType == "group" && p.scopeId in user.groups)
        || (p.scopeType == "department" && user.department == Some(p.scopeId)))
  }

  predicate PassesGate(user: User) { user.isActive && user.proxyAccessEnabled }

  // --- Membership -------------------------------------------------------------

  lemma {:induction false} CoveredMembers(s: Scope, ps: seq<Policy>, p: Policy)
    ensures p in Covered(s, ps) <==> p in ps && Covers(s, p)
  {
    if ps != [] {
      CoveredMembers(s, ps[..|ps|-1], p);
      assert ps == ps[..|ps|-1] + [ps[|ps|-1]];
    }
  }

  predicate AnyCovers(scopes: seq<Scope>, p: Policy) { exists i | 0 <= i < |scopes| :: Covers(scopes[i], p) }

  lemma AnyCoversLast(scopes: seq<Scope>, p: Policy)
    requires scopes != []
    ensures AnyCovers(scopes, p) <==> AnyCovers(scopes[..|scopes|-1], p) || Covers(scopes[|scopes|-1], p)
  {
    var front := scopes[..|scopes|-1];
    assert forall i | 0 <= i < |front| :: front[i] == scopes[i];
  }

  lemma {:induction false} CollectedMembers(scopes: seq<Scope>, ps: seq<Policy>, p: Policy)
    ensures p in Collected(scopes, ps) <==> p in ps && AnyCovers(scopes, p)
  {
    if scopes != [] {
      CollectedMembers(scopes[..|scopes|-1], ps, p);
      CoveredMembers(scopes[|scopes|-1], ps, p);
      AnyCoversLast(scopes, p);
    }
  }

  lemma AppliesCovers(user: User, p: Policy)
    ensures Applies(user, p) <==> AnyCovers(Scopes(user), p)
  {
    var scopes, n := Scopes(user), |user.groups|;
    assert forall i | 0 <= i < n :: scopes[1 + i] == GroupScopes(user.groups)[i];
    assert scopes[n + 1] == Scope("department", user.department) && scopes[n + 2] == Scope("global", None);
    if Applies(user, p) {
      if p.scopeType == "user" { assert Covers(scopes[0], p); }
      else if p.scopeType == "group" {
        var i :| 0 <= i < n && user.groups[i] == p.scopeId;
        assert Covers(scopes[1 + i], p);
      }
      else if p.scopeType == "department" { assert Covers(scopes[n + 1], p); }
      else { assert Covers(scopes[n + 2], p); }
    }
  }

  // Exactly the applicable policies are collected.
  lemma CollectsApplicable(user: User, ps: seq<Policy>, p: Policy)
    ensures p in Collected(Scopes(user), ps) <==> p in ps && Applies(user, p)
  {
    CollectedMembers(Scopes(user), ps, p);
    AppliesCovers(user, p);
  }

  // --- The declarative rule ---------------------------------------------------

  predicate DenialApplies(rules: Rules, user: User, model: string, ps: seq<Policy>) {
    exists p | p in ps :: Applies(user, p) && p.ruleType == "deny_model" && rules.matches(model, p.ruleValue)
  }

  predicate AllowApplies(rules: Rules, user: User, model: string, ps: seq<Policy>) {
    exists p | p in ps :: Applies(user, p) && p.ruleType == "allow_model" && rules.matches(model, p.ruleValue)
  }

  predicate AccessRuleApplies(user: User, ps: seq<Policy>) {
    exists p | p in ps :: Applies(user, p) && (p.ruleType == "allow_model" || p.ruleType == "deny_model")
  }

  predicate CapApplies(rules: Rules, user: User, ps: seq<Policy>, n: int) {
    exists p | p in ps :: Applies(user, p) && p.ruleType == "max_output_tokens" && rules.int_(p.ruleValue) == Some(n)
  }

  predicate BadCapApplies(rules: Rules, user: User, ps: seq<Policy>) {
    exists p | p in ps :: Applies(user, p) && p.ruleType == "max_output_tokens" && rules.int_(p.ruleValue).None?
  }

  // Deny overrides; any rule at all makes a matching allow necessary.
  function Ruling(rules: Rules, user: User, model: string, ps: seq<Policy>): Option<DenialReason> {
    if DenialApplies(rules, user, model, ps) then Some(ModelDenied)
    else if AccessRuleApplies(user, ps) && !AllowApplies(rules, user, model, ps) then Some(ModelNotAllowed)
    else None
  }

  lemma VerdictIsRuling(rules: Rules, user: User, model: string, ps: seq<Policy>)
    ensures Verdict(rules, model, Collected(Scopes(user), ps)) == Ruling(rules, user, model, ps)
  {
    forall p ensures p in Collected(Scopes(user), ps) <==> p in ps && Applies(user, p) {
      CollectsApplicable(user, ps, p);
    }
  }

  lemma {:induction false} LimitsAreCaps(rules: Rules, ps: seq<Policy>)
    ensures TokenLimits(rules, ps).Err? <==>
            exists p | p in ps :: p.ruleType == MAX_OUTPUT_TOKENS_RULE && rules.int_(p.ruleValue).None?
    ensures TokenLimits(rules, ps).Ok? ==> forall n :: n in TokenLimits(rules, ps).value <==>
            exists p | p in ps :: p.ruleType == MAX_OUTPUT_TOKENS_RULE && rules.int_(p.ruleValue) == Some(n)
  {
    if ps != [] {
      LimitsAreCaps(rules, ps[1..]);
      assert ps == [ps[0]] + ps[1..];
    }
  }

  lemma {:induction false} MinIsMin(ns: seq<int>)
    requires ns != []
    ensures Min(ns) in ns
    ensures forall n | n in ns :: Min(ns) <= n
  {
    if |ns| > 1 {
      MinIsMin(ns[1..]);
      assert ns == [ns[0]] + ns[1..];
    }
  }

  // Some applicable cap is no number, or the result is the least of the applicable caps.
  ghost predicate IsCap(rules: Rules, user: User, ps: seq<Policy>, r: Result<Option<int>, ValueError>) {
    match r
    case Err(_) => BadCapApplies(rules, user, ps)
    case Ok(None) => !BadCapApplies(rules, user, ps) && forall n :: !CapApplies(rules, user, ps, n)
    case Ok(Some(m)) =>
      && !BadCapApplies(rules, user, ps) && CapApplies(rules, user, ps, m)
      && forall n | CapApplies(rules, user, ps, n) :: m <= n
  }

  lemma CapIsLeast(rules: Rules, user: User, ps: seq<Policy>)
    ensures IsCap(rules, user, ps, MaxOutputTokens(rules, Collected(Scopes(user), ps)))
  {
    var ordered := Collected(Scopes(user), ps);
    forall p ensures p in ordered <==> p in ps && Applies(user, p) { CollectsApplicable(user, ps, p); }
    LimitsAreCaps(rules, ordered);
    if TokenLimits(rules, ordered).Ok? {
      var limits := TokenLimits(rules, ordered).value;
      assert forall n :: n in limits <==> CapApplies(rules, user, ps, n);
      if limits == [] {
        forall n ensures !CapApplies(rules, user, ps, n) { assert n !in limits; }
      } else {
        MinIsMin(limits);
      }
    }
  }

  function CapOf(r: Result<PolicyDecision, ValueError>): Result<Option<int>, ValueError> {
    match r case Ok(d) => Ok(d.maxOutputTokens) case Err(e) => Err(e)
  }

  // The whole decision, for a user past the gate.
  lemma DecisionIsDeclarative(rules: Rules, user: User, model: string, ps: seq<Policy>)
    requires PassesGate(user)
    ensures IsCap(rules, user, ps, CapOf(Evaluate(rules, user, model, ps)))
    ensures Evaluate(rules, user, model, ps).Ok? ==>
      var d := Evaluate(rules, user, model, ps).value;
      d.reason == Ruling(rules, user, model, ps) && (d.allowed <==> d.reason.None?)
  {
    VerdictIsRuling(rules, user, model, ps);
    CapIsLeast(rules, user, ps);
  }

  // --- Consequences -----------------------------------------------------------

  // Users who differ at most in the order and repetition of their groups.
  ghost predicate SameStanding(u: User, v: User) {
    && u.(groups := []) == v.(groups := [])
    && forall g :: g in u.groups <==> g in v.groups
  }

  // Decision, reason and cap depend on neither the order of policies nor the order or repetition of groups.
  lemma DecisionIsOrderFree(rules: Rules, u: User, v: User, model: string, ps: seq<Policy>, qs: seq<Policy>)
    requires SameStanding(u, v) && forall p :: p in ps <==> p in qs
    ensures var d, e := Evaluate(rules, u, model, ps), Evaluate(rules, v, model, qs);
      || (d.Err? && e.Err?)
      || (d.Ok? && e.Ok? && d.value.allowed == e.value.allowed && d.value.reason == e.value.reason
          && d.value.maxOutputTokens == e.value.maxOutputTokens)
  {
    assert && u.isActive == v.isActive && u.proxyAccessEnabled == v.proxyAccessEnabled
           && u.id == v.id && u.department == v.department by {
      assert u.(groups := []).id == v.(groups := []).id;
    }
    if PassesGate(u) {
      assert forall p :: Applies(u, p) <==> Applies(v, p);
      DecisionIsDeclarative(rules, u, model, ps);
      DecisionIsDeclarative(rules, v, model, qs);
      assert BadCapApplies(rules, u, ps) <==> BadCapApplies(rules, v, qs);
      assert forall n :: CapApplies(rules, u, ps, n) <==> CapApplies(rules, v, qs, n);
    }
  }

  // A denial stays a denial when deny rules are added anywhere; only its reason may change.
  lemma AddingDenyKeepsDenial(rules: Rules, user: User, model: string, ps: seq<Policy>, qs: seq<Policy>)
    requires forall p | p in ps :: p in qs
    requires forall q | q in qs && q !in ps :: q.ruleType == "deny_model"
    requires Evaluate(rules, user, model, ps).Ok? && !Evaluate(rules, user, model, ps).value.allowed
    ensures Evaluate(rules, user, model, qs).Ok? && !Evaluate(rules, user, model, qs).value.allowed
  {
    if PassesGate(user) {
      DecisionIsDeclarative(rules, user, model, ps);
      DecisionIsDeclarative(rules, user, model, qs);
      assert BadCapApplies(rules, user, qs) ==> BadCapApplies(rules, user, ps);
      assert AllowApplies(rules, user, model, qs) ==> AllowApplies(rules, user, model, ps);
      assert DenialApplies(rules, user, model, ps) ==> DenialApplies(rules, user, model, qs);
      assert AccessRuleApplies(user, ps) ==> AccessRuleApplies(user, qs);
    }
  }

  // --- The order of the matched policies --------------------------------------

  // A place a policy is collected from: a scope and a position in the list.
  datatype Place = Place(scope: nat, at: nat)

  predicate PlaceLess(x: Place, y: Place) { x.scope < y.scope || (x.scope == y.scope && x.at < y.at) }

  predicate IsPlace(scopes: seq<Scope>, ps: seq<Policy>, x: Place) {
    x.scope < |scopes| && x.at < |ps| && Covers(scopes[x.scope], ps[x.at])
  }

  function ScopePlaces(scopes: seq<Scope>, ps: seq<Policy>, scope: nat): seq<Place>
    requires scope < |scopes|
  {
    if ps == [] then []
    else
      ScopePlaces(scopes, ps[..|ps|-1], scope)
      + (if Covers(scopes[scope], ps[|ps|-1]) then [Place(scope, |ps|-1)] else [])
  }

  function Places(scopes: seq<Scope>, ps: seq<Policy>, n: nat): seq<Place>
    requires n <= |scopes|
  {
    if n == 0 then [] else Places(scopes, ps, n - 1) + ScopePlaces(scopes, ps, n - 1)
  }

  // The list xs holds the policies at the places in `at`, which are in order and exactly those of the scopes lo to hi.
  ghost predicate Lists(scopes: seq<Scope>, ps: seq<Policy>, xs: seq<Policy>, at: seq<Place>, lo: nat, hi: nat) {
    && |at| == |xs|
    && (forall k | 0 <= k < |at| :: IsPlace(scopes, ps, at[k]) && lo <= at[k].scope < hi && xs[k] == ps[at[k].at])
    && (forall j, k | 0 <= j < k < |at| :: PlaceLess(at[j], at[k]))
    && forall x | IsPlace(scopes, ps, x) && lo <= x.scope < hi :: x in at
  }

  lemma {:induction false} ScopeLists(scopes: seq<Scope>, ps: seq<Policy>, scope: nat)
    requires scope < |scopes|
    ensures Lists(scopes, ps, Covered(scopes[scope], ps), ScopePlaces(scopes, ps, scope), scope, scope + 1)
  {
    if ps != [] {
      var front := ps[..|ps|-1];
      ScopeLists(scopes, front, scope);
      assert forall i | 0 <= i < |front| :: front[i] == ps[i];
      forall x | IsPlace(scopes, ps, x) && scope <= x.scope < scope + 1 ensures x in ScopePlaces(scopes, ps, scope) {
        if x.at < |front| { assert IsPlace(scopes, front, x); }
      }
    }
  }

  lemma ListsConcat(scopes: seq<Scope>, ps: seq<Policy>, xs: seq<Policy>, at: seq<Place>,
                    ys: seq<Policy>, bt: seq<Place>, mid: nat, hi: nat)
    requires mid <= hi && Lists(scopes, ps, xs, at, 0, mid) && Lists(scopes, ps, ys, bt, mid, hi)
    ensures Lists(scopes, ps, xs + ys, at + bt, 0, hi)
  {
  }

  lemma {:induction false} CollectedLists(scopes: seq<Scope>, ps: seq<Policy>, n: nat)
    requires n <= |scopes|
    ensures Lists(scopes, ps, Collected(scopes[..n], ps), Places(scopes, ps, n), 0, n)
  {
    if n > 0 {
      CollectedLists(scopes, ps, n - 1);
      ScopeLists(scopes, ps, n - 1);
      assert scopes[..n][..n-1] == scopes[..n-1];
      ListsConcat(scopes, ps, Collected(scopes[..n-1], ps), Places(scopes, ps, n - 1),
                  Covered(scopes[n-1], ps), ScopePlaces(scopes, ps, n - 1), n - 1, n);
    }
  }

  // The matched policies are those of the places covered by a scope of the user, by scope and then by position.
  lemma MatchedOrder(user: User, ps: seq<Policy>)
    ensures var scopes := Scopes(user);
      Lists(scopes, ps, Collected(scopes, ps), Places(scopes, ps, |scopes|), 0, |scopes|)
  {
    CollectedLists(Scopes(user), ps, |Scopes(user)|);
    assert Scopes(user)[..|Scopes(user)|] == Scopes(user);
  }

  lemma OneScopeEach(user: User, p: Policy, a: nat, b: nat)
    requires NoRepeats(user.groups) && a < |Scopes(user)| && b < |Scopes(user)|
    requires Covers(Scopes(user)[a], p) && Covers(Scopes(user)[b], p)
    ensures a == b
  {
    var scopes, n := Scopes(user), |user.groups|;
    assert forall i | 0 <= i < n :: scopes[1 + i] == GroupScopes(user.groups)[i];
    assert scopes[n + 1] == Scope("department", user.department) && scopes[n + 2] == Scope("global", None);
    assert 1 <= a <= n ==> scopes[a] == Scope("group", Some(user.groups[a-1]));
    assert 1 <= b <= n ==> scopes[b] == Scope("group", Some(user.groups[b-1]));
  }

  function MatchedPlaces(user: User, ps: seq<Policy>): seq<Place> { Places(Scopes(user), ps, |Scopes(user)|) }

  // Exactly the applicable policies are matched somewhere.
  lemma MatchedSomewhere(user: User, ps: seq<Policy>, i: nat)
    requires i < |ps|
    ensures Applies(user, ps[i]) <==> exists x | x in MatchedPlaces(user, ps) :: x.at == i
  {
    var scopes := Scopes(user);
    MatchedOrder(user, ps);
    AppliesCovers(user, ps[i]);
    if Applies(user, ps[i]) {
      var a :| 0 <= a < |scopes| && Covers(scopes[a], ps[i]);
      assert IsPlace(scopes, ps, Place(a, i));
    }
    if x :| x in MatchedPlaces(user, ps) && x.at == i { assert Covers(scopes[x.scope], ps[i]); }
  }

  // With distinct groups no policy is matched twice.
  lemma MatchedOnce(user: User, ps: seq<Policy>, j: nat, k: nat)
    requires NoRepeats(user.groups) && j < k < |MatchedPlaces(user, ps)|
    ensures MatchedPlaces(user, ps)[j].at != MatchedPlaces(user, ps)[k].at
  {
    var at := MatchedPlaces(user, ps);
    MatchedOrder(user, ps);
    assert PlaceLess(at[j], at[k]);
    if at[j].at == at[k].at { OneScopeEach(user, ps[at[j].at], at[j].scope, at[k].scope); }
  }

  // --- The trace --------------------------------------------------------------

  function GroupNames(groups: seq<string>): seq<string> {
    seq(|groups|, i requires 0 <= i < |groups| => "group:" + groups[i])
  }

  // The scopes looked at, in order; a user without a department is not looked up under one.
  function ScopeNames(user: User): seq<string> {
    ["user_status", "user:" + user.id] + GroupNames(user.groups)
    + (if user.department.Some? then ["department:" + user.department.value, "global"] else ["global"])
  }

  lemma {:induction false} LabelsAppend(a: seq<Scope>, b: seq<Scope>)
    ensures Labels(a + b) == Labels(a) + Labels(b)
  {
    if b == [] {
      assert a + b == a;
    } else {
      assert (a + b)[..|a + b|-1] == a + b[..|b|-1];
      LabelsAppend(a, b[..|b|-1]);
    }
  }

  lemma LabelSays(kind: string, id: string)
    requires kind == "user" || kind == "group" || kind == "department"
    ensures Label(Scope(kind, Some(id))) == [kind + ":" + id]
    ensures kind == "user" ==> kind + ":" + id == "user:" + id
    ensures kind == "group" ==> kind + ":" + id == "group:" + id
    ensures kind == "department" ==> kind + ":" + id == "department:" + id
  {
    assert "user" + ":" == "user:" && "group" + ":" == "group:" && "department" + ":" == "department:";
  }

  lemma {:induction false} GroupLabels(groups: seq<string>)
    ensures Labels(GroupScopes(groups)) == GroupNames(groups)
  {
    if groups != [] {
      var front := groups[..|groups|-1];
      GroupLabels(front);
      LabelSays("group", groups[|groups|-1]);
      assert GroupScopes(groups)[..|groups|-1] == GroupScopes(front);
      assert GroupNames(groups) == GroupNames(front) + ["group:" + groups[|groups|-1]];
    }
  }

  lemma OneLabel(s: Scope)
    ensures Labels([s]) == Label(s)
  {
    assert [s][..0] == [] && Labels([s][..0]) == [];
  }

  lemma LabelsOfScopes(user: User)
    ensures Labels(Scopes(user)) ==
            (Label(Scope("user", Some(user.id))) + GroupNames(user.groups))
            + (Label(Scope("department", user.department)) + Label(Scope("global", None)))
  {
    var own, all := Scope("user", Some(user.id)), Scope("global", None);
    var department, groups := Scope("department", user.department), GroupScopes(user.groups);
    assert Scopes(user) == ([own] + groups) + ([department] + [all]);
    LabelsAppend([own] + groups, [department] + [all]);
    LabelsAppend([own], groups);
    LabelsAppend([department], [all]);
    GroupLabels(user.groups);
    OneLabel(own);
    OneLabel(department);
    OneLabel(all);
  }

  lemma Regroup(a: string, b: seq<string>, c: seq<string>, d: string)
    ensures ["user_status"] + (([a] + b) + (c + [d])) == ["user_status", a] + b + (c + [d])
  {
  }

  lemma TraceNames(user: User)
    ensures ["user_status"] + Labels(Scopes(user)) == ScopeNames(user)
  {
    LabelsOfScopes(user);
    LabelSays("user", user.id);
    var department := Label(Scope("department", user.department));
    if user.department.Some? {
      LabelSays("department", user.department.value);
      assert department + ["global"] == ["department:" + user.department.value, "global"];
    } else {
      assert department + ["global"] == ["global"];
    }
    Regroup("user:" + user.id, GroupNames(user.groups), department, "global");
  }

  // Whatever the ruling, the decision names the scopes looked at and the policies matched, in order; a user who is
  // inactive or has no access is denied for that, before any policy is looked at.
  lemma DecisionIsTraced(rules: Rules, user: User, model: string, ps: seq<Policy>)
    ensures var r := Evaluate(rules, user, model, ps);
      if !user.isActive then r == Ok(PolicyDecision(false, Some(UserInactive), None, ["user_status"], []))
      else if !user.proxyAccessEnabled then
        r == Ok(PolicyDecision(false, Some(ProxyAccessDisabled), None, ["user_status"], []))
      else r.Ok? ==>
        && r.value.scopes == ScopeNames(user)
        && |r.value.matchedIds| == |MatchedPlaces(user, ps)|
        && forall k | 0 <= k < |r.value.matchedIds| ::
             MatchedPlaces(user, ps)[k].at < |ps| && r.value.matchedIds[k] == ps[MatchedPlaces(user, ps)[k].at].id
  {
    TraceNames(user);
    MatchedOrder(user, ps);
  }
}
