// The access-policy evaluation of proxy/policy_engine.py.
module PolicyEngine {
  import opened Wrappers
  import opened KeyLedger

  datatype Policy = Policy(
    id: string, scopeType: string, scopeId: string, ruleType: string, ruleValue: string, isActive: bool)

  // fnmatchcase(model, pattern), and int() on a rule value.
  datatype Rules = Rules(matches: (string, string) -> bool, int_: string -> Option<int>)

  const ALLOW_RULE := "allow_model"
  const DENY_RULE := "deny_model"
  const MAX_OUTPUT_TOKENS_RULE := "max_output_tokens"

  datatype DenialReason = UserInactive | ProxyAccessDisabled | ModelDenied | ModelNotAllowed

  datatype PolicyDecision = PolicyDecision(
    allowed: bool,
    reason: Option<DenialReason>,
    maxOutputTokens: Option<int>,
    scopes: seq<string>,
    matchedIds: seq<string>)

  // A rule value is no integer.
  datatype ValueError = ValueError

  // --- Collection by scope ----------------------------------------------------

  datatype Scope = Scope(kind: string, id: Option<string>)

  function GroupScopes(groups: seq<string>): (r: seq<Scope>)
    ensures |r| == |groups|
  {
    seq(|groups|, i requires 0 <= i < |groups| => Scope("group", Some(groups[i])))
  }

  function Scopes(user: User): seq<Scope> {
    [Scope("user", Some(user.id))] + GroupScopes(user.groups)
    + [Scope("department", user.department), Scope("global", None)]
  }

  predicate Covers(s: Scope, p: Policy) {
    p.isActive && p.scopeType == s.kind && (s.kind == "global" || s.id == Some(p.scopeId))
  }

  function Covered(s: Scope, ps: seq<Policy>): seq<Policy> {
    if ps == [] then [] else Covered(s, ps[..|ps|-1]) + (if Covers(s, ps[|ps|-1]) then [ps[|ps|-1]] else [])
  }

  function Collected(scopes: seq<Scope>, ps: seq<Policy>): seq<Policy> {
    if scopes == [] then [] else Collected(scopes[..|scopes|-1], ps) + Covered(scopes[|scopes|-1], ps)
  }

  function Label(s: Scope): seq<string> {
    if s.kind == "global" then ["global"]
    else match s.id case None => [] case Some(id) => [s.kind + ":" + id]
  }

  function Labels(scopes: seq<Scope>): seq<string> {
    if scopes == [] then [] else Labels(scopes[..|scopes|-1]) + Label(scopes[|scopes|-1])
  }

  lemma {:induction false} NothingCovered(s: Scope, ps: seq<Policy>)
    requires s.kind != "global" && s.id.None?
    ensures Covered(s, ps) == []
  {
    if ps != [] { NothingCovered(s, ps[..|ps|-1]); }
  }

  lemma NextScope(scopes: seq<Scope>, ps: seq<Policy>, trace: seq<string>, i: nat)
    requires i < |scopes|
    ensures trace + Labels(scopes[..i+1]) == trace + Labels(scopes[..i]) + Label(scopes[i])
    ensures Collected(scopes[..i+1], ps) == Collected(scopes[..i], ps) + Covered(scopes[i], ps)
  {
    assert scopes[..i+1][..i] == scopes[..i];
  }

  // Every scope but the global one and a missing department names an id.
  lemma ScopeHasId(user: User, i: nat)
    requires i < |Scopes(user)|
    ensures Scopes(user)[i].kind == "global" || Scopes(user)[i].kind == "department" || Scopes(user)[i].id.Some?
    ensures Scopes(user)[i].kind == "global" ==> Label(Scopes(user)[i]) == ["global"]
  {
    if 0 < i <= |user.groups| { assert Scopes(user)[i] == GroupScopes(user.groups)[i-1]; }
  }

  method CollectPoliciesByScope(user: User, ps: seq<Policy>, traceScopes: seq<string>)
    returns (ordered: seq<Policy>, trace: seq<string>)
    ensures ordered == Collected(Scopes(user), ps)
    ensures trace == traceScopes + Labels(Scopes(user))
  {
    var scopes := Scopes(user);
    ordered, trace := [], traceScopes;
    for i := 0 to |scopes|
      invariant ordered == Collected(scopes[..i], ps)
      invariant trace == traceScopes + Labels(scopes[..i])
    {
      var scope := scopes[i];
      NextScope(scopes, ps, traceScopes, i);
      ScopeHasId(user, i);
      if scope.kind == "department" && scope.id.None? {
        NothingCovered(scope, ps);
        assert ordered + [] == ordered && trace + [] == trace;
        continue;
      }
      if scope.kind == "global" {
        trace := trace + ["global"];
      } else {
        trace := trace + [scope.kind + ":" + scope.id.value];
      }
      ordered := ordered + Covered(scope, ps);
    }
    assert scopes[..|scopes|] == scopes;
  }

  // --- Evaluation -------------------------------------------------------------

  function TokenLimits(rules: Rules, ps: seq<Policy>): Result<seq<int>, ValueError> {
    if ps == [] then Ok([])
    else
      var rest :- TokenLimits(rules, ps[1..]);
      if ps[0].ruleType != MAX_OUTPUT_TOKENS_RULE then Ok(rest)
      else match rules.int_(ps[0].ruleValue) case None => Err(ValueError) case Some(n) => Ok([n] + rest)
  }

  function Min(ns: seq<int>): int
    requires ns != []
  {
    if |ns| == 1 then ns[0] else var m := Min(ns[1..]); if ns[0] <= m then ns[0] else m
  }

  function MaxOutputTokens(rules: Rules, ps: seq<Policy>): Result<Option<int>, ValueError> {
    var limits :- TokenLimits(rules, ps);
    Ok(if limits == [] then None else Some(Min(limits)))
  }

  predicate Denies(rules: Rules, model: string, p: Policy) {
    p.ruleType == DENY_RULE && rules.matches(model, p.ruleValue)
  }

  predicate Allows(rules: Rules, model: string, p: Policy) {
    p.ruleType == ALLOW_RULE && rules.matches(model, p.ruleValue)
  }

  predicate IsAccessRule(p: Policy) { p.ruleType == ALLOW_RULE || p.ruleType == DENY_RULE }

  function Ids(ps: seq<Policy>): seq<string> { seq(|ps|, i requires 0 <= i < |ps| => ps[i].id) }

  // The verdict of a collected list, in the order of the checks.
  function Verdict(rules: Rules, model: string, ordered: seq<Policy>): Option<DenialReason> {
    if exists p | p in ordered :: Denies(rules, model, p) then Some(ModelDenied)
    else if (exists p | p in ordered :: IsAccessRule(p)) && !(exists p | p in ordered :: Allows(rules, model, p)) then
      Some(ModelNotAllowed)
    else None
  }

  function Evaluate(rules: Rules, user: User, model: string, ps: seq<Policy>): Result<PolicyDecision, ValueError> {
    if !user.isActive then Ok(PolicyDecision(false, Some(UserInactive), None, ["user_status"], []))
    else if !user.proxyAccessEnabled then
      Ok(PolicyDecision(false, Some(ProxyAccessDisabled), None, ["user_status"], []))
    else
      var ordered := Collected(Scopes(user), ps);
      var cap :- MaxOutputTokens(rules, ordered);
      var reason := Verdict(rules, model, ordered);
      Ok(PolicyDecision(reason.None?, reason, cap, ["user_status"] + Labels(Scopes(user)), Ids(ordered)))
  }

  method EvaluatePolicies(rules: Rules, user: User, model: string, ps: seq<Policy>)
    returns (r: Result<PolicyDecision, ValueError>)
    ensures r == Evaluate(rules, user, model, ps)
  {
    if !user.isActive { return Ok(PolicyDecision(false, Some(UserInactive), None, ["user_status"], [])); }
    if !user.proxyAccessEnabled {
      return Ok(PolicyDecision(false, Some(ProxyAccessDisabled), None, ["user_status"], []));
    }
    var ordered, trace := CollectPoliciesByScope(user, ps, ["user_status"]);
    var cap :- MaxOutputTokens(rules, ordered);
    if exists p | p in ordered :: Denies(rules, model, p) {
      return Ok(PolicyDecision(false, Some(ModelDenied), cap, trace, Ids(ordered)));
    }
    var hasAccessRules := exists p | p in ordered :: IsAccessRule(p);
    var hasMatchingAllow := exists p | p in ordered :: Allows(rules, model, p);
    if hasAccessRules && !hasMatchingAllow {
      return Ok(PolicyDecision(false, Some(ModelNotAllowed), cap, trace, Ids(ordered)));
    }
    r := Ok(PolicyDecision(true, None, cap, trace, Ids(ordered)));
  }
}
