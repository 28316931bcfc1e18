// The budget check of proxy/quota_engine.py, over exact reals.
module QuotaEngine {
  import opened Wrappers

  datatype Metric = CostUsd | Tokens

  datatype BudgetPolicy = BudgetPolicy(
    id: string,
    scopeType: string,
    metric: Metric,
    limitValue: int,
    softPercent: int,
    hardPercent: int,
    isActive: bool)

  datatype Pricing = Pricing(id: string, input: real, output: real, cacheWrite: real, cacheRead: real)

  datatype TokenUsage = TokenUsage(input: int, output: int, cacheWrite: int, cacheRead: int)

  datatype CostSnapshot = CostSnapshot(
    pricingId: string, input: real, output: real, cacheWrite: real, cacheRead: real, total: real)

  datatype QuotaDecision = QuotaDecision(
    allowed: bool,
    effective: Option<BudgetPolicy>,
    softReached: bool,
    hardReached: bool,
    projected: real,
    snapshot: Option<CostSnapshot>)

  const MILLION := 1_000_000.0

  // SCOPE_RANK.get(scope_type, 99)
  function ScopeRank(scope: string): int {
    if scope == "user" then 0 else if scope == "team" then 1 else if scope == "global" then 2 else 99
  }

  function EffectiveLimit(limit: int, percent: int): real { limit as real * (percent as real / 100.0) }

  function HardLimit(p: BudgetPolicy): real { EffectiveLimit(p.limitValue, p.hardPercent) }

  function SoftLimit(p: BudgetPolicy): real { EffectiveLimit(p.limitValue, p.softPercent) }

  // --- The order of the selection ---------------------------------------------

  // Python's order on strings, by code point.
  predicate StringLess(a: string, b: string) {
    b != [] && (a == [] || a[0] < b[0] || (a[0] == b[0] && StringLess(a[1..], b[1..])))
  }

  // The tuple a policy is ranked by.
  datatype Key = Key(hardLimit: real, limit: int, percent: int, rank: int, id: string)

  function KeyOf(p: BudgetPolicy): Key { Key(HardLimit(p), p.limitValue, p.hardPercent, ScopeRank(p.scopeType), p.id) }

  predicate KeyLess(a: Key, b: Key) {
    if a.hardLimit != b.hardLimit then a.hardLimit < b.hardLimit
    else if a.limit != b.limit then a.limit < b.limit
    else if a.percent != b.percent then a.percent < b.percent
    else if a.rank != b.rank then a.rank < b.rank
    else StringLess(a.id, b.id)
  }

  function ActivePolicies(ps: seq<BudgetPolicy>): seq<BudgetPolicy> {
    if ps == [] then [] else ActivePolicies(ps[..|ps|-1]) + (if ps[|ps|-1].isActive then [ps[|ps|-1]] else [])
  }

  // min(ps, key): the earliest of the least.
  function Least(ps: seq<BudgetPolicy>): BudgetPolicy
    requires ps != []
  {
    if |ps| == 1 then ps[0]
    else
      var best := Least(ps[..|ps|-1]);
      if KeyLess(KeyOf(ps[|ps|-1]), KeyOf(best)) then ps[|ps|-1] else best
  }

  function SelectEffectivePolicy(ps: seq<BudgetPolicy>): Option<BudgetPolicy> {
    if ActivePolicies(ps) == [] then None else Some(Least(ActivePolicies(ps)))
  }

  // --- The evaluation ---------------------------------------------------------

  function Cost(tokens: int, perMillion: real): real { tokens as real * perMillion / MILLION }

  function UsageSnapshot(pricing: Option<Pricing>, usage: Option<TokenUsage>): Option<CostSnapshot> {
    if pricing.None? || usage.None? then None
    else
      var p, u := pricing.value, usage.value;
      var input, output := Cost(u.input, p.input), Cost(u.output, p.output);
      var write, read := Cost(u.cacheWrite, p.cacheWrite), Cost(u.cacheRead, p.cacheRead);
      Some(CostSnapshot(p.id, input, output, write, read, input + output + write + read))
  }

  function RequestedUsage(effective: Option<BudgetPolicy>, requested: Option<real>, snapshot: Option<CostSnapshot>):
    real
  {
    match requested
    case Some(r) => r
    case None =>
      if effective.Some? && effective.value.metric == CostUsd && snapshot.Some? then snapshot.value.total else 0.0
  }

  function Evaluate(ps: seq<BudgetPolicy>, current: real, requested: Option<real>,
                    pricing: Option<Pricing>, usage: Option<TokenUsage>): QuotaDecision
  {
    var effective := SelectEffectivePolicy(ps);
    var snapshot := UsageSnapshot(pricing, usage);
    var projected := current + RequestedUsage(effective, requested, snapshot);
    match effective
    case None => QuotaDecision(true, None, false, false, projected, snapshot)
    case Some(p) =>
      QuotaDecision(!(projected >= HardLimit(p)), effective, projected >= SoftLimit(p), projected >= HardLimit(p),
                    projected, snapshot)
  }

  // --- The order is total -----------------------------------------------------

  lemma {:induction false} StringOrder(a: string, b: string, c: string)
    ensures !(StringLess(a, b) && StringLess(b, a))
    ensures StringLess(a, b) || StringLess(b, a) || a == b
    ensures StringLess(a, b) && StringLess(b, c) ==> StringLess(a, c)
  {
    if a != [] && b != [] && c != [] {
      StringOrder(a[1..], b[1..], c[1..]);
    } else if a != [] && b != [] {
      StringOrder(a[1..], b[1..], []);
    }
    if a != [] && b != [] && a[0] == b[0] && a[1..] == b[1..] {
      assert a == [a[0]] + a[1..] && b == [b[0]] + b[1..];
    }
  }

  lemma KeyOrder(a: Key, b: Key, c: Key)
    ensures !(KeyLess(a, b) && KeyLess(b, a))
    ensures KeyLess(a, b) || KeyLess(b, a) || a == b
    ensures KeyLess(a, b) && KeyLess(b, c) ==> KeyLess(a, c)
  {
    StringOrder(a.id, b.id, c.id);
  }

  // --- What is selected -------------------------------------------------------

  lemma {:induction false} ActiveMembers(ps: seq<BudgetPolicy>, p: BudgetPolicy)
    ensures p in ActivePolicies(ps) <==> p in ps && p.isActive
  {
    if ps != [] {
      ActiveMembers(ps[..|ps|-1], p);
      assert ps == ps[..|ps|-1] + [ps[|ps|-1]];
    }
  }

  lemma {:induction false} LeastIsLeast(ps: seq<BudgetPolicy>, p: BudgetPolicy)
    requires p in ps
    ensures Least(ps) in ps
    ensures !KeyLess(KeyOf(p), KeyOf(Least(ps)))
  {
    if |ps| == 1 {
      KeyOrder(KeyOf(p), KeyOf(p), KeyOf(p));
    } else {
      var front, last := ps[..|ps|-1], ps[|ps|-1];
      assert ps == front + [last];
      LeastIsLeast(front, front[0]);
      KeyOrder(KeyOf(last), KeyOf(Least(front)), KeyOf(last));
      if p in front {
        LeastIsLeast(front, p);
        KeyOrder(KeyOf(p), KeyOf(last), KeyOf(Least(front)));
      }
      KeyOrder(KeyOf(p), KeyOf(p), KeyOf(p));
    }
  }

  // ps[i] ranks before everything that precedes it.
  predicate Leads(ps: seq<BudgetPolicy>, i: nat) {
    i < |ps| && forall j | 0 <= j < i :: KeyLess(KeyOf(ps[i]), KeyOf(ps[j]))
  }

  // Of policies that rank the same, the earliest is taken.
  lemma {:induction false} LeastIsEarliest(ps: seq<BudgetPolicy>) returns (i: nat)
    requires ps != []
    ensures Leads(ps, i) && ps[i] == Least(ps)
  {
    if |ps| == 1 { return 0; }
    var front, last := ps[..|ps|-1], ps[|ps|-1];
    i := LeastIsEarliest(front);
    assert forall j | 0 <= j < |front| :: ps[j] == front[j];
    if KeyLess(KeyOf(last), KeyOf(Least(front))) {
      i := |ps| - 1;
      forall j | 0 <= j < |front| ensures KeyLess(KeyOf(last), KeyOf(ps[j])) {
        LeastIsLeast(front, front[j]);
        KeyOrder(KeyOf(Least(front)), KeyOf(ps[j]), KeyOf(last));
        KeyOrder(KeyOf(last), KeyOf(Least(front)), KeyOf(ps[j]));
      }
    }
  }

  // p is active in ps, and no active policy has a smaller key.
  ghost predicate IsMinimal(ps: seq<BudgetPolicy>, p: BudgetPolicy) {
    p in ps && p.isActive && forall q | q in ps && q.isActive :: !KeyLess(KeyOf(q), KeyOf(p))
  }

  lemma SelectedIsMinimal(ps: seq<BudgetPolicy>)
    ensures SelectEffectivePolicy(ps).None? <==> forall q | q in ps :: !q.isActive
    ensures SelectEffectivePolicy(ps).Some? ==> IsMinimal(ps, SelectEffectivePolicy(ps).value)
  {
    var active := ActivePolicies(ps);
    if active == [] {
      forall q | q in ps ensures !q.isActive { ActiveMembers(ps, q); }
    } else {
      LeastIsLeast(active, active[0]);
      ActiveMembers(ps, Least(active));
      forall q | q in ps && q.isActive ensures !KeyLess(KeyOf(q), KeyOf(Least(active))) {
        ActiveMembers(ps, q);
        LeastIsLeast(active, q);
      }
    }
  }

  // The choice depends only on which policies there are, not on their order or repetition.
  lemma SelectionIsOrderFree(ps: seq<BudgetPolicy>, qs: seq<BudgetPolicy>)
    requires forall p :: p in ps <==> p in qs
    requires forall p, q | p in ps && q in ps && p.isActive && q.isActive && p.id == q.id :: p == q
    ensures SelectEffectivePolicy(ps) == SelectEffectivePolicy(qs)
  {
    SelectedIsMinimal(ps);
    SelectedIsMinimal(qs);
    if SelectEffectivePolicy(ps).Some? {
      var p, q := SelectEffectivePolicy(ps).value, SelectEffectivePolicy(qs).value;
      KeyOrder(KeyOf(p), KeyOf(q), KeyOf(p));
    }
  }

  // Two active policies can be told apart by order exactly when they differ but rank the same.
  lemma OrderMattersExactly(p: BudgetPolicy, q: BudgetPolicy)
    requires p.isActive && q.isActive
    ensures SelectEffectivePolicy([p, q]) == SelectEffectivePolicy([q, p]) <==> p == q || KeyOf(p) != KeyOf(q)
  {
    assert [p, q][..1] == [p] && [q, p][..1] == [q];
    assert [p][..0] == [] && [q][..0] == [];
    assert ActivePolicies([p]) == [p] && ActivePolicies([q]) == [q];
    assert ActivePolicies([p, q]) == [p, q] && ActivePolicies([q, p]) == [q, p];
    KeyOrder(KeyOf(p), KeyOf(q), KeyOf(p));
    assert KeyOf(p) == KeyOf(q) ==> !KeyLess(KeyOf(p), KeyOf(q)) && !KeyLess(KeyOf(q), KeyOf(p));
    if KeyLess(KeyOf(p), KeyOf(q)) {
      assert Least([p, q]) == p && Least([q, p]) == p;
    } else if KeyLess(KeyOf(q), KeyOf(p)) {
      assert Least([p, q]) == q && Least([q, p]) == q;
    } else {
      assert Least([p, q]) == p && Least([q, p]) == q;
    }
  }

  // --- What a decision says ---------------------------------------------------

  // A user's budget comes before a team's, that before the global one, and any other last.
  function ScopePlace(scope: string): int {
    match scope case "user" => 1 case "team" => 2 case "global" => 3 case _ => 4
  }

  // Stricter first: by the part of the limit that is allowed, the limit, the percentage, the scope and the name.
  predicate Stricter(p: BudgetPolicy, q: BudgetPolicy) {
    var a, b := p.limitValue * p.hardPercent, q.limitValue * q.hardPercent;
    if a != b then a < b
    else if p.limitValue != q.limitValue then p.limitValue < q.limitValue
    else if p.hardPercent != q.hardPercent then p.hardPercent < q.hardPercent
    else if ScopePlace(p.scopeType) != ScopePlace(q.scopeType) then ScopePlace(p.scopeType) < ScopePlace(q.scopeType)
    else StringLess(p.id, q.id)
  }

  lemma LimitsSay(p: BudgetPolicy)
    ensures HardLimit(p) * 100.0 == (p.limitValue * p.hardPercent) as real
    ensures SoftLimit(p) * 100.0 == (p.limitValue * p.softPercent) as real
  {
  }

  lemma StricterExactly(p: BudgetPolicy, q: BudgetPolicy)
    ensures KeyLess(KeyOf(p), KeyOf(q)) <==> Stricter(p, q)
  {
    LimitsSay(p);
    LimitsSay(q);
  }

  predicate CostSays(tokens: int, perMillion: real, cost: real) { cost * 1_000_000.0 == tokens as real * perMillion }

  // Each kind of token at its own price.
  predicate SnapshotSays(p: Pricing, u: TokenUsage, c: CostSnapshot) {
    && c.pricingId == p.id
    && CostSays(u.input, p.input, c.input) && CostSays(u.output, p.output, c.output)
    && CostSays(u.cacheWrite, p.cacheWrite, c.cacheWrite) && CostSays(u.cacheRead, p.cacheRead, c.cacheRead)
    && c.total == c.input + c.output + c.cacheWrite + c.cacheRead
  }

  lemma SnapshotExactly(pricing: Option<Pricing>, usage: Option<TokenUsage>)
    ensures UsageSnapshot(pricing, usage).Some? <==> pricing.Some? && usage.Some?
    ensures UsageSnapshot(pricing, usage).Some? ==>
      SnapshotSays(pricing.value, usage.value, UsageSnapshot(pricing, usage).value)
  {
  }

  // What a request adds: what it asks for; else its cost if the strictest budget is one on cost; else nothing.
  predicate AddedSays(effective: Option<BudgetPolicy>, requested: Option<real>, snapshot: Option<CostSnapshot>,
                      added: real)
  {
    match (requested, effective, snapshot)
    case (Some(r), _, _) => added == r
    case (None, Some(p), Some(c)) => if p.metric.CostUsd? then added == c.total else added == 0.0
    case _ => added == 0.0
  }

  // The whole decision: the projection against both limits of the strictest active budget, and the cost.
  lemma DecisionSays(ps: seq<BudgetPolicy>, current: real, requested: Option<real>, pricing: Option<Pricing>,
                     usage: Option<TokenUsage>)
    ensures var d := Evaluate(ps, current, requested, pricing, usage);
      && d.effective == SelectEffectivePolicy(ps)
      && AddedSays(d.effective, requested, d.snapshot, d.projected - current)
      && (d.softReached <==> d.effective.Some? && d.projected >= SoftLimit(d.effective.value))
      && (d.hardReached <==> d.effective.Some? && d.projected >= HardLimit(d.effective.value))
      && (d.snapshot.Some? <==> pricing.Some? && usage.Some?)
      && (d.snapshot.Some? ==> SnapshotSays(pricing.value, usage.value, d.snapshot.value))
  {
    SnapshotExactly(pricing, usage);
  }

  // --- The verdict ------------------------------------------------------------

  predicate BelowAll(ps: seq<BudgetPolicy>, usage: real) { forall p | p in ps && p.isActive :: usage < HardLimit(p) }

  // A request is allowed exactly when its projection is below the hard limit of every active policy.
  lemma AllowedExactlyBelowAll(ps: seq<BudgetPolicy>, current: real, requested: Option<real>,
                               pricing: Option<Pricing>, usage: Option<TokenUsage>)
    ensures var d := Evaluate(ps, current, requested, pricing, usage);
      && (d.allowed <==> BelowAll(ps, d.projected))
      && (d.allowed <==> !d.hardReached)
      && (requested.Some? ==> d.projected == current + requested.value)
  {
    SelectedIsMinimal(ps);
  }

  // Reaching the hard limit means having reached the soft one, when that is not set above it.
  lemma HardImpliesSoft(ps: seq<BudgetPolicy>, current: real, requested: Option<real>,
                        pricing: Option<Pricing>, usage: Option<TokenUsage>)
    requires forall p | p in ps && p.isActive :: 0 <= p.limitValue && p.softPercent <= p.hardPercent
    ensures var d := Evaluate(ps, current, requested, pricing, usage); d.hardReached ==> d.softReached
  {
    SelectedIsMinimal(ps);
    var d := Evaluate(ps, current, requested, pricing, usage);
    if d.effective.Some? { LimitMonotone(d.effective.value); }
  }

  lemma LimitMonotone(p: BudgetPolicy)
    requires 0 <= p.limitValue && p.softPercent <= p.hardPercent
    ensures SoftLimit(p) <= HardLimit(p)
  {
    assert p.softPercent as real / 100.0 <= p.hardPercent as real / 100.0;
  }

  // Without a requested usage the cost of a request counts exactly when the strictest policy is one on cost: then it
  // is held against every policy, otherwise against none.
  lemma UnrequestedUsage(ps: seq<BudgetPolicy>, current: real, pricing: Option<Pricing>, usage: Option<TokenUsage>)
    requires UsageSnapshot(pricing, usage).Some?
    ensures var d, effective := Evaluate(ps, current, None, pricing, usage), SelectEffectivePolicy(ps);
      d.allowed <==>
        var cost := if effective.Some? && effective.value.metric == CostUsd then d.snapshot.value.total else 0.0;
        BelowAll(ps, current + cost)
  {
    SelectedIsMinimal(ps);
  }

  // A strict token policy hides a request's cost from a looser cost policy it exceeds.
  lemma CostIsOverlooked()
    ensures var tokens := BudgetPolicy("a", "user", Tokens, 10, 80, 100, true);
      var cost := BudgetPolicy("b", "user", CostUsd, 20, 80, 100, true);
      var d := Evaluate([tokens, cost], 5.0, None, Some(Pricing("p", 1.0, 0.0, 0.0, 0.0)),
                        Some(TokenUsage(100_000_000, 0, 0, 0)));
      d.allowed && d.snapshot.Some? && 5.0 + d.snapshot.value.total > HardLimit(cost)
  {
    var tokens := BudgetPolicy("a", "user", Tokens, 10, 80, 100, true);
    var cost := BudgetPolicy("b", "user", CostUsd, 20, 80, 100, true);
    SelectedIsMinimal([tokens, cost]);
    assert [tokens, cost][0] == tokens && [tokens, cost][1] == cost;
    assert HardLimit(tokens) == 10.0 && HardLimit(cost) == 20.0;
    assert Cost(100_000_000, 1.0) == 100.0;
  }

  // --- Runs -------------------------------------------------------------------

  // What one request brings to the check.
  datatype Ask = Ask(requested: Option<real>, pricing: Option<Pricing>, usage: Option<TokenUsage>)

  // Usage after charging the projection of every allowed request.
  function Charged(ps: seq<BudgetPolicy>, start: real, asks: seq<Ask>): real {
    if asks == [] then start
    else
      var current, ask := Charged(ps, start, asks[..|asks|-1]), asks[|asks|-1];
      var d := Evaluate(ps, current, ask.requested, ask.pricing, ask.usage);
      if d.allowed then d.projected else current
  }

  // Usage that starts below every active hard limit never reaches one.
  lemma {:induction false} RunStaysBelow(ps: seq<BudgetPolicy>, start: real, asks: seq<Ask>)
    requires BelowAll(ps, start)
    ensures BelowAll(ps, Charged(ps, start, asks))
  {
    if asks != [] {
      var front, ask := asks[..|asks|-1], asks[|asks|-1];
      RunStaysBelow(ps, start, front);
      AllowedExactlyBelowAll(ps, Charged(ps, start, front), ask.requested, ask.pricing, ask.usage);
    }
  }
}
