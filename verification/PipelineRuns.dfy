// Whole runs of the pipeline: how often Bedrock is called, what had to succeed before, and what is recorded.
module PipelineRuns {
  import opened Wrappers
  import opened JsonValues
  import opened KeyLedger
  import opened Pipeline
  import ProxyAuth
  import PolicyEngine
  import QuotaEngine
  import RateLimiter
  import RateLimitRuns
  import RequestBuilder
  import Converse
  import ResponseParser
  import StreamDecoder
  import StreamAgreement
  import AuditLogger

  function Empty(): State { State(map[], [], [], []) }

  function Run(limit: nat, audited: bool, arrivals: seq<Arrival>): State {
    if arrivals == [] then Empty()
    else Step(limit, audited, Run(limit, audited, arrivals[..|arrivals|-1]), arrivals[|arrivals|-1]).0
  }

  // The outcome of a request that arrives after a run.
  function OutcomeAfter(limit: nat, audited: bool, arrivals: seq<Arrival>, a: Arrival): Outcome {
    Step(limit, audited, Run(limit, audited, arrivals), a).1
  }

  predicate Ordered(arrivals: seq<Arrival>) {
    forall i, j | 0 <= i < j < |arrivals| :: arrivals[i].now <= arrivals[j].now
  }

  // --- The limiter inside the pipeline ----------------------------------------

  function CheckOf(audited: bool, a: Arrival): seq<RateLimitRuns.Request> {
    match Admit(audited, a)
    case Ready(subject, _, _) => [RateLimitRuns.Request(subject.userId, a.now)]
    case Rejected(_, _) => []
  }

  // The checks the limiter sees in a run.
  function Checks(audited: bool, arrivals: seq<Arrival>): seq<RateLimitRuns.Request> {
    if arrivals == [] then []
    else Checks(audited, arrivals[..|arrivals|-1]) + CheckOf(audited, arrivals[|arrivals|-1])
  }

  lemma {:induction false} WindowsAreTheLimiters(limit: nat, audited: bool, arrivals: seq<Arrival>)
    ensures Run(limit, audited, arrivals).windows == RateLimitRuns.After(limit, Checks(audited, arrivals))
  {
    if arrivals != [] {
      var front, a := arrivals[..|arrivals|-1], arrivals[|arrivals|-1];
      WindowsAreTheLimiters(limit, audited, front);
      if Admit(audited, a).Ready? {
        RateLimitRuns.AfterSnoc(limit, Checks(audited, front), CheckOf(audited, a)[0]);
      } else {
        assert Checks(audited, front) + [] == Checks(audited, front);
      }
    }
  }

  lemma {:induction false} ChecksOrdered(audited: bool, arrivals: seq<Arrival>)
    requires Ordered(arrivals)
    ensures RateLimitRuns.Ordered(Checks(audited, arrivals))
    ensures arrivals != [] ==>
      forall i | 0 <= i < |Checks(audited, arrivals)| ::
        Checks(audited, arrivals)[i].now <= arrivals[|arrivals|-1].now
  {
    if arrivals != [] {
      var front := arrivals[..|arrivals|-1];
      ChecksOrdered(audited, front);
      if front != [] { assert arrivals[|front|-1].now <= arrivals[|front|].now; }
    }
  }

  // How many of the calls were made for u in the interval [from, to).
  function CallsIn(calls: seq<Call>, u: string, from: Instant, to: Instant): nat {
    if calls == [] then 0
    else
      var c := calls[|calls|-1];
      CallsIn(calls[..|calls|-1], u, from, to) + (if c.user == u && from <= c.at < to then 1 else 0)
  }

  // --- One step ---------------------------------------------------------------

  // Everything that had to succeed before a call, in the order of the pipeline.
  ghost predicate PassedGates(limit: nat, audited: bool, s: State, a: Arrival, call: Call) {
    && a.gates.authenticate(a.header).Ok?
    && var user := a.gates.authenticate(a.header).value.user;
    && a.body.Get("model").Some? && a.body.Get("model").value.Str?
    && var model := a.body.Get("model").value.s;
    && a.gates.resolve(model).Ok?
    && var resolved := a.gates.resolve(model).value;
    && a.gates.policy(user, model).Ok? && a.gates.policy(user, model).value.allowed
    && a.gates.quota(resolved).allowed
    && RateLimiter.CheckStep(limit, s.windows, user.id, a.now).1.allowed
    && RequestBuilder.Build(a.py, a.body, resolved.caps) == Ok(call.request)
    && call == Call(a.requestId, user.id, a.now, call.request)
  }

  lemma GatesOfReady(limit: nat, audited: bool, s: State, a: Arrival, call: Call)
    ensures PassedGates(limit, audited, s, a, call) <==>
      && Admit(audited, a).Ready?
      && RateLimiter.CheckStep(limit, s.windows, Admit(audited, a).subject.userId, a.now).1.allowed
      && RequestBuilder.Build(a.py, a.body, Admit(audited, a).resolved.caps) == Ok(call.request)
      && call == Call(a.requestId, Admit(audited, a).subject.userId, a.now, call.request)
  {
  }

  lemma DispatchCalls(a: Arrival, subject: AuditLogger.Subject, resolved: ResolvedModel)
    ensures var built := RequestBuilder.Build(a.py, a.body, resolved.caps);
      Dispatch(a, subject, resolved).calls ==
        if built.Ok? then [Call(a.requestId, subject.userId, a.now, built.value)] else []
  {
  }

  // A request makes one call when it passed every gate, and none otherwise.
  lemma CalledExactlyWhenPassed(limit: nat, audited: bool, s: State, a: Arrival)
    ensures var calls := Step(limit, audited, s, a).0.calls;
      || (calls == s.calls && forall call :: !PassedGates(limit, audited, s, a, call))
      || (calls != [] && calls == s.calls + [calls[|calls|-1]] && PassedGates(limit, audited, s, a, calls[|calls|-1]))
  {
    var calls := Step(limit, audited, s, a).0.calls;
    forall call ensures PassedGates(limit, audited, s, a, call) ==> calls == s.calls + [call] {
      GatesOfReady(limit, audited, s, a, call);
      if Admit(audited, a).Ready? { DispatchCalls(a, Admit(audited, a).subject, Admit(audited, a).resolved); }
    }
    if Admit(audited, a).Ready? {
      var admission := Admit(audited, a);
      DispatchCalls(a, admission.subject, admission.resolved);
      assert s.calls + [] == s.calls;
      if calls != s.calls { GatesOfReady(limit, audited, s, a, calls[|calls|-1]); }
    }
  }

  lemma StepCalls(limit: nat, audited: bool, arrivals: seq<Arrival>, a: Arrival, u: string, from: Instant, to: Instant)
    ensures var s := Run(limit, audited, arrivals);
      CallsIn(Step(limit, audited, s, a).0.calls, u, from, to) <=
      CallsIn(s.calls, u, from, to) +
        (if && CheckOf(audited, a) != []
            && RateLimiter.CheckStep(limit, s.windows, CheckOf(audited, a)[0].user, a.now).1.allowed
            && CheckOf(audited, a)[0].user == u && from <= a.now < to then 1 else 0)
  {
    var s := Run(limit, audited, arrivals);
    CalledExactlyWhenPassed(limit, audited, s, a);
    var calls := Step(limit, audited, s, a).0.calls;
    if calls != s.calls { assert calls[..|calls|-1] == s.calls; }
  }

  // --- Bounds on the calls ----------------------------------------------------

  lemma {:induction false} CallsWithinLog(limit: nat, audited: bool, arrivals: seq<Arrival>, u: string,
                                          from: Instant, to: Instant)
    ensures CallsIn(Run(limit, audited, arrivals).calls, u, from, to) <=
            RateLimitRuns.CountIn(RateLimitRuns.Log(limit, Checks(audited, arrivals)), u, from, to)
  {
    if arrivals != [] {
      var front, a := arrivals[..|arrivals|-1], arrivals[|arrivals|-1];
      CallsWithinLog(limit, audited, front, u, from, to);
      WindowsAreTheLimiters(limit, audited, front);
      StepCalls(limit, audited, front, a, u, from, to);
      if CheckOf(audited, a) == [] {
        assert Checks(audited, front) + [] == Checks(audited, front);
      } else {
        RateLimitRuns.LogCount(limit, Checks(audited, front), CheckOf(audited, a)[0], u, from, to);
      }
    }
  }

  // At most the limit of calls for one user in one clock minute.
  lemma CallsPerMinute(limit: nat, audited: bool, arrivals: seq<Arrival>, u: string, start: Instant)
    requires Ordered(arrivals) && RateLimitRuns.IsWindowStart(start)
    ensures CallsIn(Run(limit, audited, arrivals).calls, u, start, start + RateLimiter.MINUTE) <= limit
  {
    ChecksOrdered(audited, arrivals);
    CallsWithinLog(limit, audited, arrivals, u, start, start + RateLimiter.MINUTE);
    RateLimitRuns.AtMostLimitPerMinute(limit, Checks(audited, arrivals), u, start);
  }

  // At most twice the limit in any sixty seconds.
  lemma CallsPerSixtySeconds(limit: nat, audited: bool, arrivals: seq<Arrival>, u: string, from: Instant)
    requires Ordered(arrivals)
    ensures CallsIn(Run(limit, audited, arrivals).calls, u, from, from + RateLimiter.MINUTE) <= 2 * limit
  {
    ChecksOrdered(audited, arrivals);
    CallsWithinLog(limit, audited, arrivals, u, from, from + RateLimiter.MINUTE);
    RateLimitRuns.AtMostTwiceInSixtySeconds(limit, Checks(audited, arrivals), u, from);
  }

  // The i-th request of a run passed every gate in the state it found, for this call.
  ghost predicate PassedAt(limit: nat, audited: bool, arrivals: seq<Arrival>, i: nat, call: Call) {
    i < |arrivals| && PassedGates(limit, audited, Run(limit, audited, arrivals[..i]), arrivals[i], call)
  }

  lemma PassedInPrefix(limit: nat, audited: bool, arrivals: seq<Arrival>, n: nat, i: nat, call: Call)
    requires n <= |arrivals| && PassedAt(limit, audited, arrivals[..n], i, call)
    ensures PassedAt(limit, audited, arrivals, i, call)
  {
    assert arrivals[..n][..i] == arrivals[..i];
  }

  lemma NewCallPassed(limit: nat, audited: bool, arrivals: seq<Arrival>, n: nat, call: Call)
    requires n < |arrivals|
    requires call in Step(limit, audited, Run(limit, audited, arrivals[..n]), arrivals[n]).0.calls
    requires call !in Run(limit, audited, arrivals[..n]).calls
    ensures PassedAt(limit, audited, arrivals, n, call)
  {
    CalledExactlyWhenPassed(limit, audited, Run(limit, audited, arrivals[..n]), arrivals[n]);
  }

  // Every call of a run was made for some request that had passed every gate in the state it found.
  lemma {:induction false} EveryCallPassed(limit: nat, audited: bool, arrivals: seq<Arrival>, call: Call)
    returns (i: nat)
    requires call in Run(limit, audited, arrivals).calls
    ensures PassedAt(limit, audited, arrivals, i, call)
  {
    var n := |arrivals| - 1;
    if call in Run(limit, audited, arrivals[..n]).calls {
      i := EveryCallPassed(limit, audited, arrivals[..n], call);
      PassedInPrefix(limit, audited, arrivals, n, i, call);
    } else {
      NewCallPassed(limit, audited, arrivals, n, call);
      i := n;
    }
  }

  // --- Accounting -------------------------------------------------------------

  // The request is recorded as a success: answered, or its stream was started.
  predicate Succeeded(outcome: Outcome, a: Arrival) {
    outcome.Answered? || (outcome.Streamed? && !a.upstream.reading.Unread?)
  }

  predicate WasDenied(outcome: Outcome) {
    outcome.AuthFailed? || outcome.PolicyDenied? || outcome.QuotaDenied? || outcome.RateLimited?
  }

  function SuccessCount(limit: nat, audited: bool, arrivals: seq<Arrival>): nat {
    if arrivals == [] then 0
    else
      var front, a := arrivals[..|arrivals|-1], arrivals[|arrivals|-1];
      SuccessCount(limit, audited, front) + (if Succeeded(OutcomeAfter(limit, audited, front, a), a) then 1 else 0)
  }

  function DenialCount(limit: nat, audited: bool, arrivals: seq<Arrival>): nat {
    if arrivals == [] then 0
    else
      var front, a := arrivals[..|arrivals|-1], arrivals[|arrivals|-1];
      DenialCount(limit, audited, front) + (if WasDenied(OutcomeAfter(limit, audited, front, a)) then 1 else 0)
  }

  lemma RejectionRecords(audited: bool, a: Arrival)
    ensures Admit(audited, a).Rejected? ==>
      && !Succeeded(Admit(audited, a).outcome, a)
      && (WasDenied(Admit(audited, a).outcome) <==> Admit(audited, a).denial.Some?)
      && (Admit(audited, a).denial.Some? ==> !Admit(audited, a).denial.value.allowed)
  {
  }

  // Bedrock is called and nothing can be recorded of it: the call fails, the stream is never read, or a tool use of a
  // batch answer lacks its id or name.
  predicate Lost(a: Arrival, call: Call) {
    if call.request.streaming then a.upstream.stream.Err? || a.upstream.reading.Unread?
    else a.upstream.converse.Err? || exists b | b in a.upstream.converse.value.content :: !ResponseParser.Complete(b)
  }

  // A request that cannot be built is neither sent nor recorded. Any other is sent once, and goes unrecorded exactly
  // when it is lost; in particular a started stream is recorded however it ends.
  lemma DispatchRecords(a: Arrival, subject: AuditLogger.Subject, resolved: ResolvedModel)
    ensures var built, d := RequestBuilder.Build(a.py, a.body, resolved.caps), Dispatch(a, subject, resolved);
      && (built.Err? ==> d.calls == [] && d.recorded.None?)
      && (built.Ok? ==> |d.calls| == 1 && d.calls[0].request == built.value)
      && (built.Ok? ==> (d.recorded.None? <==> Lost(a, d.calls[0])))
      && (d.recorded.Some? <==> Succeeded(d.outcome, a)) && !WasDenied(d.outcome)
  {
  }

  // The two events of a success, and the call they are about.
  predicate RecordsCall(u: AuditLogger.UsageEvent, e: AuditLogger.AuditEvent, c: Call) {
    Paired(u, e) && e.allowed && c.requestId == u.requestId && c.user == u.userId
  }

  // What one audited request adds: on success a usage event and an audit event, on denial an audit event, else nothing.
  lemma StepRecords(limit: nat, s: State, a: Arrival)
    ensures var (t, outcome) := Step(limit, true, s, a);
      && |t.usage| == |s.usage| + (if Succeeded(outcome, a) then 1 else 0)
      && |t.audit| == |s.audit| + (if Succeeded(outcome, a) || WasDenied(outcome) then 1 else 0)
      && s.usage <= t.usage && s.audit <= t.audit
      && (Succeeded(outcome, a) ==> !WasDenied(outcome) && |t.calls| == |s.calls| + 1)
      && (Succeeded(outcome, a) ==> RecordsCall(t.usage[|s.usage|], t.audit[|s.audit|], t.calls[|s.calls|]))
      && (WasDenied(outcome) ==> !t.audit[|s.audit|].allowed)
      && |s.calls| <= |t.calls| <= |s.calls| + 1
  {
    RejectionRecords(true, a);
    if Admit(true, a).Ready? {
      DispatchRecords(a, Admit(true, a).subject, Admit(true, a).resolved);
      DispatchCalls(a, Admit(true, a).subject, Admit(true, a).resolved);
    }
  }

  // --- Denials ----------------------------------------------------------------

  // The gates a request got past before it was turned away, in order: authentication, resolution, policy, quota.
  ghost predicate Resolved(a: Arrival, user: User, model: string, resolved: ResolvedModel) {
    && a.gates.authenticate(a.header).Ok? && a.gates.authenticate(a.header).value.user == user
    && a.body.Get("model") == Some(Json.Str(model)) && a.gates.resolve(model) == Ok(resolved)
  }

  ghost predicate PolicyAllows(a: Arrival, user: User, model: string) {
    a.gates.policy(user, model).Ok? && a.gates.policy(user, model).value.allowed
  }

  ghost predicate PolicyRefuses(a: Arrival) {
    exists user, model, resolved ::
      && Resolved(a, user, model, resolved)
      && a.gates.policy(user, model).Ok? && !a.gates.policy(user, model).value.allowed
  }

  ghost predicate QuotaRefuses(a: Arrival) {
    exists user, model, resolved ::
      (Resolved(a, user, model, resolved) && PolicyAllows(a, user, model) && !a.gates.quota(resolved).allowed)
  }

  ghost predicate LimiterRefuses(limit: nat, s: State, a: Arrival) {
    exists user, model, resolved ::
      (&& Resolved(a, user, model, resolved) && PolicyAllows(a, user, model) && a.gates.quota(resolved).allowed
       && !RateLimiter.CheckStep(limit, s.windows, user.id, a.now).1.allowed)
  }

  // Each denial means that exactly its own gate refused, after every earlier one had let the request through.
  lemma DenialIsFirstRefusal(limit: nat, audited: bool, s: State, a: Arrival)
    ensures var outcome := Step(limit, audited, s, a).1;
      && (outcome.AuthFailed? <==> a.gates.authenticate(a.header).Err? && (audited ==> a.body.Obj?))
      && (outcome.PolicyDenied? <==> PolicyRefuses(a))
      && (outcome.QuotaDenied? <==> QuotaRefuses(a))
      && (outcome.RateLimited? <==> LimiterRefuses(limit, s, a))
  {
    if a.gates.authenticate(a.header).Ok? && a.body.Get("model").Some? && a.body.Get("model").value.Str? {
      var user, model := a.gates.authenticate(a.header).value.user, a.body.Get("model").value.s;
      if a.gates.resolve(model).Ok? { assert Resolved(a, user, model, a.gates.resolve(model).value); }
    }
    if Admit(audited, a).Ready? { DispatchRecords(a, Admit(audited, a).subject, Admit(audited, a).resolved); }
  }

  function DenialType(outcome: Outcome): string {
    match outcome
    case AuthFailed(_) => "auth_failure"
    case PolicyDenied(_) => "policy_denied"
    case QuotaDenied => "quota_hard_limit_blocked"
    case RateLimited(_) => "rate_limited"
    case _ => ""
  }

  lemma PolicyReasonsAreOther(d: PolicyEngine.PolicyDecision)
    ensures AuditLogger.EventType(PolicyReason(d)) == "policy_denied"
  {
    assert |"user_inactive"| == 13 && |"proxy_access_disabled"| == 21 && |"model_denied"| == 12
      && |"model_not_allowed"| == 17 && |"policy_denied"| == 13;
    assert |AuditLogger.QUOTA_EXCEEDED| == 25 && |AuditLogger.RATE_LIMITED| == 12
      && |AuditLogger.AUTHENTICATION_FAILED| == 21;
    assert "model_denied"[0] != AuditLogger.RATE_LIMITED[0];
    assert "proxy_access_disabled"[0] != AuditLogger.AUTHENTICATION_FAILED[0];
  }

  // A denial is recorded under the type of the gate that refused, for the request that was refused.
  lemma DenialRecord(limit: nat, s: State, a: Arrival)
    requires WasDenied(Step(limit, true, s, a).1)
    ensures var (t, outcome) := Step(limit, true, s, a);
      && |t.audit| == |s.audit| + 1
      && t.audit[|s.audit|].eventType == DenialType(outcome)
      && t.audit[|s.audit|].requestId == a.requestId
      && (t.audit[|s.audit|].actor.None? <==> outcome.AuthFailed?)
  {
    StepRecords(limit, s, a);
    if a.gates.authenticate(a.header).Ok? && a.body.Get("model").Some? && a.body.Get("model").value.Str? {
      var user, model := a.gates.authenticate(a.header).value.user, a.body.Get("model").value.s;
      if a.gates.policy(user, model).Ok? { PolicyReasonsAreOther(a.gates.policy(user, model).value); }
    }
    if Admit(true, a).Ready? { DispatchRecords(a, Admit(true, a).subject, Admit(true, a).resolved); }
  }

  // A usage event and the audit event of the same success.
  predicate Paired(u: AuditLogger.UsageEvent, e: AuditLogger.AuditEvent) {
    && e.requestId == u.requestId && e.actor == Some(u.userId) && e.actorEmail == Some(u.userEmail)
    && e.createdAt == u.createdAt
    && e.requestedModel == Some(Json.Str(u.requestedModel)) && e.resolvedModel == u.resolvedModel
  }

  function Successes(audit: seq<AuditLogger.AuditEvent>): seq<AuditLogger.AuditEvent> {
    if audit == [] then []
    else Successes(audit[..|audit|-1]) + (if audit[|audit|-1].allowed then [audit[|audit|-1]] else [])
  }

  // The request makes a call that is lost.
  ghost predicate LosesCall(limit: nat, audited: bool, s: State, a: Arrival) {
    exists call :: PassedGates(limit, audited, s, a, call) && Lost(a, call)
  }

  ghost function LostCount(limit: nat, audited: bool, arrivals: seq<Arrival>): nat {
    if arrivals == [] then 0
    else
      var front, a := arrivals[..|arrivals|-1], arrivals[|arrivals|-1];
      LostCount(limit, audited, front) + (if LosesCall(limit, audited, Run(limit, audited, front), a) then 1 else 0)
  }

  // An audited request makes a call without a record exactly when it loses the call.
  lemma StepLoses(limit: nat, s: State, a: Arrival)
    ensures var t := Step(limit, true, s, a).0;
      |t.calls| - |s.calls| == |t.usage| - |s.usage| + (if LosesCall(limit, true, s, a) then 1 else 0)
  {
    StepRecords(limit, s, a);
    forall call ensures PassedGates(limit, true, s, a, call) ==>
                          Admit(true, a).Ready? && Step(limit, true, s, a).0.calls == s.calls + [call]
    {
      GatesOfReady(limit, true, s, a, call);
      if Admit(true, a).Ready? { DispatchCalls(a, Admit(true, a).subject, Admit(true, a).resolved); }
    }
    if Admit(true, a).Ready? {
      var d := Dispatch(a, Admit(true, a).subject, Admit(true, a).resolved);
      DispatchRecords(a, Admit(true, a).subject, Admit(true, a).resolved);
      if d.calls != [] { GatesOfReady(limit, true, s, a, d.calls[0]); }
    }
  }

  // A batch answer with an incomplete tool use: fetched, and recorded nowhere.
  lemma IncompleteAnswerIsLost(limit: nat, s: State, a: Arrival, call: Call)
    requires PassedGates(limit, true, s, a, call) && !call.request.streaming
    requires a.upstream.converse.Ok? && exists b | b in a.upstream.converse.value.content :: !ResponseParser.Complete(b)
    ensures var (t, outcome) := Step(limit, true, s, a);
      t.calls == s.calls + [call] && t.usage == s.usage && t.audit == s.audit && outcome == Errored
  {
    GatesOfReady(limit, true, s, a, call);
    DispatchCalls(a, Admit(true, a).subject, Admit(true, a).resolved);
    DispatchRecords(a, Admit(true, a).subject, Admit(true, a).resolved);
  }

  // A request of one user to a model that answers with a tool use without an id.
  function UnlabelledArrival(py: RequestBuilder.Python): Arrival {
    var user := User("u", "u@example.com", [], None, true, true);
    var allowed := PolicyEngine.PolicyDecision(true, None, None, [], []);
    var caps := RequestBuilder.Capabilities(true, true, true);
    Arrival("req", None, Obj(map["model" := Json.Str("m")]), 0, AuditLogger.Stamp("e0", "e1", 0, None), py,
            Gates(_ => Ok(ProxyAuth.AuthContext(user, "k", "h", "vk_")), _ => Ok(ResolvedModel(None, caps)),
                  (_, _) => Ok(allowed), _ => QuotaEngine.Evaluate([], 0.0, None, None, None)),
            Upstream(Ok(ResponseParser.Response([Converse.BToolUse(None, Some("t"), None)], None, None)), Err(Fault),
                     Unread))
  }

  lemma UnlabelledBuild(py: RequestBuilder.Python)
    ensures var caps := RequestBuilder.Capabilities(true, true, true);
      var built := RequestBuilder.Build(py, UnlabelledArrival(py).body, caps);
      built.Ok? && !built.value.streaming
  {
    var body := UnlabelledArrival(py).body;
    assert RequestBuilder.MessagesOf(body) == Arr([]);
    assert RequestBuilder.MessagesOut(py, [], false) == Ok([]);
  }

  // Such a run: one call, no usage event and no audit event.
  lemma UnlabelledRun(py: RequestBuilder.Python, limit: nat)
    requires limit > 0
    ensures var s := Run(limit, true, [UnlabelledArrival(py)]);
      |s.calls| == 1 && s.usage == [] && s.audit == []
  {
    var a := UnlabelledArrival(py);
    UnlabelledBuild(py);
    assert [a][..0] == [];
    assert Run(limit, true, [a][..0]) == Empty();
    assert RateLimiter.CheckStep(limit, map[], "u", 0).1.allowed;
    var built := RequestBuilder.Build(py, a.body, RequestBuilder.Capabilities(true, true, true)).value;
    var call := Call("req", "u", 0, built);
    var incomplete := Converse.BToolUse(None, Some("t"), None);
    assert incomplete in a.upstream.converse.value.content && !ResponseParser.Complete(incomplete);
    IncompleteAnswerIsLost(limit, Empty(), a, call);
  }

  // The logs account for every audited request: one usage event per success, one audit event per success or denial;
  // and for every call: it has a usage event or it was lost.
  lemma {:induction false} LogsAccount(limit: nat, arrivals: seq<Arrival>)
    ensures var s := Run(limit, true, arrivals);
      && |s.usage| == SuccessCount(limit, true, arrivals)
      && |s.audit| == SuccessCount(limit, true, arrivals) + DenialCount(limit, true, arrivals)
      && |s.calls| == |s.usage| + LostCount(limit, true, arrivals)
      && |s.calls| <= |arrivals|
  {
    if arrivals != [] {
      var front := arrivals[..|arrivals|-1];
      LogsAccount(limit, front);
      StepLoses(limit, Run(limit, true, front), arrivals[|arrivals|-1]);
      StepRecords(limit, Run(limit, true, front), arrivals[|arrivals|-1]);
    }
  }

  // The usage events are, in order, those of the success events of the audit log.
  lemma {:induction false} UsageMatchesAudit(limit: nat, arrivals: seq<Arrival>)
    ensures var s := Run(limit, true, arrivals);
      |Successes(s.audit)| == |s.usage| && forall i | 0 <= i < |s.usage| :: Paired(s.usage[i], Successes(s.audit)[i])
  {
    if arrivals != [] {
      var front, a := arrivals[..|arrivals|-1], arrivals[|arrivals|-1];
      var s := Run(limit, true, front);
      UsageMatchesAudit(limit, front);
      StepRecords(limit, s, a);
      var t := Step(limit, true, s, a).0;
      if |t.audit| == |s.audit| {
        assert t.audit == s.audit && t.usage == s.usage;
      } else {
        assert t.audit[..|t.audit|-1] == s.audit;
        assert forall i | 0 <= i < |s.usage| :: t.usage[i] == s.usage[i];
      }
    }
  }

  // A stream read to its end records the usage the same answer would have recorded in one piece.
  lemma SameUsageEitherWay(loads: string -> Json, a: Arrival, b: Arrival, subject: AuditLogger.Subject, call: Call,
                           blocks: seq<Converse.BedrockBlock>, chunks: seq<seq<StreamDecoder.Event>>,
                           events: seq<StreamDecoder.Event>, reason: Option<string>, raw: Option<Converse.RawUsage>)
    requires StreamAgreement.Interleaves(events, chunks, reason, raw)
    requires |chunks| == |blocks|
    requires forall i | 0 <= i < |blocks| :: StreamAgreement.Streams(loads, chunks[i], blocks[i])
    requires a.upstream.stream == Ok(events) && a.upstream.reading == Drained
    requires b.upstream.converse == Ok(ResponseParser.Response(blocks, reason, raw))
    ensures Stream(a, subject, call).recorded == Batch(b, call).recorded == Some(Converse.NormalizeUsage(raw))
  {
    StreamAgreement.StreamAgreesWithBatch(loads, blocks, chunks, events, reason, raw, Some(subject.model),
                                          DEFAULT_STREAM_MESSAGE_ID);
  }

  // --- The engines as the router uses them ------------------------------------

  // Gates built from the proxy's own components: no policies and no budgets are passed.
  function OwnGates(v: ProxyAuth.Vault, l: Ledger, users: map<string, User>, rules: PolicyEngine.Rules,
                    resolve: string -> Result<ResolvedModel, Fault>): Gates
  {
    Gates(header => ProxyAuth.Authenticate(v, l, users, header),
          resolve,
          (user, model) => PolicyEngine.Evaluate(rules, user, model, []),
          resolved => QuotaEngine.Evaluate([], 0.0, None, None, None))
  }

  lemma {:induction false} NothingCollected(scopes: seq<PolicyEngine.Scope>)
    ensures PolicyEngine.Collected(scopes, []) == []
  {
    if scopes != [] { NothingCollected(scopes[..|scopes|-1]); }
  }

  // Then a request reaches the limiter exactly when its key authenticates, its model resolves, and the owner of the key
  // is active and has proxy access.
  lemma OwnGatesAdmit(v: ProxyAuth.Vault, l: Ledger, users: map<string, User>, rules: PolicyEngine.Rules,
                      resolve: string -> Result<ResolvedModel, Fault>, audited: bool, a: Arrival)
    ensures Admit(audited, a.(gates := OwnGates(v, l, users, rules, resolve))).Ready? <==>
      var context := ProxyAuth.Authenticate(v, l, users, a.header);
      && context.Ok? && context.value.user.isActive && context.value.user.proxyAccessEnabled
      && a.body.Get("model").Some? && a.body.Get("model").value.Str?
      && resolve(a.body.Get("model").value.s).Ok?
    ensures var admission := Admit(audited, a.(gates := OwnGates(v, l, users, rules, resolve)));
      admission.Rejected? ==> admission.outcome != QuotaDenied
  {
    var context := ProxyAuth.Authenticate(v, l, users, a.header);
    if context.Ok? { NothingCollected(PolicyEngine.Scopes(context.value.user)); }
  }
}
