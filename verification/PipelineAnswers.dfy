// What one request is answered and what is recorded of it, by the fields of the answer and of the records.
module PipelineAnswers {
  import opened Wrappers
  import opened JsonValues
  import opened KeyLedger
  import opened Pipeline
  import opened PipelineRuns
  import ProxyAuth
  import PolicyEngine
  import QuotaEngine
  import RateLimiter
  import RequestBuilder
  import Converse
  import ResponseParser
  import StreamDecoder
  import AuditLogger

  // --- The answer -------------------------------------------------------------

  // Every tool use of the answer carries its id and name.
  predicate IsComplete(response: ResponseParser.Response) {
    forall b | b in response.content && b.BToolUse? :: b.id.Some? && b.name.Some?
  }

  // The decoder after the events the client let it read, with the frames it yielded.
  function DecoderRead(model: string, events: seq<StreamDecoder.Event>, reading: Reading):
    (StreamDecoder.Decoder, seq<StreamDecoder.Frame>)
  {
    var decoder := StreamDecoder.NewDecoder(Some(model), "msg_bedrock_stream");
    match reading
    case Unread => (decoder, [])
    case Left(n) => StreamDecoder.Decode(decoder, if n < |events| then events[..n] else events)
    case Drained => StreamDecoder.DecodeAll(decoder, events)
  }

  // A batch request that passed its gates is answered with what Bedrock's own response says, if Bedrock gave a complete
  // one; a streaming request with the frames of the events that were read; any other fails.
  lemma AnswerExactly(limit: nat, audited: bool, s: State, a: Arrival, call: Call)
    requires PassedGates(limit, audited, s, a, call)
    ensures var outcome := Step(limit, audited, s, a).1;
      if call.request.streaming then
        if a.upstream.stream.Err? then outcome == Errored
        else
          outcome == Streamed(DecoderRead(a.body.Get("model").value.s, a.upstream.stream.value, a.upstream.reading).1)
      else if a.upstream.converse.Ok? && IsComplete(a.upstream.converse.value) then
        outcome.Answered? && ResponseParser.ParsedSays(a.upstream.converse.value, outcome.parsed)
      else outcome == Errored
  {
    GatesOfReady(limit, audited, s, a, call);
    if a.upstream.converse.Ok? && IsComplete(a.upstream.converse.value) {
      ResponseParser.ParseSays(a.upstream.converse.value);
    }
  }

  // --- Failures ---------------------------------------------------------------

  // Past the gates: the request cannot be built, or what Bedrock gives cannot be used.
  predicate FailsBehindGates(a: Arrival, resolved: ResolvedModel) {
    var built := RequestBuilder.Build(a.py, a.body, resolved.caps);
    || built.Err?
    || (built.value.streaming && a.upstream.stream.Err?)
    || (!built.value.streaming && (a.upstream.converse.Err? || !IsComplete(a.upstream.converse.value)))
  }

  // Past authentication: the model is missing, unknown, or its policy cannot be evaluated, or the request fails behind
  // gates that all let it through.
  predicate FailsFor(limit: nat, s: State, a: Arrival, user: User) {
    var model := a.body.Get("model");
    || model.None? || !model.value.Str? || a.gates.resolve(model.value.s).Err?
    || a.gates.policy(user, model.value.s).Err?
    || (&& a.gates.policy(user, model.value.s).value.allowed
        && a.gates.quota(a.gates.resolve(model.value.s).value).allowed
        && RateLimiter.CheckStep(limit, s.windows, user.id, a.now).1.allowed
        && FailsBehindGates(a, a.gates.resolve(model.value.s).value))
  }

  lemma DispatchFails(a: Arrival, subject: AuditLogger.Subject, resolved: ResolvedModel)
    ensures Dispatch(a, subject, resolved).outcome == Errored <==> FailsBehindGates(a, resolved)
  {
  }

  // A request ends in an error exactly if it fails; an unauthenticated one only where its denial cannot be recorded.
  lemma FailsExactly(limit: nat, audited: bool, s: State, a: Arrival)
    ensures Step(limit, audited, s, a).1 == Errored <==>
      match a.gates.authenticate(a.header)
      case Err(_) => audited && !a.body.Obj?
      case Ok(context) => FailsFor(limit, s, a, context.user)
  {
    if Admit(audited, a).Ready? { DispatchFails(a, Admit(audited, a).subject, Admit(audited, a).resolved); }
  }

  // --- Denials ----------------------------------------------------------------

  predicate ReasonSays(reason: Option<PolicyEngine.DenialReason>, text: string) {
    match reason
    case Some(UserInactive) => text == "user_inactive"
    case Some(ProxyAccessDisabled) => text == "proxy_access_disabled"
    case Some(ModelDenied) => text == "model_denied"
    case Some(ModelNotAllowed) => text == "model_not_allowed"
    case None => text == "policy_denied"
  }

  // A denial gives the reason of the gate that refused; a denial of the limiter the seconds to wait.
  lemma DenialSays(limit: nat, audited: bool, s: State, a: Arrival)
    ensures var outcome := Step(limit, audited, s, a).1;
      match a.gates.authenticate(a.header)
      case Err(reason) => outcome.AuthFailed? ==> outcome.authReason == reason
      case Ok(context) =>
        && (outcome.PolicyDenied? ==>
              && a.body.Get("model").Some? && a.body.Get("model").value.Str?
              && var policy := a.gates.policy(context.user, a.body.Get("model").value.s);
                 policy.Ok? && ReasonSays(policy.value.reason, outcome.policyReason))
        && (outcome.RateLimited? ==>
              outcome.retryAfter == RateLimiter.CheckStep(limit, s.windows, context.user.id, a.now).1.retryAfter)
  {
    if Admit(audited, a).Ready? { DispatchRecords(a, Admit(audited, a).subject, Admit(audited, a).resolved); }
  }

  // --- Records ----------------------------------------------------------------

  // What the request is about, as any record of it past the model resolution has it.
  predicate IsAbout(e: AuditLogger.AuditEvent, a: Arrival, user: User, model: string, resolved: ResolvedModel,
                    policy: PolicyEngine.PolicyDecision)
  {
    && e.id == a.stamp.auditId && e.requestId == a.requestId && e.createdAt == a.stamp.at
    && e.actor == Some(user.id) && e.actorEmail == Some(user.email)
    && e.requestedModel == Some(Json.Str(model)) && e.resolvedModel == resolved.bedrockModelId
    && e.policy == Some(policy)
  }

  predicate UsageIsAbout(u: AuditLogger.UsageEvent, a: Arrival, user: User, model: string, resolved: ResolvedModel) {
    && u.id == a.stamp.usageId && u.requestId == a.requestId && u.createdAt == a.stamp.at
    && u.userId == user.id && u.userEmail == user.email
    && u.requestedModel == model && u.resolvedModel == resolved.bedrockModelId
    && u.latency == a.stamp.latency
  }

  // The usage of the answer the client got: that of the response, or of the metadata the decoder has read.
  predicate UsageOfAnswer(a: Arrival, model: string, outcome: Outcome, usage: Converse.Usage) {
    match outcome
    case Answered(p) => usage == p.usage
    case Streamed(_) =>
      a.upstream.stream.Ok? && usage == DecoderRead(model, a.upstream.stream.value, a.upstream.reading).0.usage
    case _ => false
  }

  // A success leaves a usage event and an audit event, both about the request, with the usage of the answer and the
  // cost of the quota decision.
  lemma SuccessSays(limit: nat, s: State, a: Arrival, call: Call)
    requires PassedGates(limit, true, s, a, call) && Succeeded(Step(limit, true, s, a).1, a)
    ensures var (t, outcome) := Step(limit, true, s, a);
      var user, model := a.gates.authenticate(a.header).value.user, a.body.Get("model").value.s;
      var resolved := a.gates.resolve(model).value;
      && |t.usage| == |s.usage| + 1 && t.usage[..|s.usage|] == s.usage
      && |t.audit| == |s.audit| + 1 && t.audit[..|s.audit|] == s.audit
      && var (u, e) := (t.usage[|s.usage|], t.audit[|s.audit|]);
      && UsageIsAbout(u, a, user, model, resolved)
      && UsageOfAnswer(a, model, outcome, u.usage) && u.cost == a.gates.quota(resolved).snapshot
      && IsAbout(e, a, user, model, resolved, a.gates.policy(user, model).value)
      && e.allowed && e.eventType == "auth_success" && e.denialReason == None
  {
    GatesOfReady(limit, true, s, a, call);
  }

  // Without an audit logger nothing is recorded, and nothing else differs but for a denial that could not be recorded.
  lemma UnauditedRecordsNothing(limit: nat, s: State, a: Arrival)
    ensures var (t, outcome) := Step(limit, false, s, a);
      && t.usage == s.usage && t.audit == s.audit
      && (a.body.Obj? ==>
            var (t', outcome') := Step(limit, true, s, a);
            outcome == outcome' && t.calls == t'.calls && t.windows == t'.windows)
  {
  }

  // The reason a denial is recorded with.
  predicate RecordedReason(outcome: Outcome, reason: Option<string>) {
    match outcome
    case AuthFailed(_) => reason == Some("authentication_failed")
    case PolicyDenied(text) => reason == Some(text)
    case QuotaDenied => reason == Some("quota_hard_limit_exceeded")
    case RateLimited(_) => reason == Some("rate_limited")
    case _ => false
  }

  // A denial leaves one audit event with its reason: of a user, about the request; without one, about what is known.
  lemma DenialIsRecorded(limit: nat, s: State, a: Arrival)
    requires WasDenied(Step(limit, true, s, a).1)
    ensures var (t, outcome) := Step(limit, true, s, a);
      && |t.audit| == |s.audit| + 1 && t.audit[..|s.audit|] == s.audit && t.usage == s.usage
      && var e := t.audit[|s.audit|];
      && !e.allowed && RecordedReason(outcome, e.denialReason)
      && match a.gates.authenticate(a.header)
         case Err(_) =>
           && e.id == a.stamp.auditId && e.requestId == a.requestId && e.createdAt == a.stamp.at
           && e.actor == None && e.actorEmail == None && e.policy == None && e.resolvedModel == None
           && e.requestedModel == a.body.Get("model")
         case Ok(context) =>
           && a.body.Get("model").Some? && a.body.Get("model").value.Str?
           && var model := a.body.Get("model").value.s;
           && a.gates.resolve(model).Ok? && a.gates.policy(context.user, model).Ok?
           && IsAbout(e, a, context.user, model, a.gates.resolve(model).value,
                      a.gates.policy(context.user, model).value)
  {
    StepRecords(limit, s, a);
    if Admit(true, a).Ready? { DispatchRecords(a, Admit(true, a).subject, Admit(true, a).resolved); }
  }
}
