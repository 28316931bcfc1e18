// POST /v1/messages (api/proxy_router.py): authentication, model resolution, policy, quota, rate limit, build, Bedrock,
// and what is recorded of it.
module Pipeline {
  import opened Wrappers
  import opened JsonValues
  import opened KeyLedger
  import ProxyAuth
  import PolicyEngine
  import QuotaEngine
  import RateLimiter
  import RequestBuilder
  import Converse
  import ResponseParser
  import StreamDecoder
  import AuditLogger

  const DEFAULT_STREAM_MESSAGE_ID := "msg_bedrock_stream"

  datatype Fault = Fault

  datatype ResolvedModel = ResolvedModel(bedrockModelId: Option<string>, caps: RequestBuilder.Capabilities)

  // The collaborators before the limiter, as they answer at the time of one request.
  datatype Gates = Gates(
    authenticate: Option<string> -> Result<ProxyAuth.AuthContext, ProxyAuth.AuthReason>,
    resolve: string -> Result<ResolvedModel, Fault>,
    policy: (User, string) -> Result<PolicyEngine.PolicyDecision, PolicyEngine.ValueError>,
    quota: ResolvedModel -> QuotaEngine.QuotaDecision)

  // How far the client lets a stream run: never started, left after some events, or to the end.
  datatype Reading = Unread | Left(after: nat) | Drained

  // What Bedrock answers, were it called, and how a streamed answer is read.
  datatype Upstream = Upstream(
    converse: Result<ResponseParser.Response, Fault>,
    stream: Result<seq<StreamDecoder.Event>, Fault>,
    reading: Reading)

  datatype Arrival = Arrival(
    requestId: string,
    header: Option<string>,
    body: Json,
    now: Instant,
    stamp: AuditLogger.Stamp,
    py: RequestBuilder.Python,
    gates: Gates,
    upstream: Upstream)

  datatype Outcome =
    | AuthFailed(authReason: ProxyAuth.AuthReason)
    | PolicyDenied(policyReason: string)
    | QuotaDenied
    | RateLimited(retryAfter: Option<int>)
    | Errored
    | Answered(parsed: ResponseParser.Parsed)
    | Streamed(frames: seq<StreamDecoder.Frame>)

  // A call of converse or converse_stream.
  datatype Call = Call(requestId: string, user: string, at: Instant, request: RequestBuilder.ConverseRequest)

  datatype State = State(
    windows: RateLimiter.Windows,
    usage: seq<AuditLogger.UsageEvent>,
    audit: seq<AuditLogger.AuditEvent>,
    calls: seq<Call>)

  function PolicyReason(d: PolicyEngine.PolicyDecision): string {
    match d.reason
    case Some(UserInactive) => "user_inactive"
    case Some(ProxyAccessDisabled) => "proxy_access_disabled"
    case Some(ModelDenied) => "model_denied"
    case Some(ModelNotAllowed) => "model_not_allowed"
    case None => "policy_denied"
  }

  // --- Up to the limiter ------------------------------------------------------

  // A request is turned away, with what is recorded of it, or reaches the limiter.
  datatype Admission =
    | Rejected(outcome: Outcome, denial: Option<AuditLogger.AuditEvent>)
    | Ready(subject: AuditLogger.Subject, resolved: ResolvedModel, quota: QuotaEngine.QuotaDecision)

  function Admit(audited: bool, a: Arrival): Admission {
    match a.gates.authenticate(a.header)
    case Err(reason) =>
      if audited && !a.body.Obj? then Rejected(Errored, None)  // the denial record asks the body for its model
      else Rejected(AuthFailed(reason), Some(AuditLogger.AuthDenialOf(a.requestId, a.stamp, a.body.Get("model"))))
    case Ok(context) =>
      match a.body.Get("model")
      case Some(Str(model)) => Screen(a, context, model)
      case _ => Rejected(Errored, None)
  }

  function Screen(a: Arrival, context: ProxyAuth.AuthContext, model: string): Admission {
    match a.gates.resolve(model)
    case Err(_) => Rejected(Errored, None)
    case Ok(resolved) =>
      match a.gates.policy(context.user, model)
      case Err(_) => Rejected(Errored, None)
      case Ok(policy) =>
        var subject := AuditLogger.Subject(a.requestId, context.user.id, context.user.email, model,
                                           resolved.bedrockModelId, policy);
        var quota := a.gates.quota(resolved);
        if !policy.allowed then
          var reason := PolicyReason(policy);
          Rejected(PolicyDenied(reason), Some(AuditLogger.DenialOf(subject, a.stamp, reason)))
        else if !quota.allowed then
          Rejected(QuotaDenied, Some(AuditLogger.DenialOf(subject, a.stamp, AuditLogger.QUOTA_EXCEEDED)))
        else Ready(subject, resolved, quota)
  }

  // --- After the limiter ------------------------------------------------------

  // The call made, the usage recorded, and the answer.
  datatype Dispatched = Dispatched(calls: seq<Call>, recorded: Option<Converse.Usage>, outcome: Outcome)

  function Dispatch(a: Arrival, subject: AuditLogger.Subject, resolved: ResolvedModel): Dispatched {
    match RequestBuilder.Build(a.py, a.body, resolved.caps)
    case Err(_) => Dispatched([], None, Errored)
    case Ok(request) =>
      var call := Call(a.requestId, subject.userId, a.now, request);
      if request.streaming then Stream(a, subject, call) else Batch(a, call)
  }

  function Batch(a: Arrival, call: Call): Dispatched {
    match a.upstream.converse
    case Err(_) => Dispatched([call], None, Errored)
    case Ok(response) =>
      if forall b | b in response.content :: ResponseParser.Complete(b) then
        var parsed := ResponseParser.Parse(response);
        Dispatched([call], Some(parsed.usage), Answered(parsed))
      else Dispatched([call], None, Errored)
  }

  function Stream(a: Arrival, subject: AuditLogger.Subject, call: Call): Dispatched {
    match a.upstream.stream
    case Err(_) => Dispatched([call], None, Errored)
    case Ok(events) =>
      var decoder := StreamDecoder.NewDecoder(Some(subject.model), DEFAULT_STREAM_MESSAGE_ID);
      match a.upstream.reading
      case Unread => Dispatched([call], None, Streamed([]))
      case Left(n) =>
        var read := StreamDecoder.Decode(decoder, if n < |events| then events[..n] else events);
        Dispatched([call], Some(read.0.usage), Streamed(read.1))
      case Drained =>
        var read := StreamDecoder.DecodeAll(decoder, events);
        Dispatched([call], Some(read.0.usage), Streamed(read.1))
  }

  // --- One request ------------------------------------------------------------

  function Denied(s: State, audited: bool, denial: Option<AuditLogger.AuditEvent>): State {
    if audited && denial.Some? then s.(audit := s.audit + [denial.value]) else s
  }

  function Served(s: State, audited: bool, subject: AuditLogger.Subject, stamp: AuditLogger.Stamp,
                  quota: QuotaEngine.QuotaDecision, d: Dispatched): State
  {
    var called := s.(calls := s.calls + d.calls);
    if audited && d.recorded.Some? then
      called.(usage := s.usage + [AuditLogger.UsageOf(subject, stamp, d.recorded.value, quota.snapshot)],
              audit := s.audit + [AuditLogger.SuccessOf(subject, stamp)])
    else called
  }

  function Step(limit: nat, audited: bool, s: State, a: Arrival): (State, Outcome) {
    match Admit(audited, a)
    case Rejected(outcome, denial) => (Denied(s, audited, denial), outcome)
    case Ready(subject, resolved, quota) =>
      var (windows, decision) := RateLimiter.CheckStep(limit, s.windows, subject.userId, a.now);
      if !decision.allowed then
        var denial := AuditLogger.DenialOf(subject, a.stamp, AuditLogger.RATE_LIMITED);
        (Denied(s.(windows := windows), audited, Some(denial)), RateLimited(decision.retryAfter))
      else
        var d := Dispatch(a, subject, resolved);
        (Served(s.(windows := windows), audited, subject, a.stamp, quota, d), d.outcome)
  }

  // The router with its limiter, its log, which may be absent, and the calls made to Bedrock.
  class Router {
    const limiter: RateLimiter.InMemoryRateLimiter
    const log: AuditLogger.Log
    const audited: bool
    var calls: seq<Call>

    constructor (limiter: RateLimiter.InMemoryRateLimiter, log: AuditLogger.Log, audited: bool)
      ensures this.limiter == limiter && this.log == log && this.audited == audited && calls == []
    {
      this.limiter, this.log, this.audited := limiter, log, audited;
      calls := [];
    }

    ghost function Current(): State
      reads this, limiter, log
    {
      State(limiter.windows, log.usageEvents, log.auditEvents, calls)
    }

    method CreateMessage(a: Arrival) returns (outcome: Outcome)
      modifies this, limiter, log
      ensures (Current(), outcome) == Step(limiter.limit, audited, old(Current()), a)
    {
      var authentication := a.gates.authenticate(a.header);
      if authentication.Err? {
        if audited {
          if !a.body.Obj? { return Errored; }
          log.RecordAuthDenial(a.requestId, a.stamp, a.body.Get("model"));
        }
        return AuthFailed(authentication.error);
      }
      var user := authentication.value.user;
      var requested := a.body.Get("model");
      if requested.None? || !requested.value.Str? { return Errored; }
      var model := requested.value.s;
      var resolution := a.gates.resolve(model);
      if resolution.Err? { return Errored; }
      var resolved := resolution.value;
      var evaluation := a.gates.policy(user, model);
      if evaluation.Err? { return Errored; }
      var policy := evaluation.value;
      var subject := AuditLogger.Subject(a.requestId, user.id, user.email, model, resolved.bedrockModelId, policy);
      if !policy.allowed {
        if audited { log.RecordDenial(subject, a.stamp, PolicyReason(policy)); }
        return PolicyDenied(PolicyReason(policy));
      }
      var quota := a.gates.quota(resolved);
      if !quota.allowed {
        if audited { log.RecordDenial(subject, a.stamp, AuditLogger.QUOTA_EXCEEDED); }
        return QuotaDenied;
      }
      assert Admit(audited, a) == Ready(subject, resolved, quota);
      var decision := limiter.Check(user.id, a.now);
      if !decision.allowed {
        if audited { log.RecordDenial(subject, a.stamp, AuditLogger.RATE_LIMITED); }
        return RateLimited(decision.retryAfter);
      }
      outcome := Forward(a, subject, resolved, quota);
    }

    method Forward(a: Arrival, subject: AuditLogger.Subject, resolved: ResolvedModel, quota: QuotaEngine.QuotaDecision)
      returns (outcome: Outcome)
      modifies this, log
      ensures Current() == Served(old(Current()), audited, subject, a.stamp, quota, Dispatch(a, subject, resolved))
      ensures outcome == Dispatch(a, subject, resolved).outcome
    {
      var request := RequestBuilder.BuildConverseRequest(a.py, a.body, resolved.caps);
      if request.Err? { assert calls + [] == calls; return Errored; }
      calls := calls + [Call(a.requestId, subject.userId, a.now, request.value)];
      if request.value.streaming {
        if a.upstream.stream.Err? { return Errored; }
        outcome := StreamWithAudit(a.upstream.stream.value, a.upstream.reading, subject, a.stamp, quota);
        return;
      }
      if a.upstream.converse.Err? { return Errored; }
      var parsed := ResponseParser.ParseConverseResponse(a.upstream.converse.value);
      if parsed.Err? { return Errored; }
      if audited { log.RecordSuccess(subject, a.stamp, parsed.value.usage, quota.snapshot); }
      outcome := Answered(parsed.value);
    }

    // The generator: once started it records success however it ends.
    method StreamWithAudit(events: seq<StreamDecoder.Event>, reading: Reading, subject: AuditLogger.Subject,
                           stamp: AuditLogger.Stamp, quota: QuotaEngine.QuotaDecision) returns (outcome: Outcome)
      modifies log
      ensures reading.Unread? ==> Current() == old(Current()) && outcome == Streamed([])
      ensures !reading.Unread? ==>
        var decoder := StreamDecoder.NewDecoder(Some(subject.model), DEFAULT_STREAM_MESSAGE_ID);
        var read := if reading.Drained? then StreamDecoder.DecodeAll(decoder, events)
                    else if reading.after < |events| then StreamDecoder.Decode(decoder, events[..reading.after])
                    else StreamDecoder.Decode(decoder, events);
        && outcome == Streamed(read.1)
        && var dispatched := Dispatched([], Some(read.0.usage), outcome);
           Current() == Served(old(Current()), audited, subject, stamp, quota, dispatched)
    {
      if reading.Unread? { return Streamed([]); }
      var decoder := new StreamDecoder.ConverseStreamDecoder(Some(subject.model), DEFAULT_STREAM_MESSAGE_ID);
      var frames, status;
      if reading.Drained? {
        frames, status := decoder.IterSseEvents(events);
      } else {
        frames, status := decoder.Consume(if reading.after < |events| then events[..reading.after] else events);
      }
      if audited { log.RecordSuccess(subject, stamp, decoder.usage, quota.snapshot); }
      assert calls + [] == calls;
      outcome := Streamed(frames);
    }
  }
}
