// The usage and audit records of proxy/audit_logger.py.
module AuditLogger {
  import opened Wrappers
  import opened JsonValues
  import opened KeyLedger
  import opened Converse
  import opened PolicyEngine
  import opened QuotaEngine

  // What the id generator, the clock and the timer of the request give.
  datatype Stamp = Stamp(usageId: string, auditId: string, at: Instant, latency: Option<int>)

  datatype UsageEvent = UsageEvent(
    id: string,
    requestId: string,
    userId: string,
    userEmail: string,
    requestedModel: string,
    resolvedModel: Option<string>,
    usage: Usage,
    cost: Option<CostSnapshot>,
    latency: Option<int>,
    createdAt: Instant)

  datatype AuditEvent = AuditEvent(
    id: string,
    requestId: string,
    eventType: string,
    actor: Option<string>,
    actorEmail: Option<string>,
    allowed: bool,
    requestedModel: Option<Json>,
    resolvedModel: Option<string>,
    denialReason: Option<string>,
    policy: Option<PolicyDecision>,
    createdAt: Instant)

  const AUTHENTICATION_FAILED := "authentication_failed"
  const RATE_LIMITED := "rate_limited"
  const QUOTA_EXCEEDED := "quota_hard_limit_exceeded"

  // The event type of a denial; reasons it does not know are policy denials.
  function EventType(reason: string): string {
    if reason == QUOTA_EXCEEDED then "quota_hard_limit_blocked"
    else if reason == RATE_LIMITED then "rate_limited"
    else if reason == AUTHENTICATION_FAILED then "auth_failure"
    else "policy_denied"
  }

  // A request as the records name it.
  datatype Subject = Subject(
    requestId: string,
    userId: string,
    email: string,
    model: string,
    resolved: Option<string>,
    policy: PolicyDecision)

  function UsageOf(s: Subject, stamp: Stamp, usage: Usage, cost: Option<CostSnapshot>): UsageEvent {
    UsageEvent(stamp.usageId, s.requestId, s.userId, s.email, s.model, s.resolved, usage, cost, stamp.latency, stamp.at)
  }

  function SuccessOf(s: Subject, stamp: Stamp): AuditEvent {
    AuditEvent(stamp.auditId, s.requestId, "auth_success", Some(s.userId), Some(s.email), true,
               Some(Json.Str(s.model)), s.resolved, None, Some(s.policy), stamp.at)
  }

  function DenialOf(s: Subject, stamp: Stamp, reason: string): AuditEvent {
    AuditEvent(stamp.auditId, s.requestId, EventType(reason), Some(s.userId), Some(s.email), false,
               Some(Json.Str(s.model)), s.resolved, Some(reason), Some(s.policy), stamp.at)
  }

  function AuthDenialOf(requestId: string, stamp: Stamp, model: Option<Json>): AuditEvent {
    AuditEvent(stamp.auditId, requestId, EventType(AUTHENTICATION_FAILED), None, None, false,
               model, None, Some(AUTHENTICATION_FAILED), None, stamp.at)
  }

  class Log {
    var usageEvents: seq<UsageEvent>
    var auditEvents: seq<AuditEvent>

    constructor ()
      ensures usageEvents == [] && auditEvents == []
    {
      usageEvents, auditEvents := [], [];
    }

    method RecordSuccess(s: Subject, stamp: Stamp, usage: Usage, cost: Option<CostSnapshot>)
      modifies this
      ensures usageEvents == old(usageEvents) + [UsageOf(s, stamp, usage, cost)]
      ensures auditEvents == old(auditEvents) + [SuccessOf(s, stamp)]
    {
      usageEvents := usageEvents + [UsageOf(s, stamp, usage, cost)];
      auditEvents := auditEvents + [SuccessOf(s, stamp)];
    }

    method RecordDenial(s: Subject, stamp: Stamp, reason: string)
      modifies this
      ensures usageEvents == old(usageEvents)
      ensures auditEvents == old(auditEvents) + [DenialOf(s, stamp, reason)]
    {
      auditEvents := auditEvents + [DenialOf(s, stamp, reason)];
    }

    method RecordAuthDenial(requestId: string, stamp: Stamp, model: Option<Json>)
      modifies this
      ensures usageEvents == old(usageEvents)
      ensures auditEvents == old(auditEvents) + [AuthDenialOf(requestId, stamp, model)]
    {
      auditEvents := auditEvents + [AuthDenialOf(requestId, stamp, model)];
    }
  }
}
