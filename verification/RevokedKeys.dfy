// Deactivated keys at the front of the pipeline: whatever the caches hold, they cause no call to Bedrock.
module RevokedKeys {
  import opened Wrappers
  import opened KeyLedger
  import opened ProxyAuth
  import opened IssueService
  import opened KeyProtocol
  import opened KeySafety
  import PolicyEngine
  import Pipeline
  import PipelineRuns

  // A request as the proxy sees it at an instant: its own gates, over the ledger and the users of that time.
  function At(a: Pipeline.Arrival, cfg: Config, ledgerAt: System, usersAt: System, rules: PolicyEngine.Rules,
              resolve: string -> Result<Pipeline.ResolvedModel, Pipeline.Fault>): Pipeline.Arrival
  {
    a.(gates := PipelineRuns.OwnGates(cfg.vault, ledgerAt.sh.ledger, usersAt.sh.users, rules, resolve))
  }

  // In every interleaved run of the key service: a request that presents a key after it was deactivated is refused
  // before the limiter. It makes no call, adds no usage event, and changes nobody's request window.
  lemma DeactivatedKeyMakesNoCall(cfg: Config, states: seq<System>, acts: seq<Action>, i: nat, j: nat, k: nat,
                                  id: string, a: Pipeline.Arrival, rules: PolicyEngine.Rules,
                                  resolve: string -> Result<Pipeline.ResolvedModel, Pipeline.Fault>,
                                  limit: nat, audited: bool, p: Pipeline.State)
    requires IsRun(cfg, states, acts) && i <= j < |states| && k < |states|
    requires GetKey(states[i].sh.ledger, id).Some? && GetKey(states[i].sh.ledger, id).value.status != Active
    requires ExtractVirtualKey(a.header) == Result.Ok(cfg.vault.decrypt(GetKey(states[i].sh.ledger, id).value.blob))
    ensures var (after, outcome) := Pipeline.Step(limit, audited, p, At(a, cfg, states[j], states[k], rules, resolve));
      && after.calls == p.calls && after.usage == p.usage && after.windows == p.windows
      && ((audited ==> a.body.Obj?) ==> outcome == Pipeline.AuthFailed(InactiveKey))
  {
    DeactivationIsFinal(cfg, states, acts, i, j, id, a.header);
    assert LookupKey(cfg.vault, states[j].sh.ledger, a.header) == Result.Err(InactiveKey);
    assert Authenticate(cfg.vault, states[j].sh.ledger, states[k].sh.users, a.header) == Result.Err(InactiveKey);
  }
}
