// How many active keys a user has under interleaving: which steps change the number, and when it exceeds one.
module KeyCounts {
  import opened Wrappers
  import opened KeyLedger
  import opened ProxyAuth
  import opened IssueService
  import opened KeyProtocol
  import opened KeySafety
  import opened KeyRaces
  import CachedKeys

  // The step saves a new active key for v.
  predicate AddsFor(cfg: Config, s: System, a: Action, v: string) {
    AddedBy(cfg, s, a).Some? && AddedBy(cfg, s, a).value.userId == v
  }

  // The step deactivates a key of v that was active.
  predicate RemovesFor(s: System, a: Action, v: string) {
    var r := DeactivatedBy(s, a);
    r.Some? && GetKey(s.sh.ledger, r.value.id).Some? && ActiveFor(v, GetKey(s.sh.ledger, r.value.id).value)
  }

  // The whole effect of any step on a user's number of active keys.
  lemma CountExactly(cfg: Config, s: System, a: Action, v: string)
    requires Inv(cfg.vault, s) && Enabled(cfg, s, a)
    ensures ActiveCount(Apply(cfg, s, a).sh.ledger, v) ==
            ActiveCount(s.sh.ledger, v)
            + (if AddsFor(cfg, s, a, v) then 1 else 0) - (if RemovesFor(s, a, v) then 1 else 0)
    ensures !(AddsFor(cfg, s, a, v) && RemovesFor(s, a, v))
  {
    Effects(cfg, s, a);
    SavesAreVersions(cfg, s, a);
    if DeactivatedBy(s, a).Some? {
      CachedKeys.DeactivateCount(s.sh.ledger, DeactivatedBy(s, a).value, v);
    } else if AddedBy(cfg, s, a).Some? {
      var r := AddedBy(cfg, s, a).value;
      if r.userId == v { SaveNewActive(s.sh.ledger, r); } else { SaveFrame(s.sh.ledger, r, v); }
    }
  }

  // A user gains a second active key exactly at a step that adds one to a user who has one.
  lemma GainsSecondExactly(cfg: Config, s: System, a: Action, v: string)
    requires Inv(cfg.vault, s) && Enabled(cfg, s, a) && ActiveCount(s.sh.ledger, v) <= 1
    ensures ActiveCount(Apply(cfg, s, a).sh.ledger, v) > 1 <==>
            AddsFor(cfg, s, a, v) && ActiveCount(s.sh.ledger, v) == 1
  {
    CountExactly(cfg, s, a, v);
  }

  predicate AtMostOne(states: seq<System>, v: string) {
    forall j | 0 <= j < |states| :: ActiveCount(states[j].sh.ledger, v) <= 1
  }

  // Some step of the run adds a key to a user who has one.
  predicate Doubles(cfg: Config, states: seq<System>, acts: seq<Action>, v: string)
    requires |states| == |acts| + 1
  {
    exists i | 0 <= i < |acts| :: AddsFor(cfg, states[i], acts[i], v) && ActiveCount(states[i].sh.ledger, v) >= 1
  }

  lemma {:induction false} CountUpTo(cfg: Config, states: seq<System>, acts: seq<Action>, v: string, j: nat)
    requires IsRun(cfg, states, acts) && j < |states|
    requires ActiveCount(states[0].sh.ledger, v) <= 1 && !Doubles(cfg, states, acts, v)
    ensures ActiveCount(states[j].sh.ledger, v) <= 1
  {
    if j > 0 {
      CountUpTo(cfg, states, acts, v, j - 1);
      RunOk(cfg, states, acts, j - 1);
      assert IsStep(cfg, states, acts, j - 1);
      CountExactly(cfg, states[j-1], acts[j-1], v);
    }
  }

  // In every run, a user who starts with at most one active key has at most one throughout, exactly if no issue and no
  // replacement is saved while the user has one.
  lemma AtMostOneExactly(cfg: Config, states: seq<System>, acts: seq<Action>, v: string)
    requires IsRun(cfg, states, acts) && ActiveCount(states[0].sh.ledger, v) <= 1
    ensures AtMostOne(states, v) <==> !Doubles(cfg, states, acts, v)
  {
    if Doubles(cfg, states, acts, v) {
      var i :| 0 <= i < |acts| && AddsFor(cfg, states[i], acts[i], v) && ActiveCount(states[i].sh.ledger, v) >= 1;
      RunOk(cfg, states, acts, i);
      assert IsStep(cfg, states, acts, i);
      CountExactly(cfg, states[i], acts[i], v);
      assert ActiveCount(states[i+1].sh.ledger, v) > 1;
    } else {
      forall j | 0 <= j < |states| ensures ActiveCount(states[j].sh.ledger, v) <= 1 {
        CountUpTo(cfg, states, acts, v, j);
      }
    }
  }
}
