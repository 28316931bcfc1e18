// What the races between calls do to the cache and to the number of active keys: exactly which steps do harm, runs in
// which they happen, and conditions under which they do not.
module KeyRaces {
  import opened Wrappers
  import opened KeyLedger
  import opened ProxyAuth
  import opened IssueService
  import opened KeyProtocol
  import opened KeySafety
  import CachedKeys

  // --- What a step does to the stores -----------------------------------------

  // The issue call a program counter is in, the shell helper's included.
  function IssueOf(pc: Pc): Option<IssuePc> {
    match pc
    case IssueCall(p) => Some(p)
    case HelperCall(HelperFetch(_, _, _, inner)) => Some(inner)
    case _ => None
  }

  // The program counter an action advances.
  function Moving(s: System, a: Action): Option<Pc> {
    if a.Advance? && a.c in s.calls then Some(s.calls[a.c]) else None
  }

  function MovingIssue(s: System, a: Action): Option<IssuePc> {
    match Moving(s, a) case Some(pc) => IssueOf(pc) case None => None
  }

  // The entry an issue call writes next, and the record it saves next.
  function PutOf(cfg: Config, p: IssuePc): Option<CacheEntry> {
    match p
    case PutFound(_, now, r) => Some(EntryFor(cfg, r, now))
    case PutNew(_, now, r, _) => Some(EntryFor(cfg, r, now))
    case _ => None
  }

  function IssuedOf(cfg: Config, p: IssuePc, id: string, key: string): Option<KeyRecord> {
    match p
    case SaveNew(_, now, user) => Some(NewRecord(cfg.vault, user.id, id, key, now))
    case _ => None
  }

  // The entry the action writes to the cache.
  function PutBy(cfg: Config, s: System, a: Action): Option<CacheEntry> {
    match MovingIssue(s, a) case Some(p) => PutOf(cfg, p) case None => None
  }

  // The user whose entry the action removes from the cache.
  function DroppedBy(s: System, a: Action): Option<string> {
    if a.Evict? then Some(a.u)
    else match Moving(s, a)
      case Some(AdminCall(Invalidate(_, r))) => Some(r.userId)
      case _ => None
  }

  // The inactive version of a record that the action saves.
  function DeactivatedBy(s: System, a: Action): Option<KeyRecord> {
    match Moving(s, a)
    case Some(AdminCall(SaveInactive(_, r))) => Some(r)
    case _ => None
  }

  // The new record that the action saves: an issued key or a replacement.
  function AddedBy(cfg: Config, s: System, a: Action): Option<KeyRecord> {
    match Moving(s, a)
    case Some(AdminCall(SaveReplacement(r, now))) => Some(NewRecord(cfg.vault, r.userId, a.id, a.key, now))
    case Some(pc) => if IssueOf(pc).Some? then IssuedOf(cfg, IssueOf(pc).value, a.id, a.key) else None
    case None => None
  }

  // The record the action saves, old or new.
  function SavedBy(cfg: Config, s: System, a: Action): Option<KeyRecord> {
    if DeactivatedBy(s, a).Some? then DeactivatedBy(s, a) else AddedBy(cfg, s, a)
  }

  lemma IssueEffects(cfg: Config, sh: Shared, p: IssuePc, id: string, key: string)
    ensures var sh' := IssueStep(cfg, sh, p, id, key).0;
      && sh'.ledger == (match IssuedOf(cfg, p, id, key) case Some(r) => SaveKey(sh.ledger, r) case None => sh.ledger)
      && sh'.cache == (match PutOf(cfg, p) case Some(e) => PutEntry(sh.cache, e) case None => sh.cache)
      && (PutOf(cfg, p).None? || IssuedOf(cfg, p, id, key).None?)
  {
  }

  // The stores after any action.
  lemma Effects(cfg: Config, s: System, a: Action)
    requires Enabled(cfg, s, a)
    ensures var s' := Apply(cfg, s, a);
      && s'.sh.ledger == (match SavedBy(cfg, s, a) case Some(r) => SaveKey(s.sh.ledger, r) case None => s.sh.ledger)
      && s'.sh.cache == (if PutBy(cfg, s, a).Some? then PutEntry(s.sh.cache, PutBy(cfg, s, a).value)
                         else if DroppedBy(s, a).Some? then DropEntry(s.sh.cache, DroppedBy(s, a).value)
                         else s.sh.cache)
      && (SavedBy(cfg, s, a).Some? ==> s'.sh.cache == s.sh.cache)
  {
    if a.Advance? {
      var pc := s.calls[a.c];
      if IssueOf(pc).Some? { IssueEffects(cfg, s.sh, IssueOf(pc).value, a.id, a.key); }
    }
  }

  // What the invariant says of a save: it replaces an existing record by an inactive version, or adds an active one
  // under a new id.
  lemma SavesAreVersions(cfg: Config, s: System, a: Action)
    requires Inv(cfg.vault, s) && Enabled(cfg, s, a)
    ensures DeactivatedBy(s, a).Some? ==>
      && Holds(s.sh.ledger, DeactivatedBy(s, a).value) && DeactivatedBy(s, a).value.status != Active
      && AddedBy(cfg, s, a).None?
    ensures AddedBy(cfg, s, a).Some? ==>
      GetKey(s.sh.ledger, AddedBy(cfg, s, a).value.id).None? && AddedBy(cfg, s, a).value.status == Active
    ensures PutBy(cfg, s, a).Some? ==> EntryOk(s.sh.ledger, PutBy(cfg, s, a).value.userId, PutBy(cfg, s, a).value)
  {
    if a.Advance? { assert PcOk(cfg.vault, s.sh.ledger, s.calls[a.c]); }
  }

  // --- Stale entries ----------------------------------------------------------

  predicate Inactive(l: Ledger, id: string) { GetKey(l, id).Some? && GetKey(l, id).value.status != Active }

  // The user's cache entry names a key that is inactive in the ledger.
  predicate Stale(sh: Shared, u: string) { u in sh.cache && Inactive(sh.ledger, sh.cache[u].keyId) }

  // The put of a call that was overtaken by the deactivation of its key.
  predicate OvertakenPut(cfg: Config, s: System, a: Action, u: string) {
    var e := PutBy(cfg, s, a);
    e.Some? && e.value.userId == u && Inactive(s.sh.ledger, e.value.keyId)
  }

  // The save that opens the window between save and invalidation: the cached key is being deactivated.
  predicate DeactivatesCached(s: System, a: Action, u: string) {
    DeactivatedBy(s, a).Some? && u in s.sh.cache && s.sh.cache[u].keyId == DeactivatedBy(s, a).value.id
  }

  predicate MakesStale(cfg: Config, s: System, a: Action, u: string) {
    OvertakenPut(cfg, s, a, u) || DeactivatesCached(s, a, u)
  }

  // The action replaces or removes the user's entry.
  predicate Touches(cfg: Config, s: System, a: Action, u: string) {
    (PutBy(cfg, s, a).Some? && PutBy(cfg, s, a).value.userId == u) || DroppedBy(s, a) == Some(u)
  }

  lemma SavedLookup(cfg: Config, s: System, a: Action, id: string)
    requires Inv(cfg.vault, s) && Enabled(cfg, s, a) && GetKey(s.sh.ledger, id).Some?
    ensures Inactive(Apply(cfg, s, a).sh.ledger, id) <==>
            Inactive(s.sh.ledger, id) || (DeactivatedBy(s, a).Some? && DeactivatedBy(s, a).value.id == id)
  {
    Effects(cfg, s, a);
    SavesAreVersions(cfg, s, a);
    if SavedBy(cfg, s, a).Some? { GetAfterSave(s.sh.ledger, SavedBy(cfg, s, a).value, id); }
  }

  // The user's entry after any action.
  lemma EntryEffects(cfg: Config, s: System, a: Action, u: string)
    requires Enabled(cfg, s, a)
    ensures var before, after, put := s.sh.cache, Apply(cfg, s, a).sh.cache, PutBy(cfg, s, a);
      && (put.Some? && put.value.userId == u ==>
            u in after && after[u] == put.value && SavedBy(cfg, s, a).None?)
      && (!Touches(cfg, s, a, u) ==> (u in after <==> u in before) && (u in after ==> after[u] == before[u]))
      && (DroppedBy(s, a) == Some(u) ==> u !in after && put.None? && SavedBy(cfg, s, a).None?)
  {
    Effects(cfg, s, a);
    if MovingIssue(s, a).Some? { IssueEffects(cfg, s.sh, MovingIssue(s, a).value, a.id, a.key); }
  }

  // In every state that meets the invariant: after a step an entry is stale exactly when the step made it so, or it was
  // and the step left it alone.
  lemma StaleExactly(cfg: Config, s: System, a: Action, u: string)
    requires Inv(cfg.vault, s) && Enabled(cfg, s, a)
    ensures Stale(Apply(cfg, s, a).sh, u) <==> MakesStale(cfg, s, a, u) || (Stale(s.sh, u) && !Touches(cfg, s, a, u))
  {
    EntryEffects(cfg, s, a, u);
    SavesAreVersions(cfg, s, a);
    if PutBy(cfg, s, a).Some? && PutBy(cfg, s, a).value.userId == u {
      SavedLookup(cfg, s, a, PutBy(cfg, s, a).value.keyId);
    } else if u in s.sh.cache {
      assert EntryOk(s.sh.ledger, u, s.sh.cache[u]);
      SavedLookup(cfg, s, a, s.sh.cache[u].keyId);
    }
  }

  predicate StaleFrom(cfg: Config, states: seq<System>, acts: seq<Action>, i: nat, j: nat, u: string)
    requires i < j <= |acts| && |states| == |acts| + 1
  {
    MakesStale(cfg, states[i], acts[i], u) && forall k | i < k < j :: !Touches(cfg, states[k], acts[k], u)
  }

  predicate StaleBefore(cfg: Config, states: seq<System>, acts: seq<Action>, j: nat, u: string)
    requires j <= |acts| && |states| == |acts| + 1
  {
    exists i: nat | i < j :: StaleFrom(cfg, states, acts, i, j, u)
  }

  lemma StaleBeforeNext(cfg: Config, states: seq<System>, acts: seq<Action>, j: nat, u: string)
    requires j < |acts| && |states| == |acts| + 1
    ensures StaleBefore(cfg, states, acts, j + 1, u) <==>
      || MakesStale(cfg, states[j], acts[j], u)
      || (StaleBefore(cfg, states, acts, j, u) && !Touches(cfg, states[j], acts[j], u))
  {
    if MakesStale(cfg, states[j], acts[j], u) { assert StaleFrom(cfg, states, acts, j, j + 1, u); }
    if StaleBefore(cfg, states, acts, j, u) && !Touches(cfg, states[j], acts[j], u) {
      var i: nat :| i < j && StaleFrom(cfg, states, acts, i, j, u);
      assert StaleFrom(cfg, states, acts, i, j + 1, u);
    }
    if StaleBefore(cfg, states, acts, j + 1, u) {
      var i: nat :| i < j + 1 && StaleFrom(cfg, states, acts, i, j + 1, u);
      if i < j { assert StaleFrom(cfg, states, acts, i, j, u); }
    }
  }

  // In every run an entry is stale exactly when some earlier step made it so and no step since has touched it.
  lemma {:induction false} StaleSince(cfg: Config, states: seq<System>, acts: seq<Action>, j: nat, u: string)
    requires IsRun(cfg, states, acts) && j <= |acts|
    ensures Stale(states[j].sh, u) <==> StaleBefore(cfg, states, acts, j, u)
  {
    if j > 0 {
      StaleSince(cfg, states, acts, j - 1, u);
      RunOk(cfg, states, acts, j - 1);
      assert IsStep(cfg, states, acts, j - 1);
      StaleExactly(cfg, states[j-1], acts[j-1], u);
      StaleBeforeNext(cfg, states, acts, j - 1, u);
    }
  }
}
