// Runs in which the cache stays coherent but for the time between a save and its invalidation.
module KeyQuietRuns {
  import opened Wrappers
  import opened KeyLedger
  import opened ProxyAuth
  import opened IssueService
  import opened KeyProtocol
  import opened KeySafety
  import opened KeyRaces
  import opened KeyCoherence

  // An admin call has saved a key of u as inactive and has yet to invalidate u's entry.
  predicate Invalidating(pc: Pc, u: string) { pc.AdminCall? && pc.admin.Invalidate? && pc.admin.r.userId == u }

  predicate Pending(s: System, u: string) { exists c | c in s.calls :: Invalidating(s.calls[c], u) }

  // A call dies before its invalidation.
  predicate Abandons(s: System, a: Action, u: string) { a.Crash? && a.c in s.calls && Invalidating(s.calls[a.c], u) }

  // The steps that harm u's entry for good: a late put, a newer key over a coherent entry, an abandoned invalidation.
  predicate Harms(cfg: Config, s: System, a: Action, u: string) {
    LatePut(cfg, s, a, u) || OverridesCached(cfg, s, a, u) || Abandons(s, a, u)
  }

  // Deactivating the cached key opens the window.
  lemma DeactivationOpens(cfg: Config, s: System, a: Action, u: string)
    requires Inv(cfg.vault, s) && Enabled(cfg, s, a) && DeactivatesCached(s, a, u)
    ensures Pending(Apply(cfg, s, a), u)
  {
    SavesAreVersions(cfg, s, a);
    assert EntryOk(s.sh.ledger, u, s.sh.cache[u]);
    assert Invalidating(Apply(cfg, s, a).calls[a.c], u);
  }

  // An open window stays open until the entry is dropped or the call dies.
  lemma PendingStep(cfg: Config, s: System, a: Action, u: string)
    requires Pending(s, u) && Enabled(cfg, s, a) && !Abandons(s, a, u)
    ensures Pending(Apply(cfg, s, a), u) || u !in Apply(cfg, s, a).sh.cache
  {
    var c :| c in s.calls && Invalidating(s.calls[c], u);
    if a.Advance? && a.c == c {
      Effects(cfg, s, a);
      assert DroppedBy(s, a) == Some(u);
    } else {
      assert c in Apply(cfg, s, a).calls && Apply(cfg, s, a).calls[c] == s.calls[c];
    }
  }

  // As long as no step has harmed it, u's entry is coherent or about to be invalidated.
  lemma {:induction false} UnharmedIsCoherent(cfg: Config, states: seq<System>, acts: seq<Action>, j: nat, u: string)
    requires IsRun(cfg, states, acts) && j < |states|
    requires forall i: nat | i < j :: !Harms(cfg, states[i], acts[i], u)
    ensures Coherent(states[j].sh, u) || Pending(states[j], u)
  {
    if j > 0 {
      var s, a := states[j-1], acts[j-1];
      UnharmedIsCoherent(cfg, states, acts, j - 1, u);
      RunOk(cfg, states, acts, j - 1);
      RunEntriesActive(cfg, states, acts, j - 1);
      assert IsStep(cfg, states, acts, j - 1) && !Harms(cfg, s, a, u);
      if Pending(s, u) {
        PendingStep(cfg, s, a, u);
      } else {
        CoherenceExactly(cfg, s, a, u);
        if DeactivatesCached(s, a, u) { DeactivationOpens(cfg, s, a, u); }
      }
    }
  }

  // --- Quiet runs -------------------------------------------------------------

  // An issue call of u between its ledger read and its put.
  predicate InWindow(pc: Pc, u: string) {
    match IssueOf(pc)
    case Some(PutFound(_, _, r)) => r.userId == u
    case Some(SaveNew(_, _, user)) => user.id == u
    case Some(PutNew(_, _, r, _)) => r.userId == u
    case _ => false
  }

  // The step saves a key of u while no other issue call of u is in its window, saves no replacement over an entry of u,
  // and abandons no invalidation.
  predicate Quiet(cfg: Config, s: System, a: Action, u: string) {
    && (SavedBy(cfg, s, a).Some? && SavedBy(cfg, s, a).value.userId == u ==>
          forall c | c in s.calls && c != a.c :: !InWindow(s.calls[c], u))
    && (&& Moving(s, a).Some? && Moving(s, a).value.AdminCall?
        && AddedBy(cfg, s, a).Some? && AddedBy(cfg, s, a).value.userId == u ==>
          u !in s.sh.cache)
    && !Abandons(s, a, u)
  }

  // What a call in its window saw is still what the ledger answers.
  predicate SeesLedger(l: Ledger, pc: Pc, u: string) {
    match IssueOf(pc)
    case Some(PutFound(_, _, r)) => r.userId == u ==> Names(l, u, r.id)
    case Some(SaveNew(_, _, user)) => user.id == u ==> GetActiveKeyForUser(l, u).None?
    case Some(PutNew(_, _, r, _)) => r.userId == u ==> Names(l, u, r.id)
    case _ => true
  }

  ghost predicate AllSeeLedger(s: System, u: string) {
    forall c | c in s.calls :: SeesLedger(s.sh.ledger, s.calls[c], u)
  }

  // A step of the issue call itself.
  lemma OwnStepSees(cfg: Config, sh: Shared, p: IssuePc, id: string, key: string, u: string)
    requires SharedOk(cfg.vault, sh) && IssuePcOk(cfg.vault, sh.ledger, p) && GetKey(sh.ledger, id).None?
    requires SeesLedger(sh.ledger, IssueCall(p), u)
    ensures var (sh', p') := IssueStep(cfg, sh, p, id, key); SeesLedger(sh'.ledger, IssueCall(p'), u)
  {
    if p.SaveNew? && p.user.id == u { AnswerAfterAdd(sh.ledger, NewRecord(cfg.vault, u, id, key, p.now)); }
  }

  // Saves for others leave u's answer alone.
  lemma AnswerKept(cfg: Config, s: System, a: Action, u: string)
    requires Inv(cfg.vault, s) && Enabled(cfg, s, a)
    requires SavedBy(cfg, s, a).Some? ==> SavedBy(cfg, s, a).value.userId != u
    ensures GetActiveKeyForUser(Apply(cfg, s, a).sh.ledger, u) == GetActiveKeyForUser(s.sh.ledger, u)
  {
    Effects(cfg, s, a);
    SavesAreVersions(cfg, s, a);
    if SavedBy(cfg, s, a).Some? { OtherUserAnswer(s.sh.ledger, SavedBy(cfg, s, a).value, u); }
  }

  lemma OthersSee(cfg: Config, s: System, a: Action, u: string, c: nat)
    requires Inv(cfg.vault, s) && Enabled(cfg, s, a) && AllSeeLedger(s, u) && Quiet(cfg, s, a, u)
    requires c in s.calls && !(a.Advance? && a.c == c)
    ensures SeesLedger(Apply(cfg, s, a).sh.ledger, s.calls[c], u)
  {
    if SavedBy(cfg, s, a).Some? && SavedBy(cfg, s, a).value.userId == u {
      assert !InWindow(s.calls[c], u);
    } else {
      AnswerKept(cfg, s, a, u);
    }
  }

  lemma MoverSees(cfg: Config, s: System, a: Action, u: string)
    requires Inv(cfg.vault, s) && Enabled(cfg, s, a) && AllSeeLedger(s, u) && a.Advance?
    ensures SeesLedger(Apply(cfg, s, a).sh.ledger, Apply(cfg, s, a).calls[a.c], u)
  {
    var pc := s.calls[a.c];
    assert PcOk(cfg.vault, s.sh.ledger, pc) && SeesLedger(s.sh.ledger, pc, u);
    if IssueOf(pc).Some? { OwnStepSees(cfg, s.sh, IssueOf(pc).value, a.id, a.key, u); }
  }

  lemma QuietSees(cfg: Config, s: System, a: Action, u: string)
    requires Inv(cfg.vault, s) && Enabled(cfg, s, a) && AllSeeLedger(s, u) && Quiet(cfg, s, a, u)
    ensures AllSeeLedger(Apply(cfg, s, a), u)
  {
    var s' := Apply(cfg, s, a);
    forall c | c in s'.calls ensures SeesLedger(s'.sh.ledger, s'.calls[c], u) {
      if a.Advance? && a.c == c {
        MoverSees(cfg, s, a, u);
      } else if c in s.calls {
        OthersSee(cfg, s, a, u, c);
        assert s'.calls[c] == s.calls[c];
      } else {
        assert a == Spawn(c, s'.calls[c]);
      }
    }
  }

  lemma QuietHarmless(cfg: Config, s: System, a: Action, u: string)
    requires Inv(cfg.vault, s) && Enabled(cfg, s, a) && AllSeeLedger(s, u) && Quiet(cfg, s, a, u)
    ensures !Harms(cfg, s, a, u)
  {
    if a.Advance? {
      assert PcOk(cfg.vault, s.sh.ledger, s.calls[a.c]) && SeesLedger(s.sh.ledger, s.calls[a.c], u);
    }
  }

  lemma {:induction false} QuietRunSees(cfg: Config, states: seq<System>, acts: seq<Action>, j: nat, u: string)
    requires IsRun(cfg, states, acts) && j < |states|
    requires forall i: nat | i < j :: Quiet(cfg, states[i], acts[i], u)
    ensures AllSeeLedger(states[j], u)
  {
    if j > 0 {
      QuietRunSees(cfg, states, acts, j - 1, u);
      RunOk(cfg, states, acts, j - 1);
      assert IsStep(cfg, states, acts, j - 1);
      QuietSees(cfg, states[j-1], acts[j-1], u);
    }
  }

  // In every quiet run the entry is coherent, or about to be invalidated.
  lemma QuietRunIsCoherent(cfg: Config, states: seq<System>, acts: seq<Action>, j: nat, u: string)
    requires IsRun(cfg, states, acts) && j < |states|
    requires forall i: nat | i < j :: Quiet(cfg, states[i], acts[i], u)
    ensures Coherent(states[j].sh, u) || Pending(states[j], u)
  {
    forall i: nat | i < j ensures !Harms(cfg, states[i], acts[i], u) {
      QuietRunSees(cfg, states, acts, i, u);
      RunOk(cfg, states, acts, i);
      assert IsStep(cfg, states, acts, i);
      QuietHarmless(cfg, states[i], acts[i], u);
    }
    UnharmedIsCoherent(cfg, states, acts, j, u);
  }
}
