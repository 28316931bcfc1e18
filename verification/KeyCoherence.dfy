// When a cache entry says what the ledger would say: which steps of interleaved calls break that, and runs in which it
// holds outside the time between a save and its invalidation.
module KeyCoherence {
  import opened Wrappers
  import opened KeyLedger
  import opened ProxyAuth
  import opened IssueService
  import opened KeyProtocol
  import opened KeySafety
  import opened KeyRaces
  import CachedKeys

  // --- The newest of a list ---------------------------------------------------

  // rs[i] is newer than everything before it and not older than anything after it.
  predicate IsNewest(rs: seq<KeyRecord>, i: nat) {
    && i < |rs|
    && (forall j | 0 <= j < i :: rs[j].createdAt < rs[i].createdAt)
    && (forall j | i < j < |rs| :: rs[j].createdAt <= rs[i].createdAt)
  }

  lemma {:induction false} NewestAt(rs: seq<KeyRecord>) returns (i: nat)
    requires rs != []
    ensures IsNewest(rs, i) && rs[i] == Newest(rs)
  {
    i := 0;
    if |rs| > 1 {
      var k := NewestAt(rs[1..]);
      var later := rs[1..];
      if rs[0].createdAt < later[k].createdAt {
        i := k + 1;
        assert forall j | 1 <= j < |rs| :: rs[j] == later[j - 1];
      } else {
        assert forall j | 1 <= j < |rs| :: rs[j] == later[j - 1] && later[j - 1].createdAt <= later[k].createdAt;
      }
    }
  }

  lemma NewestUnique(rs: seq<KeyRecord>, i: nat)
    requires IsNewest(rs, i)
    ensures Newest(rs) == rs[i]
  {
    var k := NewestAt(rs);
    var found, claimed := rs[k].createdAt, rs[i].createdAt;
    assert !(k < i) && !(i < k);
  }

  // A record added at the end is the newest exactly when it is strictly newer.
  lemma NewestAppend(rs: seq<KeyRecord>, r: KeyRecord)
    requires rs != []
    ensures Newest(rs + [r]) == if r.createdAt > Newest(rs).createdAt then r else Newest(rs)
  {
    var i := NewestAt(rs);
    if r.createdAt > rs[i].createdAt {
      assert forall j | 0 <= j < |rs| :: rs[j].createdAt <= rs[i].createdAt;
      NewestUnique(rs + [r], |rs|);
    } else {
      NewestUnique(rs + [r], i);
    }
  }

  lemma NewestShift(rs: seq<KeyRecord>, i: nat, k: nat, ys: seq<KeyRecord>, n: nat)
    requires IsNewest(rs, i) && k < |rs| && k != i && |ys| == |rs| - 1 && n == (if i < k then i else i - 1)
    requires forall j | 0 <= j < |ys| :: ys[j] == rs[if j < k then j else j + 1]
    ensures IsNewest(ys, n) && ys[n] == rs[i]
  {
    forall j | 0 <= j < n ensures ys[j].createdAt < ys[n].createdAt {
      assert ys[j] == rs[if j < k then j else j + 1];
    }
    forall j | n < j < |ys| ensures ys[j].createdAt <= ys[n].createdAt {
      assert ys[j] == rs[if j < k then j else j + 1];
    }
  }

  // Taking out a record that is not the newest leaves the newest.
  lemma NewestWithout(a: seq<KeyRecord>, x: KeyRecord, b: seq<KeyRecord>)
    requires Newest(a + [x] + b) != x
    ensures a + b != [] && Newest(a + b) == Newest(a + [x] + b)
  {
    var rs := a + [x] + b;
    var i := NewestAt(rs);
    var n := if i < |a| then i else i - 1;
    assert rs[|a|] == x && i != |a|;
    forall j | 0 <= j < |a + b| ensures (a + b)[j] == rs[if j < |a| then j else j + 1] {
      assert j < |a| ==> (a + b)[j] == a[j] == rs[j];
    }
    NewestShift(rs, i, |a|, a + b, n);
    NewestUnique(a + b, n);
  }

  // --- What the ledger would answer -------------------------------------------

  // The ledger's answer for u is the record with this id.
  predicate Names(l: Ledger, u: string, id: string) {
    GetActiveKeyForUser(l, u).Some? && GetActiveKeyForUser(l, u).value.id == id
  }

  lemma NamesIsActive(l: Ledger, u: string, id: string)
    requires Distinct(l) && Names(l, u, id)
    ensures GetKey(l, id) == GetActiveKeyForUser(l, u) && ActiveFor(u, GetKey(l, id).value)
  {
    GetKeyOfMember(l, GetActiveKeyForUser(l, u).value);
  }

  // A save for another user does not change the answer.
  lemma OtherUserAnswer(l: Ledger, r: KeyRecord, u: string)
    requires r.userId != u && (GetKey(l, r.id).Some? ==> GetKey(l, r.id).value.userId == r.userId)
    ensures GetActiveKeyForUser(SaveKey(l, r), u) == GetActiveKeyForUser(l, u)
  {
    SaveFrame(l, r, u);
  }

  // A new active record takes over exactly when it is strictly newer than the old answer.
  lemma AnswerAfterAdd(l: Ledger, r: KeyRecord)
    requires GetKey(l, r.id).None? && r.status == Active
    ensures var before := GetActiveKeyForUser(l, r.userId);
      GetActiveKeyForUser(SaveKey(l, r), r.userId) ==
      if before.Some? && r.createdAt <= before.value.createdAt then before else Some(r)
  {
    SaveNewActive(l, r);
    if ActiveKeys(l, r.userId) == [] {
      assert [] + [r] == [r];
    } else {
      NewestAppend(ActiveKeys(l, r.userId), r);
    }
  }

  // The active keys around a record that is active before a save and inactive after it.
  lemma ListingAround(l: Ledger, r: KeyRecord) returns (before: seq<KeyRecord>, after: seq<KeyRecord>)
    requires GetKey(l, r.id).Some? && ActiveFor(r.userId, GetKey(l, r.id).value) && r.status != Active
    ensures ActiveKeys(l, r.userId) == before + [GetKey(l, r.id).value] + after
    ensures ActiveKeys(SaveKey(l, r), r.userId) == before + after
  {
    var u, k := r.userId, IndexOf(l, r.id);
    before, after := ActiveKeys(l[..k], u), ActiveKeys(l[k+1..], u);
    OneListed(l[k], u);
    OneListed(r, u);
    ActiveKeysUpdate(l, k, l[k], u);
    assert l[k := l[k]] == l;
    UnlistedBetween(l, k, r, u);
  }

  lemma OneListed(r: KeyRecord, u: string)
    ensures ActiveKeys([r], u) == if ActiveFor(u, r) then [r] else []
  {
    assert [r][1..] == [];
  }

  lemma UnlistedBetween(l: Ledger, k: nat, r: KeyRecord, u: string)
    requires k < |l| && !ActiveFor(u, r)
    ensures ActiveKeys(l[k := r], u) == ActiveKeys(l[..k], u) + ActiveKeys(l[k+1..], u)
  {
    ActiveKeysUpdate(l, k, r, u);
    OneListed(r, u);
    var before, after := ActiveKeys(l[..k], u), ActiveKeys(l[k+1..], u);
    assert before + [] + after == before + after;
  }

  lemma AnswerWithoutOther(l: Ledger, r: KeyRecord, id: string)
    requires KeySafety.Holds(l, r) && r.status != Active && Names(l, r.userId, id) && id != r.id
    ensures Names(SaveKey(l, r), r.userId, id)
  {
    if ActiveFor(r.userId, GetKey(l, r.id).value) {
      var before, after := ListingAround(l, r);
      NewestWithout(before, GetKey(l, r.id).value, after);
    } else {
      SaveFrame(l, r, r.userId);
    }
  }

  // Deactivating a record leaves the answer exactly when it was another one.
  lemma AnswerAfterDeactivation(l: Ledger, r: KeyRecord, id: string)
    requires Distinct(l) && KeySafety.Holds(l, r) && r.status != Active && Names(l, r.userId, id)
    ensures Names(SaveKey(l, r), r.userId, id) <==> id != r.id
  {
    if id == r.id {
      GetAfterSave(l, r, id);
      DistinctSave(l, r);
      if Names(SaveKey(l, r), r.userId, id) { NamesIsActive(SaveKey(l, r), r.userId, id); }
    } else {
      AnswerWithoutOther(l, r, id);
    }
  }

  lemma DistinctSave(l: Ledger, r: KeyRecord)
    requires Distinct(l) && KeySafety.Holds(l, r)
    ensures Distinct(SaveKey(l, r))
  {
    var k := IndexOf(l, r.id);
    assert SaveKey(l, r) == l[k := r];
    forall i, j | 0 <= i < j < |l|
      ensures SaveKey(l, r)[i].id != SaveKey(l, r)[j].id && SaveKey(l, r)[i].keyHash != SaveKey(l, r)[j].keyHash
    {
      assert l[i].id != l[j].id && l[i].keyHash != l[j].keyHash;
    }
  }

  // --- Which steps break coherence --------------------------------------------

  // Entries are written with the status they were read with, which is active.
  predicate PutsActive(pc: Pc) {
    match IssueOf(pc)
    case Some(PutFound(_, _, r)) => r.status == Active
    case Some(PutNew(_, _, r, _)) => r.status == Active
    case _ => true
  }

  ghost predicate EntriesActive(s: System) {
    && (forall u | u in s.sh.cache :: s.sh.cache[u].status == Active)
    && (forall c | c in s.calls :: PutsActive(s.calls[c]))
  }

  lemma ApplyEntriesActive(cfg: Config, s: System, a: Action)
    requires EntriesActive(s) && Enabled(cfg, s, a)
    ensures EntriesActive(Apply(cfg, s, a))
  {
    Effects(cfg, s, a);
    if a.Advance? {
      assert PutsActive(s.calls[a.c]);
      if IssueOf(s.calls[a.c]).Some? { IssuePutsActive(cfg, s.sh, IssueOf(s.calls[a.c]).value, a.id, a.key); }
    }
  }

  lemma IssuePutsActive(cfg: Config, sh: Shared, p: IssuePc, id: string, key: string)
    ensures PutsActive(IssueCall(p)) ==> PutsActive(IssueCall(IssueStep(cfg, sh, p, id, key).1))
  {
  }

  lemma {:induction false} RunEntriesActive(cfg: Config, states: seq<System>, acts: seq<Action>, i: nat)
    requires IsRun(cfg, states, acts) && i < |states|
    ensures EntriesActive(states[i])
  {
    if i > 0 {
      RunEntriesActive(cfg, states, acts, i - 1);
      assert IsStep(cfg, states, acts, i - 1);
      ApplyEntriesActive(cfg, states[i-1], acts[i-1]);
    }
  }

  // The user's entry, if any, says what the ledger would say.
  predicate Coherent(sh: Shared, u: string) { u in sh.cache ==> CachedKeys.Mirrors(sh.cache[u], u, sh.ledger) }

  // In a state that meets the invariants, that is a matter of which key the ledger would answer with.
  lemma CoherentMeans(v: Vault, s: System, u: string)
    requires Inv(v, s) && EntriesActive(s)
    ensures Coherent(s.sh, u) <==> (u in s.sh.cache ==> Names(s.sh.ledger, u, s.sh.cache[u].keyId))
  {
    if u in s.sh.cache {
      assert EntryOk(s.sh.ledger, u, s.sh.cache[u]);
      if Names(s.sh.ledger, u, s.sh.cache[u].keyId) { NamesIsActive(s.sh.ledger, u, s.sh.cache[u].keyId); }
    }
  }

  // The put of a key that is no longer the ledger's answer.
  predicate LatePut(cfg: Config, s: System, a: Action, u: string) {
    var e := PutBy(cfg, s, a);
    e.Some? && e.value.userId == u && !Names(s.sh.ledger, u, e.value.keyId)
  }

  // The save of a key for u that is newer than the cached one, which was the ledger's answer.
  predicate OverridesCached(cfg: Config, s: System, a: Action, u: string) {
    var r := AddedBy(cfg, s, a);
    && r.Some? && r.value.userId == u && u in s.sh.cache && Names(s.sh.ledger, u, s.sh.cache[u].keyId)
    && r.value.createdAt > GetActiveKeyForUser(s.sh.ledger, u).value.createdAt
  }

  predicate Breaks(cfg: Config, s: System, a: Action, u: string) {
    LatePut(cfg, s, a, u) || DeactivatesCached(s, a, u) || OverridesCached(cfg, s, a, u)
  }

  lemma SaveKeepsAnswer(cfg: Config, s: System, a: Action, u: string, id: string)
    requires Inv(cfg.vault, s) && Enabled(cfg, s, a) && Names(s.sh.ledger, u, id)
    ensures Names(Apply(cfg, s, a).sh.ledger, u, id) <==>
      !(DeactivatedBy(s, a).Some? && DeactivatedBy(s, a).value.id == id) &&
      !(AddedBy(cfg, s, a).Some? && AddedBy(cfg, s, a).value.userId == u &&
        AddedBy(cfg, s, a).value.createdAt > GetActiveKeyForUser(s.sh.ledger, u).value.createdAt)
  {
    var l := s.sh.ledger;
    Effects(cfg, s, a);
    SavesAreVersions(cfg, s, a);
    NamesIsActive(l, u, id);
    if DeactivatedBy(s, a).Some? {
      var r := DeactivatedBy(s, a).value;
      if r.userId == u { AnswerAfterDeactivation(l, r, id); } else { OtherUserAnswer(l, r, u); }
    } else if AddedBy(cfg, s, a).Some? {
      var r := AddedBy(cfg, s, a).value;
      if r.userId == u { AnswerAfterAdd(l, r); } else { OtherUserAnswer(l, r, u); }
    }
  }

  // From a coherent entry, in every state that meets the invariants: coherence is lost exactly at these steps.
  lemma CoherenceExactly(cfg: Config, s: System, a: Action, u: string)
    requires Sound(cfg.vault) && Inv(cfg.vault, s) && EntriesActive(s) && Enabled(cfg, s, a) && Coherent(s.sh, u)
    ensures Coherent(Apply(cfg, s, a).sh, u) <==> !Breaks(cfg, s, a, u)
  {
    var s' := Apply(cfg, s, a);
    ApplyOk(cfg, s, a);
    ApplyEntriesActive(cfg, s, a);
    CoherentMeans(cfg.vault, s, u);
    CoherentMeans(cfg.vault, s', u);
    Effects(cfg, s, a);
    SavesAreVersions(cfg, s, a);
    if u in s.sh.cache { SaveKeepsAnswer(cfg, s, a, u, s.sh.cache[u].keyId); }
  }

  // From any entry: a put leaves a coherent one exactly when it is not late.
  lemma PutCoherentExactly(cfg: Config, s: System, a: Action, u: string)
    requires Sound(cfg.vault) && Inv(cfg.vault, s) && EntriesActive(s) && Enabled(cfg, s, a)
    requires PutBy(cfg, s, a).Some? && PutBy(cfg, s, a).value.userId == u
    ensures Coherent(Apply(cfg, s, a).sh, u) <==> !LatePut(cfg, s, a, u)
  {
    ApplyOk(cfg, s, a);
    ApplyEntriesActive(cfg, s, a);
    CoherentMeans(cfg.vault, Apply(cfg, s, a), u);
    Effects(cfg, s, a);
  }
}
