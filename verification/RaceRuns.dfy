// Runs in which the races happen: from any state where they can, and from a fresh system.
module RaceRuns {
  import opened Wrappers
  import opened KeyLedger
  import opened ProxyAuth
  import opened IssueService
  import opened KeyProtocol
  import opened KeySafety
  import opened KeyRaces

  // --- Extending a run --------------------------------------------------------

  datatype Run = Run(states: seq<System>, acts: seq<Action>) {
    function Last(): System
      requires states != []
    {
      states[|states|-1]
    }
  }

  ghost predicate Reachable(cfg: Config, r: Run) { IsRun(cfg, r.states, r.acts) }

  // r goes on to q.
  predicate LeadsTo(r: Run, q: Run) { r.states <= q.states && r.acts <= q.acts }

  lemma Then(cfg: Config, r: Run, a: Action) returns (q: Run)
    requires Reachable(cfg, r) && Enabled(cfg, r.Last(), a)
    ensures Reachable(cfg, q) && LeadsTo(r, q) && q.Last() == Apply(cfg, r.Last(), a)
  {
    q := Run(r.states + [Apply(cfg, r.Last(), a)], r.acts + [a]);
    forall i | 0 <= i < |q.acts| ensures IsStep(cfg, q.states, q.acts, i) {
      if i < |r.acts| { assert IsStep(cfg, r.states, r.acts, i); }
    }
  }

  function WithCall(s: System, c: nat, pc: Pc): System { s.(calls := s.calls[c := pc]) }

  // One step of call c, where it leaves the stores alone.
  lemma Move(cfg: Config, r: Run, c: nat, pc: Pc, id: string, key: string) returns (q: Run)
    requires Reachable(cfg, r) && c in r.Last().calls && FreshChoice(cfg.vault, r.Last().sh.ledger, id, key)
    requires Step(cfg, r.Last().sh, r.Last().calls[c], id, key) == (r.Last().sh, pc)
    ensures Reachable(cfg, q) && LeadsTo(r, q) && q.Last() == WithCall(r.Last(), c, pc)
  {
    q := Then(cfg, r, Advance(c, id, key));
  }

  // --- Into the window of an issue call ---------------------------------------

  // A call for u would miss the cache and find the user allowed.
  predicate WouldMiss(sh: Shared, u: string) {
    LiveEntry(sh.cache, u, sh.clock).None? && RequireAllowedUser(sh.users, u).Ok? && sh.users[u].id == u
  }

  // Where such a call stands after its ledger read.
  function AfterLedgerRead(sh: Shared, u: string): IssuePc
    requires u in sh.users
  {
    match GetActiveKeyForUser(sh.ledger, u)
    case Some(k) => PutFound(u, sh.clock, k)
    case None => SaveNew(u, sh.clock, sh.users[u])
  }

  lemma EnterWindow(cfg: Config, r: Run, c: nat, u: string, id: string, key: string) returns (q: Run)
    requires Reachable(cfg, r) && c !in r.Last().calls && WouldMiss(r.Last().sh, u)
    requires FreshChoice(cfg.vault, r.Last().sh.ledger, id, key)
    ensures Reachable(cfg, q) && LeadsTo(r, q)
    ensures q.Last() == WithCall(r.Last(), c, IssueCall(AfterLedgerRead(r.Last().sh, u)))
  {
    var s := r.Last();
    var now := s.sh.clock;
    q := Then(cfg, r, Spawn(c, IssueCall(IssueStart(u))));
    assert q.Last() == WithCall(s, c, IssueCall(IssueStart(u)));
    q := Move(cfg, q, c, IssueCall(ReadCache(u, now)), id, key);
    assert q.Last() == WithCall(s, c, IssueCall(ReadCache(u, now)));
    q := Move(cfg, q, c, IssueCall(ReadUser(u, now)), id, key);
    assert q.Last() == WithCall(s, c, IssueCall(ReadUser(u, now)));
    q := Move(cfg, q, c, IssueCall(ReadLedger(u, now, s.sh.users[u])), id, key);
    assert q.Last() == WithCall(s, c, IssueCall(ReadLedger(u, now, s.sh.users[u])));
    q := Move(cfg, q, c, IssueCall(AfterLedgerRead(s.sh, u)), id, key);
    assert q.Last() == WithCall(s, c, IssueCall(AfterLedgerRead(s.sh, u)));
  }

  // --- A revoke from start to end ---------------------------------------------

  lemma FreshAfterVersion(v: Vault, l: Ledger, r: KeyRecord, id: string, key: string)
    requires FreshChoice(v, l, id, key) && KeySafety.Holds(l, r)
    ensures FreshChoice(v, SaveKey(l, r), id, key)
  {
    GetAfterSave(l, r, id);
    var k := IndexOf(l, r.id);
    assert l[k] in l;
    forall x | x in SaveKey(l, r) ensures x.keyHash != v.hash(key) {
      assert x == r || x in l;
    }
  }

  function Revoked(s: System, c: nat, k: KeyRecord): System {
    System(s.sh.(ledger := SaveKey(s.sh.ledger, RevokedCopy(k, s.sh.clock)), cache := DropEntry(s.sh.cache, k.userId)),
           s.calls[c := AdminCall(AdminDone(true))])
  }

  // Up to the save.
  lemma RevokeSaves(cfg: Config, r: Run, c: nat, k: KeyRecord, id: string, key: string) returns (q: Run)
    requires Reachable(cfg, r) && c !in r.Last().calls && GetKey(r.Last().sh.ledger, k.id) == Some(k)
    requires FreshChoice(cfg.vault, r.Last().sh.ledger, id, key)
    ensures Reachable(cfg, q) && LeadsTo(r, q)
    ensures var copy := RevokedCopy(k, r.Last().sh.clock);
      q.Last() == System(r.Last().sh.(ledger := SaveKey(r.Last().sh.ledger, copy)),
                         r.Last().calls[c := AdminCall(Invalidate(RevokeKind, copy))])
  {
    var s := r.Last();
    var copy := RevokedCopy(k, s.sh.clock);
    q := Then(cfg, r, Spawn(c, AdminCall(AdminStart(RevokeKind, k.id))));
    assert q.Last() == WithCall(s, c, AdminCall(AdminStart(RevokeKind, k.id)));
    q := Move(cfg, q, c, AdminCall(ReadRevokeClock(k)), id, key);
    assert q.Last() == WithCall(s, c, AdminCall(ReadRevokeClock(k)));
    q := Move(cfg, q, c, AdminCall(SaveInactive(RevokeKind, copy)), id, key);
    assert q.Last() == WithCall(s, c, AdminCall(SaveInactive(RevokeKind, copy)));
    q := Then(cfg, q, Advance(c, id, key));
    assert q.Last().calls == s.calls[c := AdminCall(Invalidate(RevokeKind, copy))];
  }

  lemma RevokeRuns(cfg: Config, r: Run, c: nat, k: KeyRecord, id: string, key: string) returns (q: Run)
    requires Reachable(cfg, r) && c !in r.Last().calls && GetKey(r.Last().sh.ledger, k.id) == Some(k)
    requires FreshChoice(cfg.vault, r.Last().sh.ledger, id, key)
    ensures Reachable(cfg, q) && LeadsTo(r, q) && q.Last() == Revoked(r.Last(), c, k)
  {
    var s := r.Last();
    q := RevokeSaves(cfg, r, c, k, id, key);
    FreshAfterVersion(cfg.vault, s.sh.ledger, RevokedCopy(k, s.sh.clock), id, key);
    q := Then(cfg, q, Advance(c, id, key));
    assert q.Last().calls == Revoked(s, c, k).calls;
  }

  // --- An overtaken revoke ----------------------------------------------------

  // Call c has been served k from the cache.
  predicate ServedFromCache(cfg: Config, s: System, c: nat, u: string, k: KeyRecord) {
    c in s.calls && s.calls[c].IssueCall? && s.calls[c].issue.IssueDone? &&
    s.calls[c].issue.out == Ok(CachedResult(cfg, u, EntryFor(cfg, k, s.calls[c].issue.now)))
  }

  lemma EntryLives(cfg: Config, k: KeyRecord, now: Instant, items: CacheItems)
    requires k.status == Active && cfg.CacheTtl() >= SECOND
    ensures LiveEntry(PutEntry(items, EntryFor(cfg, k, now)), k.userId, now) == Some(EntryFor(cfg, k, now))
  {
    assert (now + cfg.CacheTtl()) / SECOND >= (now + SECOND) / SECOND == now / SECOND + 1;
  }

  // The put of the overtaken call, and a later call that it serves.
  lemma ServeOvertaken(cfg: Config, r: Run, c: nat, later: nat, u: string, k: KeyRecord, id: string, key: string)
    returns (q: Run)
    requires Reachable(cfg, r) && c in r.Last().calls && later !in r.Last().calls && cfg.CacheTtl() >= SECOND
    requires r.Last().calls[c] == IssueCall(PutFound(u, r.Last().sh.clock, k)) && k.userId == u && k.status == Active
    requires FreshChoice(cfg.vault, r.Last().sh.ledger, id, key)
    ensures Reachable(cfg, q) && LeadsTo(r, q)
    ensures q.Last().sh.ledger == r.Last().sh.ledger && u in q.Last().sh.cache && q.Last().sh.cache[u].keyId == k.id
    ensures ServedFromCache(cfg, q.Last(), later, u, k)
  {
    var now := r.Last().sh.clock;
    EntryLives(cfg, k, now, r.Last().sh.cache);
    q := Then(cfg, r, Advance(c, id, key));
    var s := q.Last();
    assert s.sh == r.Last().sh.(cache := PutEntry(r.Last().sh.cache, EntryFor(cfg, k, now)));
    q := Then(cfg, q, Spawn(later, IssueCall(IssueStart(u))));
    q := Move(cfg, q, later, IssueCall(ReadCache(u, now)), id, key);
    q := Move(cfg, q, later, IssueCall(IssueDone(u, now, Ok(CachedResult(cfg, u, EntryFor(cfg, k, now))))), id, key);
    assert q.Last().sh == s.sh;
  }

  // Every run that has come to a state where a call for u would miss the cache and find an active key can go on so that
  // the key is revoked, cached all the same, and served.
  lemma RevokeCanBeOvertaken(cfg: Config, r: Run, u: string, c0: nat, c1: nat, c2: nat, id: string, key: string)
    returns (q: Run)
    requires Reachable(cfg, r) && WouldMiss(r.Last().sh, u) && GetActiveKeyForUser(r.Last().sh.ledger, u).Some?
    requires c0 !in r.Last().calls && c1 !in r.Last().calls && c2 !in r.Last().calls && c0 != c1 && c1 != c2 && c0 != c2
    requires FreshChoice(cfg.vault, r.Last().sh.ledger, id, key) && cfg.CacheTtl() >= SECOND
    ensures Reachable(cfg, q) && LeadsTo(r, q)
    ensures var k := GetActiveKeyForUser(r.Last().sh.ledger, u).value;
      && Inactive(q.Last().sh.ledger, k.id) && Stale(q.Last().sh, u)
      && ServedFromCache(cfg, q.Last(), c2, u, k)
  {
    var s := r.Last();
    var k := GetActiveKeyForUser(s.sh.ledger, u).value;
    RunOk(cfg, r.states, r.acts, |r.states| - 1);
    GetKeyOfMember(s.sh.ledger, k);
    q := EnterWindow(cfg, r, c0, u, id, key);
    q := RevokeRuns(cfg, q, c1, k, id, key);
    FreshAfterVersion(cfg.vault, s.sh.ledger, RevokedCopy(k, s.sh.clock), id, key);
    GetAfterSave(s.sh.ledger, RevokedCopy(k, s.sh.clock), k.id);
    q := ServeOvertaken(cfg, q, c0, c2, u, k, id, key);
  }

  // --- Duplicates -------------------------------------------------------------

  // Every run that has come to a state where a call for u would miss the cache and find no active key can go on so that
  // u has two.
  lemma ConcurrentIssueDuplicates(cfg: Config, r: Run, u: string, c0: nat, c1: nat,
                                  id0: string, key0: string, id1: string, key1: string) returns (q: Run)
    requires Reachable(cfg, r) && WouldMiss(r.Last().sh, u) && GetActiveKeyForUser(r.Last().sh.ledger, u).None?
    requires c0 !in r.Last().calls && c1 !in r.Last().calls && c0 != c1
    requires FreshChoice(cfg.vault, r.Last().sh.ledger, id0, key0) && id0 != id1
    requires FreshChoice(cfg.vault, r.Last().sh.ledger, id1, key1) && key0 != key1
    ensures Reachable(cfg, q) && LeadsTo(r, q) && ActiveCount(q.Last().sh.ledger, u) == 2
  {
    var s := r.Last();
    var l, now := s.sh.ledger, s.sh.clock;
    var k0, k1 := NewRecord(cfg.vault, u, id0, key0, now), NewRecord(cfg.vault, u, id1, key1, now);
    q := EnterWindow(cfg, r, c0, u, id0, key0);
    q := EnterWindow(cfg, q, c1, u, id0, key0);
    q := Then(cfg, q, Advance(c0, id0, key0));
    assert q.Last().sh.ledger == SaveKey(l, k0);
    SecondIsFresh(cfg.vault, l, k0, id1, key1, key0);
    q := Then(cfg, q, Advance(c1, id1, key1));
    assert q.Last().sh.ledger == SaveKey(SaveKey(l, k0), k1);
    TwoActive(l, k0, k1);
  }

  lemma TwoActive(l: Ledger, k0: KeyRecord, k1: KeyRecord)
    requires GetActiveKeyForUser(l, k0.userId).None? && k1.userId == k0.userId
    requires GetKey(l, k0.id).None? && GetKey(l, k1.id).None? && k0.id != k1.id
    requires k0.status == Active && k1.status == Active
    ensures ActiveCount(SaveKey(SaveKey(l, k0), k1), k0.userId) == 2
  {
    GetAfterSave(l, k0, k1.id);
    SaveNewActive(l, k0);
    SaveNewActive(SaveKey(l, k0), k1);
    assert ActiveKeys(l, k0.userId) == [];
  }

  lemma SecondIsFresh(v: Vault, l: Ledger, k: KeyRecord, id: string, key: string, other: string)
    requires Sound(v) && FreshChoice(v, l, id, key) && GetKey(l, k.id).None? && k.id != id
    requires k.keyHash == v.hash(other) && other != key
    ensures FreshChoice(v, SaveKey(l, k), id, key)
  {
    GetAfterSave(l, k, id);
    assert SaveKey(l, k) == l + [k];
  }

  // --- From a fresh system ----------------------------------------------------

  const ALICE := User("u", "u@example.com", [], None, true, true)

  function Fresh(l: Ledger): System { System(Shared(0, l, map[], map["u" := ALICE], map[]), map[]) }

  lemma FreshRun(cfg: Config, l: Ledger) returns (r: Run)
    requires Sound(cfg.vault) && LedgerOk(cfg.vault, l)
    ensures Reachable(cfg, r) && r.states == [Fresh(l)] && WouldMiss(r.Last().sh, "u")
  {
    r := Run([Fresh(l)], []);
  }

  lemma FreshFor(v: Vault, l: Ledger, id: string, key: string)
    requires Sound(v) && WellFormedKey(key) && forall r | r in l :: r.id != id && r.keyHash != v.hash(key)
    ensures FreshChoice(v, l, id, key)
  {
  }

  // With a user who has one key, there is a run from a fresh system that serves it after its revocation.
  lemma OvertakenRun(cfg: Config) returns (q: Run)
    requires Sound(cfg.vault) && cfg.CacheTtl() >= SECOND
    ensures Reachable(cfg, q) && Stale(q.Last().sh, "u")
  {
    var k := NewRecord(cfg.vault, "u", "k", "vk_a", 0);
    assert "vk_b"[3] != "vk_a"[3];
    var r := FreshRun(cfg, [k]);
    assert [k][1..] == [];
    assert ActiveKeys([k], "u") == [k];
    FreshFor(cfg.vault, [k], "n", "vk_b");
    q := RevokeCanBeOvertaken(cfg, r, "u", 0, 1, 2, "n", "vk_b");
  }

  // With a user who has none, there is a run from a fresh system that leaves two.
  lemma DuplicateRun(cfg: Config) returns (q: Run)
    requires Sound(cfg.vault)
    ensures Reachable(cfg, q)
    ensures ActiveCount(q.states[0].sh.ledger, "u") == 0 && ActiveCount(q.Last().sh.ledger, "u") == 2
  {
    var r := FreshRun(cfg, []);
    assert "vk_b"[3] != "vk_a"[3];
    FreshFor(cfg.vault, [], "k", "vk_a");
    FreshFor(cfg.vault, [], "n", "vk_b");
    q := ConcurrentIssueDuplicates(cfg, r, "u", 0, 1, "k", "vk_a", "n", "vk_b");
    assert q.states[0] == r.states[0] == Fresh([]) && ActiveKeys([], "u") == [];
  }
}
