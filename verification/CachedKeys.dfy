// Over atomic operations, the key service with its cache is indistinguishable
// from the same service without one; and how many active keys a user can have.
module CachedKeys {
  import opened Wrappers
  import opened KeyLedger
  import opened IssueService

  datatype Op =
    | GetOrCreateOp(u: string, now: Instant, id: string, key: string)
    | RevokeOp(keyId: string, now: Instant)
    | DisableOp(keyId: string)
    | RotateOp(keyId: string, now: Instant, newId: string, newKey: string)
    | InvalidateOp(u: string)
    | PutUserOp(user: User)

  datatype Reply =
    | IssueReply(outcome: IssueOutcome)
    | KeyReply(record: Result<KeyRecord, NotFound>)
    | RotateReply(records: Result<(KeyRecord, KeyRecord), NotFound>)
    | NoReply

  function Exec(cfg: Config, s: KeyState, op: Op): (KeyState, Reply) {
    match op
    case GetOrCreateOp(u, now, id, key) => var (s', out) := GetOrCreate(cfg, s, u, now, id, key); (s', IssueReply(out))
    case RevokeOp(keyId, now) => var (s', out) := Revoke(s, keyId, now); (s', KeyReply(out))
    case DisableOp(keyId) => var (s', out) := Disable(s, keyId); (s', KeyReply(out))
    case RotateOp(keyId, now, newId, newKey) =>
      var (s', out) := Rotate(cfg.vault, s, keyId, now, newId, newKey); (s', RotateReply(out))
    case InvalidateOp(u) => (s.(cache := DropEntry(s.cache, u)), NoReply)
    case PutUserOp(user) => (s.(users := s.users[user.id := user]), NoReply)
  }

  // The service without a cache: it forgets every entry as soon as it is written.
  function Plain(s: KeyState): KeyState { s.(cache := map[]) }

  function ExecPlain(cfg: Config, s: KeyState, op: Op): (KeyState, Reply) {
    var (s', reply) := Exec(cfg, Plain(s), op);
    (Plain(s'), reply)
  }

  // What a caller of the service can use of a reply: everything but the
  // provenance marker and the expiry, which only a reused key carries.
  function Visible(reply: Reply): Reply {
    if reply.IssueReply? && reply.outcome.Ok?
    then IssueReply(Ok(reply.outcome.value.(source := FromCache, expiresAt := None)))
    else reply
  }

  function After(cfg: Config, s: KeyState, ops: seq<Op>): KeyState {
    if ops == [] then s else Exec(cfg, After(cfg, s, ops[..|ops|-1]), ops[|ops|-1]).0
  }

  function AfterPlain(cfg: Config, s: KeyState, ops: seq<Op>): KeyState {
    if ops == [] then Plain(s) else ExecPlain(cfg, AfterPlain(cfg, s, ops[..|ops|-1]), ops[|ops|-1]).0
  }

  // Generated ids are not in use.
  predicate Fresh(s: KeyState, op: Op) {
    match op
    case GetOrCreateOp(_, _, id, _) => GetKey(s.ledger, id).None?
    case RotateOp(_, _, newId, _) => GetKey(s.ledger, newId).None?
    case _ => true
  }

  ghost predicate FreshRun(cfg: Config, s: KeyState, ops: seq<Op>) {
    forall i | 0 <= i < |ops| :: Fresh(After(cfg, s, ops[..i]), ops[i])
  }

  // An entry says what the ledger would say if asked now.
  predicate Mirrors(e: CacheEntry, u: string, l: Ledger) {
    var r := GetActiveKeyForUser(l, u);
    && r.Some?
    && e.userId == u && e.status == Active
    && e.keyId == r.value.id && e.keyRef == r.value.blob && e.prefix == r.value.prefix
  }

  ghost predicate Coherent(s: KeyState) {
    && (forall u | u in s.cache :: Mirrors(s.cache[u], u, s.ledger))
    && (forall u | u in s.users :: s.users[u].id == u)
  }

  // A cache hit for a user the ledger path would turn away.
  predicate ServesDenied(s: KeyState, op: Op) {
    && op.GetOrCreateOp?
    && LiveEntry(s.cache, op.u, op.now).Some?
    && RequireAllowedUser(s.users, op.u).Err?
  }

  lemma SavePreservesMirrors(s: KeyState, r: KeyRecord, u: string)
    requires u in s.cache && Mirrors(s.cache[u], u, s.ledger) && u != r.userId
    requires GetKey(s.ledger, r.id).Some? ==> GetKey(s.ledger, r.id).value.userId == r.userId
    ensures Mirrors(s.cache[u], u, SaveKey(s.ledger, r))
  {
    SaveFrame(s.ledger, r, u);
  }

  lemma DeactivateCoherent(s: KeyState, r: KeyRecord)
    requires Coherent(s)
    requires GetKey(s.ledger, r.id).Some? && GetKey(s.ledger, r.id).value.userId == r.userId
    ensures Coherent(Deactivate(s, r))
  {
    forall u | u in s.cache && u != r.userId ensures Mirrors(s.cache[u], u, SaveKey(s.ledger, r)) {
      SavePreservesMirrors(s, r, u);
    }
  }

  lemma IssueMirrors(cfg: Config, l: Ledger, r: KeyRecord, now: Instant)
    requires GetKey(l, r.id).None? && r.status == Active && GetActiveKeyForUser(l, r.userId).None?
    ensures Mirrors(EntryFor(cfg, r, now), r.userId, SaveKey(l, r))
  {
    SaveNewActive(l, r);
    assert ActiveKeys(l, r.userId) + [r] == [r];
  }

  // A fresh record saved for a user who has no active key becomes that user's entry.
  lemma IssueCoherent(cfg: Config, s: KeyState, r: KeyRecord, now: Instant)
    requires Coherent(s) && GetKey(s.ledger, r.id).None? && r.status == Active
    requires GetActiveKeyForUser(s.ledger, r.userId).None?
    ensures Coherent(s.(ledger := SaveKey(s.ledger, r), cache := PutEntry(s.cache, EntryFor(cfg, r, now))))
  {
    IssueMirrors(cfg, s.ledger, r, now);
    var cache := PutEntry(s.cache, EntryFor(cfg, r, now));
    forall v | v in cache ensures Mirrors(cache[v], v, SaveKey(s.ledger, r)) {
      if v != r.userId { SavePreservesMirrors(s, r, v); }
    }
  }

  // Caching the key the ledger path found.
  lemma ReuseCoherent(cfg: Config, s: KeyState, u: string, r: KeyRecord, now: Instant)
    requires Coherent(s) && GetActiveKeyForUser(s.ledger, u) == Some(r)
    ensures Coherent(s.(cache := PutEntry(s.cache, EntryFor(cfg, r, now))))
  {
    var cache := PutEntry(s.cache, EntryFor(cfg, r, now));
    forall v | v in cache ensures Mirrors(cache[v], v, s.ledger) {
      if v == u { assert Mirrors(EntryFor(cfg, r, now), u, s.ledger); }
    }
  }

  lemma GetOrCreateCoherent(cfg: Config, s: KeyState, u: string, now: Instant, id: string, key: string)
    requires Coherent(s) && GetKey(s.ledger, id).None?
    ensures Coherent(GetOrCreate(cfg, s, u, now, id, key).0)
  {
    if LiveEntry(s.cache, u, now).None? && RequireAllowedUser(s.users, u).Ok? {
      var existing := GetActiveKeyForUser(s.ledger, u);
      if existing.Some? {
        ReuseCoherent(cfg, s, u, existing.value, now);
      } else {
        IssueCoherent(cfg, s, NewRecord(cfg.vault, u, id, key, now), now);
      }
    }
  }

  lemma RotateCoherent(cfg: Config, s: KeyState, keyId: string, now: Instant, newId: string, newKey: string)
    requires Coherent(s) && GetKey(s.ledger, newId).None?
    ensures Coherent(Rotate(cfg.vault, s, keyId, now, newId, newKey).0)
  {
    if GetKey(s.ledger, keyId).Some? {
      var rotated := GetKey(s.ledger, keyId).value;
      var disabled := DisabledCopy(rotated);
      DeactivateCoherent(s, disabled);
      var s1 := Deactivate(s, disabled);
      var r := NewRecord(cfg.vault, rotated.userId, newId, newKey, now);
      GetAfterSave(s.ledger, disabled, newId);
      forall u | u in s1.cache ensures Mirrors(s1.cache[u], u, SaveKey(s1.ledger, r)) {
        SavePreservesMirrors(s1, r, u);
      }
    }
  }

  // Every operation keeps the cache coherent, whether or not entries have expired.
  lemma ExecCoherent(cfg: Config, s: KeyState, op: Op)
    requires Coherent(s) && Fresh(s, op)
    ensures Coherent(Exec(cfg, s, op).0)
  {
    match op
    case GetOrCreateOp(u, now, id, key) => GetOrCreateCoherent(cfg, s, u, now, id, key);
    case RotateOp(keyId, now, newId, newKey) => RotateCoherent(cfg, s, keyId, now, newId, newKey);
    case RevokeOp(keyId, now) =>
      if GetKey(s.ledger, keyId).Some? { DeactivateCoherent(s, RevokedCopy(GetKey(s.ledger, keyId).value, now)); }
    case DisableOp(keyId) =>
      if GetKey(s.ledger, keyId).Some? { DeactivateCoherent(s, DisabledCopy(GetKey(s.ledger, keyId).value)); }
    case InvalidateOp(_) =>
    case PutUserOp(_) =>
  }

  lemma MissAgrees(cfg: Config, s: KeyState, u: string, now: Instant, id: string, key: string)
    requires LiveEntry(s.cache, u, now).None?
    ensures var (withCache, out) := GetOrCreate(cfg, s, u, now, id, key);
            var (without, plainOut) := GetOrCreate(cfg, Plain(s), u, now, id, key);
            Plain(withCache) == Plain(without) && out == plainOut
  {
    assert LiveEntry(Plain(s).cache, u, now).None?;
  }

  // Asked without a cache, the service reuses the ledger's active key of an allowed user.
  lemma PlainReuses(cfg: Config, s: KeyState, u: string, now: Instant, id: string, key: string, r: KeyRecord)
    requires s.cache == map[] && RequireAllowedUser(s.users, u).Ok? && s.users[u].id == u
    requires GetActiveKeyForUser(s.ledger, u) == Some(r)
    ensures Plain(GetOrCreate(cfg, s, u, now, id, key).0) == s
    ensures GetOrCreate(cfg, s, u, now, id, key).1 == Ok(ReusedResult(cfg, u, r))
  {}

  lemma HitReplies(cfg: Config, e: CacheEntry, u: string, r: KeyRecord)
    requires e.status == r.status && e.keyId == r.id && e.keyRef == r.blob && e.prefix == r.prefix
    ensures Visible(IssueReply(Ok(ReusedResult(cfg, u, r)))) == Visible(IssueReply(Ok(CachedResult(cfg, u, e))))
  {}

  // A hit is answered from the entry, and the state stays.
  lemma HitOutcome(cfg: Config, s: KeyState, u: string, now: Instant, id: string, key: string)
    requires LiveEntry(s.cache, u, now).Some?
    ensures GetOrCreate(cfg, s, u, now, id, key) == (s, Ok(CachedResult(cfg, u, s.cache[u])))
  {}

  // A user who is not allowed gets nothing without a cache.
  lemma DeniedOutcome(cfg: Config, s: KeyState, u: string, now: Instant, id: string, key: string)
    requires RequireAllowedUser(s.users, u).Err?
    ensures var (s', out) := GetOrCreate(cfg, Plain(s), u, now, id, key); s' == Plain(s) && out.Err?
  {}

  lemma HitAgrees(cfg: Config, s: KeyState, u: string, now: Instant, id: string, key: string)
    requires LiveEntry(s.cache, u, now).Some? && Mirrors(s.cache[u], u, s.ledger)
    requires u in s.users ==> s.users[u].id == u
    ensures Plain(GetOrCreate(cfg, Plain(s), u, now, id, key).0) == Plain(GetOrCreate(cfg, s, u, now, id, key).0)
    ensures Visible(IssueReply(GetOrCreate(cfg, s, u, now, id, key).1)) ==
            Visible(IssueReply(GetOrCreate(cfg, Plain(s), u, now, id, key).1))
            <==> RequireAllowedUser(s.users, u).Ok?
  {
    HitOutcome(cfg, s, u, now, id, key);
    if RequireAllowedUser(s.users, u).Ok? {
      var r := GetActiveKeyForUser(s.ledger, u).value;
      PlainReuses(cfg, Plain(s), u, now, id, key, r);
      HitReplies(cfg, s.cache[u], u, r);
    } else {
      DeniedOutcome(cfg, s, u, now, id, key);
    }
  }

  // One operation on coherent states: same ledger, and the same visible reply
  // unless the cache answers for a user who is no longer allowed.
  lemma ExecAgrees(cfg: Config, s: KeyState, op: Op)
    requires Coherent(s)
    ensures ExecPlain(cfg, Plain(s), op).0 == Plain(Exec(cfg, s, op).0)
    ensures Visible(ExecPlain(cfg, Plain(s), op).1) == Visible(Exec(cfg, s, op).1) <==> !ServesDenied(s, op)
  {
    if op.GetOrCreateOp? {
      if LiveEntry(s.cache, op.u, op.now).None? {
        MissAgrees(cfg, s, op.u, op.now, op.id, op.key);
      } else {
        HitAgrees(cfg, s, op.u, op.now, op.id, op.key);
      }
    }
  }

  lemma {:induction false} RunCoherent(cfg: Config, s: KeyState, ops: seq<Op>)
    requires Coherent(s) && FreshRun(cfg, s, ops)
    ensures Coherent(After(cfg, s, ops))
    ensures AfterPlain(cfg, s, ops) == Plain(After(cfg, s, ops))
  {
    if ops != [] {
      var init := ops[..|ops|-1];
      assert forall i | 0 <= i < |init| :: init[..i] == ops[..i];
      RunCoherent(cfg, s, init);
      ExecCoherent(cfg, After(cfg, s, init), ops[|ops|-1]);
      ExecAgrees(cfg, After(cfg, s, init), ops[|ops|-1]);
    }
  }

  // Over every run of operations from an empty cache, the service with the cache
  // and the service without it keep the same ledger, and their i-th replies show the
  // caller the same thing exactly when the i-th operation does not serve a denied user.
  lemma CachedServiceSimulatesPlain(cfg: Config, s: KeyState, ops: seq<Op>, i: nat)
    requires s.cache == map[] && (forall u | u in s.users :: s.users[u].id == u)
    requires FreshRun(cfg, s, ops) && i < |ops|
    ensures After(cfg, s, ops).ledger == AfterPlain(cfg, s, ops).ledger
    ensures var before, plain := After(cfg, s, ops[..i]), AfterPlain(cfg, s, ops[..i]);
            && before.ledger == plain.ledger
            && (Visible(Exec(cfg, before, ops[i]).1) == Visible(ExecPlain(cfg, plain, ops[i]).1)
                <==> !ServesDenied(before, ops[i]))
  {
    RunCoherent(cfg, s, ops);
    assert forall j | 0 <= j < i :: ops[..i][..j] == ops[..j];
    RunCoherent(cfg, s, ops[..i]);
    ExecAgrees(cfg, After(cfg, s, ops[..i]), ops[i]);
  }

  // A run that does serve a denied user: the key is cached, then access is withdrawn.
  lemma CacheOutlivesDenial(cfg: Config)
    ensures var u := User("u", "u@example.com", [], None, true, true);
            var ops := [GetOrCreateOp("u", 0, "k", "vk_a"), PutUserOp(u.(proxyAccessEnabled := false))];
            var s := KeyState([], map[], map["u" := u]);
            cfg.CacheTtl() >= SECOND ==>
              FreshRun(cfg, s, ops) && ServesDenied(After(cfg, s, ops), GetOrCreateOp("u", 0, "k2", "vk_b"))
  {
    var u := User("u", "u@example.com", [], None, true, true);
    var op0, op1 := GetOrCreateOp("u", 0, "k", "vk_a"), PutUserOp(u.(proxyAccessEnabled := false));
    var s := KeyState([], map[], map["u" := u]);
    var ops := [op0, op1];
    assert ops[..0] == [] && ops[..1] == [op0] && [op0][..0] == [];
    assert After(cfg, s, [op0]) == Exec(cfg, s, op0).0;
    assert After(cfg, s, ops) == Exec(cfg, After(cfg, s, [op0]), op1).0;
  }

  // --- How many active keys -------------------------------------------------

  lemma IssueCount(cfg: Config, s: KeyState, u: string, now: Instant, id: string, key: string, v: string)
    requires GetKey(s.ledger, id).None? && (forall w | w in s.users :: s.users[w].id == w)
    ensures var (s', out) := GetOrCreate(cfg, s, u, now, id, key);
            if out.Ok? && out.value.source == Issued && v == u
            then ActiveCount(s.ledger, v) == 0 && ActiveCount(s'.ledger, v) == 1
            else ActiveCount(s'.ledger, v) == ActiveCount(s.ledger, v)
  {
    var (s', out) := GetOrCreate(cfg, s, u, now, id, key);
    if out.Ok? && out.value.source == Issued {
      var r := NewRecord(cfg.vault, u, id, key, now);
      if v == u { SaveNewActive(s.ledger, r); } else { SaveFrame(s.ledger, r, v); }
    }
  }

  // Deactivating a key takes one from its owner's count if it was active and nothing otherwise.
  lemma DeactivateCount(l: Ledger, r: KeyRecord, v: string)
    requires GetKey(l, r.id).Some? && r.userId == GetKey(l, r.id).value.userId && r.status != Active
    ensures ActiveCount(SaveKey(l, r), v) ==
            ActiveCount(l, v) - (if ActiveFor(v, GetKey(l, r.id).value) then 1 else 0)
  {
    var k := IndexOf(l, r.id);
    ActiveKeysUpdate(l, k, r, v);
    ActiveKeysUpdate(l, k, l[k], v);
    assert l[k := l[k]] == l;
  }

  // Rotation replaces an active key one for one, and adds a key if the rotated one was inactive.
  lemma RotateCount(cfg: Config, s: KeyState, keyId: string, now: Instant, newId: string, newKey: string, v: string)
    requires GetKey(s.ledger, newId).None?
    ensures var r := GetKey(s.ledger, keyId);
            var s' := Rotate(cfg.vault, s, keyId, now, newId, newKey).0;
            ActiveCount(s'.ledger, v) ==
            ActiveCount(s.ledger, v) + (if r.Some? && r.value.userId == v && r.value.status != Active then 1 else 0)
  {
    if GetKey(s.ledger, keyId).Some? {
      var r := GetKey(s.ledger, keyId).value;
      DeactivateCount(s.ledger, DisabledCopy(r), v);
      GetAfterSave(s.ledger, DisabledCopy(r), newId);
      var s1 := Deactivate(s, DisabledCopy(r));
      var replacement := NewRecord(cfg.vault, r.userId, newId, newKey, now);
      if v == r.userId { SaveNewActive(s1.ledger, replacement); } else { SaveFrame(s1.ledger, replacement, v); }
    }
  }

  // A rotation aimed at a key that is not active.
  predicate RotatesInactive(s: KeyState, op: Op) {
    op.RotateOp? && GetKey(s.ledger, op.keyId).Some? && GetKey(s.ledger, op.keyId).value.status != Active
  }

  // If no rotation in the run is aimed at an inactive key, no user ever gains a second active key.
  lemma {:induction false} AtMostOneActiveKey(cfg: Config, s: KeyState, ops: seq<Op>, v: string)
    requires Coherent(s) && FreshRun(cfg, s, ops) && ActiveCount(s.ledger, v) <= 1
    requires forall i | 0 <= i < |ops| :: !RotatesInactive(After(cfg, s, ops[..i]), ops[i])
    ensures ActiveCount(After(cfg, s, ops).ledger, v) <= 1
  {
    if ops != [] {
      var init, op := ops[..|ops|-1], ops[|ops|-1];
      assert forall i | 0 <= i < |init| :: init[..i] == ops[..i];
      AtMostOneActiveKey(cfg, s, init, v);
      RunCoherent(cfg, s, init);
      var t := After(cfg, s, init);
      assert Fresh(t, op) && !RotatesInactive(t, op);
      match op
      case GetOrCreateOp(u, now, id, key) => IssueCount(cfg, t, u, now, id, key, v);
      case RotateOp(keyId, now, newId, newKey) => RotateCount(cfg, t, keyId, now, newId, newKey, v);
      case RevokeOp(keyId, now) =>
        if GetKey(t.ledger, keyId).Some? {
          DeactivateCount(t.ledger, RevokedCopy(GetKey(t.ledger, keyId).value, now), v);
        }
      case DisableOp(keyId) =>
        if GetKey(t.ledger, keyId).Some? { DeactivateCount(t.ledger, DisabledCopy(GetKey(t.ledger, keyId).value), v); }
      case InvalidateOp(_) =>
      case PutUserOp(_) =>
    }
  }
}
