// What each operation of the key service gives back and leaves in its stores, field by field.
module KeyMeaning {
  import opened Wrappers
  import opened KeyLedger
  import opened ProxyAuth
  import opened IssueService
  import opened KeyProtocol

  // --- Time -------------------------------------------------------------------

  // The second in which a point in time lies.
  predicate IsSecondOf(s: int, t: Instant) { s * 1_000_000 <= t < (s + 1) * 1_000_000 }

  // An active entry that has not expired to the microsecond.
  predicate IsServed(items: CacheItems, u: string, now: Instant) {
    u in items && items[u].status == Active && now < items[u].ttl * 1_000_000
  }

  lemma ServedExactly(items: CacheItems, u: string, now: Instant)
    ensures LiveEntry(items, u, now).Some? <==> IsServed(items, u, now)
    ensures LiveEntry(items, u, now).Some? ==> LiveEntry(items, u, now).value == items[u]
    ensures IsSecondOf(EpochSeconds(now), now)
  {
  }

  // --- Records and entries ----------------------------------------------------

  // At most the first twelve characters of the key.
  predicate IsKeyPrefix(prefix: string, key: string) {
    prefix <= key && |prefix| == (if |key| < 12 then |key| else 12)
  }

  predicate RecordSays(v: Vault, u: string, id: string, key: string, now: Instant, r: KeyRecord) {
    && r.id == id && r.userId == u && r.status == Active
    && r.keyHash == v.hash(key) && r.blob == v.encrypt(key) && IsKeyPrefix(r.prefix, key)
    && r.createdAt == now && r.expiresAt == None && r.revokedAt == None
  }

  predicate EntrySays(cfg: Config, r: KeyRecord, now: Instant, e: CacheEntry) {
    && e.userId == r.userId && e.keyId == r.id && e.keyRef == r.blob && e.prefix == r.prefix && e.status == r.status
    && IsSecondOf(e.ttl, now + cfg.CacheTtl())
  }

  // --- get_or_create ----------------------------------------------------------

  predicate ResultSays(res: TokenIssueResult, key: string, u: string, id: string, prefix: string, status: KeyStatus) {
    res.virtualKey == key && res.userId == u && res.keyId == id && res.keyPrefix == prefix && res.status == status
  }

  // Served from the cache: nothing changes.
  predicate SaysCached(cfg: Config, s: KeyState, u: string, s': KeyState, out: IssueOutcome)
    requires u in s.cache
  {
    var e := s.cache[u];
    && s' == s && out.Ok? && out.value.source == FromCache && out.value.expiresAt == None
    && ResultSays(out.value, cfg.vault.decrypt(e.keyRef), u, e.keyId, e.prefix, e.status)
  }

  // The newest active key again, and in the cache.
  predicate SaysReused(cfg: Config, s: KeyState, user: User, now: Instant, r: KeyRecord, s': KeyState,
                       out: IssueOutcome)
  {
    && s'.ledger == s.ledger && s'.users == s.users
    && r.userId in s'.cache && EntrySays(cfg, r, now, s'.cache[r.userId])
    && s'.cache == s.cache[r.userId := s'.cache[r.userId]]
    && out.Ok? && out.value.source == Reused && out.value.expiresAt == r.expiresAt
    && ResultSays(out.value, cfg.vault.decrypt(r.blob), user.id, r.id, r.prefix, r.status)
  }

  // A new key, in the ledger under its id and in the cache.
  ghost predicate SaysIssued(cfg: Config, s: KeyState, user: User, now: Instant, id: string, key: string, s': KeyState,
                             out: IssueOutcome)
  {
    && s'.users == s.users
    && GetKey(s'.ledger, id).Some? && RecordSays(cfg.vault, user.id, id, key, now, GetKey(s'.ledger, id).value)
    && (forall x | x != id :: GetKey(s'.ledger, x) == GetKey(s.ledger, x))
    && user.id in s'.cache && EntrySays(cfg, GetKey(s'.ledger, id).value, now, s'.cache[user.id])
    && s'.cache == s.cache[user.id := s'.cache[user.id]]
    && out.Ok? && out.value.source == Issued && out.value.expiresAt == None
    && ResultSays(out.value, key, user.id, id, GetKey(s'.ledger, id).value.prefix, Active)
  }

  // Cache, user, ledger, in this order.
  lemma IssueSays(cfg: Config, s: KeyState, u: string, now: Instant, id: string, key: string)
    ensures var (s', out) := GetOrCreate(cfg, s, u, now, id, key);
      if IsServed(s.cache, u, now) then SaysCached(cfg, s, u, s', out)
      else if u !in s.users then s' == s && out == Err(UserNotRegistered)
      else if !s.users[u].isActive || !s.users[u].proxyAccessEnabled then s' == s && out == Err(AccessDenied)
      else match GetActiveKeyForUser(s.ledger, s.users[u].id)
        case Some(r) => SaysReused(cfg, s, s.users[u], now, r, s', out)
        case None => SaysIssued(cfg, s, s.users[u], now, id, key, s', out)
  {
    ServedExactly(s.cache, u, now);
    if u in s.users && GetActiveKeyForUser(s.ledger, s.users[u].id).None? {
      var r := NewRecord(cfg.vault, s.users[u].id, id, key, now);
      forall x ensures GetKey(SaveKey(s.ledger, r), x) == if x == id then Some(r) else GetKey(s.ledger, x) {
        GetAfterSave(s.ledger, r, x);
      }
    }
  }

  // --- The lifecycle ----------------------------------------------------------

  // A copy of the record with this status and revocation time, in the ledger in its place; nothing left in the cache
  // for its owner; everything else as before.
  ghost predicate SaysDeactivated(s: KeyState, r: KeyRecord, status: KeyStatus, revokedAt: Option<Instant>,
                                  s': KeyState, copy: KeyRecord)
  {
    && copy.status == status && copy.revokedAt == revokedAt
    && copy.(status := r.status, revokedAt := r.revokedAt) == r
    && GetKey(s'.ledger, r.id) == Some(copy)
    && (forall x | x != r.id :: GetKey(s'.ledger, x) == GetKey(s.ledger, x))
    && s'.cache == s.cache - {r.userId} && s'.users == s.users
  }

  lemma DeactivateSays(s: KeyState, r: KeyRecord, copy: KeyRecord)
    requires copy.id == r.id && copy.userId == r.userId
    ensures var s' := Deactivate(s, copy);
      && GetKey(s'.ledger, r.id) == Some(copy)
      && (forall x | x != r.id :: GetKey(s'.ledger, x) == GetKey(s.ledger, x))
      && s'.cache == s.cache - {r.userId} && s'.users == s.users
  {
    forall x ensures GetKey(SaveKey(s.ledger, copy), x) == if x == r.id then Some(copy) else GetKey(s.ledger, x) {
      GetAfterSave(s.ledger, copy, x);
    }
  }

  lemma RevokeSays(s: KeyState, keyId: string, now: Instant)
    ensures var (s', out) := Revoke(s, keyId, now);
      match GetKey(s.ledger, keyId)
      case None => s' == s && out == Err(NotFound)
      case Some(r) => out.Ok? && r.id == keyId && SaysDeactivated(s, r, Revoked, Some(now), s', out.value)
  {
    if GetKey(s.ledger, keyId).Some? {
      var r := GetKey(s.ledger, keyId).value;
      DeactivateSays(s, r, RevokedCopy(r, now));
    }
  }

  lemma DisableSays(s: KeyState, keyId: string)
    ensures var (s', out) := Disable(s, keyId);
      match GetKey(s.ledger, keyId)
      case None => s' == s && out == Err(NotFound)
      case Some(r) => out.Ok? && r.id == keyId && SaysDeactivated(s, r, Disabled, r.revokedAt, s', out.value)
  {
    if GetKey(s.ledger, keyId).Some? {
      var r := GetKey(s.ledger, keyId).value;
      DeactivateSays(s, r, DisabledCopy(r));
    }
  }

  // The old key disabled and out of the cache, and a new active key for the same user beside it.
  lemma RotateSays(v: Vault, s: KeyState, keyId: string, now: Instant, newId: string, newKey: string)
    ensures var (s', out) := Rotate(v, s, keyId, now, newId, newKey);
      match GetKey(s.ledger, keyId)
      case None => s' == s && out == Err(NotFound)
      case Some(r) =>
        && out.Ok? && r.id == keyId
        && GetKey(s'.ledger, newId) == Some(out.value.1) && RecordSays(v, r.userId, newId, newKey, now, out.value.1)
        && (newId != keyId ==> GetKey(s'.ledger, keyId) == Some(out.value.0))
        && out.value.0 == r.(status := Disabled)
        && (forall x | x != keyId && x != newId :: GetKey(s'.ledger, x) == GetKey(s.ledger, x))
        && s'.cache == s.cache - {r.userId} && s'.users == s.users
  {
    if GetKey(s.ledger, keyId).Some? {
      var r := GetKey(s.ledger, keyId).value;
      DeactivateSays(s, r, DisabledCopy(r));
      var l, replacement := Deactivate(s, DisabledCopy(r)).ledger, NewRecord(v, r.userId, newId, newKey, now);
      forall x ensures GetKey(SaveKey(l, replacement), x) == if x == newId then Some(replacement) else GetKey(l, x) {
        GetAfterSave(l, replacement, x);
      }
    }
  }

  // --- Authentication ---------------------------------------------------------

  predicate AllSpace(s: string) { forall i | 0 <= i < |s| :: IsSpace(s[i]) }

  // "Bearer", a space, and a key with the prefix and without trailing white space, white space around it aside.
  ghost predicate Carries(header: Option<string>, key: string) {
    header.Some? && "vk_" <= key && !IsSpace(key[|key|-1]) && exists l, r :: PaddedWith(header.value, l, key, r)
  }

  predicate PaddedWith(header: string, l: string, key: string, r: string) {
    AllSpace(l) && AllSpace(r) && header == "Bearer " + (l + key + r)
  }

  lemma {:induction false} StripLeftSplits(s: string)
    ensures exists l :: AllSpace(l) && s == l + StripLeft(s)
  {
    if s != [] && IsSpace(s[0]) {
      StripLeftSplits(s[1..]);
      var l :| AllSpace(l) && s[1..] == l + StripLeft(s[1..]);
      assert s == ([s[0]] + l) + StripLeft(s);
    } else {
      assert s == [] + StripLeft(s) && AllSpace([]);
    }
  }

  lemma {:induction false} StripRightSplits(s: string)
    ensures exists r :: AllSpace(r) && s == StripRight(s) + r
  {
    if s != [] && IsSpace(s[|s|-1]) {
      var init := s[..|s|-1];
      StripRightSplits(init);
      var r :| AllSpace(r) && init == StripRight(init) + r;
      assert s == StripRight(s) + (r + [s[|s|-1]]);
    } else {
      assert s == StripRight(s) + [] && AllSpace([]);
    }
  }

  lemma {:induction false} StripLeftDrops(l: string, s: string)
    requires AllSpace(l) && s != [] && !IsSpace(s[0])
    ensures StripLeft(l + s) == s
  {
    if l == [] {
      assert l + s == s;
    } else {
      assert (l + s)[1..] == l[1..] + s;
      StripLeftDrops(l[1..], s);
    }
  }

  lemma {:induction false} StripRightDrops(s: string, r: string)
    requires AllSpace(r) && s != [] && !IsSpace(s[|s|-1])
    ensures StripRight(s + r) == s
  {
    if r == [] {
      assert s + r == s;
    } else {
      assert (s + r)[..|s + r|-1] == s + r[..|r|-1];
      StripRightDrops(s, r[..|r|-1]);
    }
  }

  lemma StripDrops(l: string, key: string, r: string)
    requires AllSpace(l) && AllSpace(r) && key != [] && !IsSpace(key[0]) && !IsSpace(key[|key|-1])
    ensures Strip(l + key + r) == key
  {
    assert l + key + r == l + (key + r);
    StripLeftDrops(l, key + r);
    StripRightDrops(key, r);
  }

  lemma StripSplits(s: string)
    ensures exists l, r :: AllSpace(l) && AllSpace(r) && s == l + Strip(s) + r
  {
    StripLeftSplits(s);
    StripRightSplits(StripLeft(s));
    var l :| AllSpace(l) && s == l + StripLeft(s);
    var r :| AllSpace(r) && StripLeft(s) == Strip(s) + r;
    assert s == l + Strip(s) + r;
  }

  lemma {:induction false} PartitionSplits(s: string)
    ensures var (a, found, b) := Partition(s); ' ' !in a && (if found then s == a + " " + b else a == s)
  {
    if s != [] && s[0] != ' ' {
      PartitionSplits(s[1..]);
      assert s == [s[0]] + s[1..];
    } else if s != [] {
      assert s == [] + " " + s[1..];
    }
  }

  lemma {:induction false} StripOfSpace(s: string)
    ensures Strip(s) == [] <==> AllSpace(s)
  {
    StripSplits(s);
    var l, r :| AllSpace(l) && AllSpace(r) && s == l + Strip(s) + r;
    StripShape(s);
    if Strip(s) != [] { assert s[|l|] == Strip(s)[0]; }
  }

  // A header is read as a key exactly if it carries that key; it counts as missing exactly if there is nothing in it.
  lemma ExtractExactly(header: Option<string>, key: string)
    ensures ExtractVirtualKey(header) == Ok(key) <==> Carries(header, key)
    ensures ExtractVirtualKey(header) == Err(MissingBearer) <==> header.None? || AllSpace(header.value)
  {
    if header.Some? { StripOfSpace(header.value); }
    if ExtractVirtualKey(header) == Ok(key) { ExtractedIsCarried(header, key); }
    if Carries(header, key) { CarriedIsExtracted(header, key); }
  }

  lemma ExtractedIsCarried(header: Option<string>, key: string)
    requires ExtractVirtualKey(header) == Ok(key)
    ensures Carries(header, key)
  {
    var (scheme, found, token) := Partition(header.value);
    PartitionSplits(header.value);
    StripSplits(token);
    var l, r :| AllSpace(l) && AllSpace(r) && token == l + Strip(token) + r;
    ExtractedKeyIsWellFormed(header);
    assert "Bearer" + " " == "Bearer ";
    assert PaddedWith(header.value, l, key, r);
  }

  lemma CarriedIsExtracted(header: Option<string>, key: string)
    requires Carries(header, key)
    ensures ExtractVirtualKey(header) == Ok(key)
  {
    var l, r :| PaddedWith(header.value, l, key, r);
    var token := l + key + r;
    assert header.value == "Bearer" + " " + token;
    PartitionAt("Bearer", token);
    StripDrops(l, key, r);
    StripOfSpace(header.value);
    assert !IsSpace(header.value[0]);
  }

  // The first thing that is wrong decides; otherwise the context is that of the record and its user.
  lemma AuthSays(v: Vault, l: Ledger, users: Users, header: Option<string>)
    ensures var auth := Authenticate(v, l, users, header);
      match ExtractVirtualKey(header)
      case Err(reason) => auth == Err(reason)
      case Ok(key) =>
        match GetKeyByHash(l, v.hash(key))
        case None => auth == Err(UnknownKey)
        case Some(r) =>
          if r.status != Active then auth == Err(InactiveKey)
          else if r.userId !in users then auth == Err(OrphanedKey)
          else
            && auth.Ok? && auth.value.user == users[r.userId] && auth.value.keyId == r.id
            && auth.value.keyHash == r.keyHash && auth.value.prefix == r.prefix
  {
  }

  // An undisturbed authentication is the atomic one.
  lemma SoloAuthIsAtomic(cfg: Config, sh: Shared, header: Option<string>)
    ensures AuthStep(cfg, sh, AuthStep(cfg, sh, AuthStart(header))) ==
            AuthDone(Authenticate(cfg.vault, sh.ledger, sh.users, header))
  {
  }
}
