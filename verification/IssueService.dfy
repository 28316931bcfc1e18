// The token issue service and the virtual-key lifecycle service as atomic
// operations: a function on the shared state for each, and the classes that run them.
module IssueService {
  import opened Wrappers
  import opened KeyLedger
  import opened ProxyAuth

  const DEFAULT_CACHE_TTL: int := 900 * SECOND
  const MAX_CACHE_TTL: int := 3600 * SECOND

  function NormalizeCacheTtl(ttl: int): (r: int)
    ensures 0 < r <= 3_600_000_000
    ensures 0 < ttl <= 3_600_000_000 ==> r == ttl
    ensures ttl > 3_600_000_000 ==> r == 3_600_000_000
    ensures ttl <= 0 ==> r == 900_000_000
  {
    if ttl <= 0 then DEFAULT_CACHE_TTL else if ttl < MAX_CACHE_TTL then ttl else MAX_CACHE_TTL
  }

  datatype Config = Config(vault: Vault, requestedTtl: int) {
    function CacheTtl(): int { NormalizeCacheTtl(requestedTtl) }
  }

  type Users = map<string, User>

  datatype KeyState = KeyState(ledger: Ledger, cache: CacheItems, users: Users)

  datatype Source = FromCache | Reused | Issued

  datatype TokenIssueResult = TokenIssueResult(
    virtualKey: string,
    userId: string,
    keyId: string,
    keyPrefix: string,
    status: KeyStatus,
    source: Source,
    expiresAt: Option<Instant>)

  datatype IssueError = UserNotRegistered | AccessDenied

  datatype NotFound = NotFound

  type IssueOutcome = Result<TokenIssueResult, IssueError>

  function EntryFor(cfg: Config, r: KeyRecord, now: Instant): CacheEntry {
    CacheEntry(r.userId, r.id, r.blob, r.prefix, r.status, EpochSeconds(now + cfg.CacheTtl()))
  }

  function CachedResult(cfg: Config, u: string, e: CacheEntry): TokenIssueResult {
    TokenIssueResult(cfg.vault.decrypt(e.keyRef), u, e.keyId, e.prefix, e.status, FromCache, None)
  }

  function ReusedResult(cfg: Config, u: string, r: KeyRecord): TokenIssueResult {
    TokenIssueResult(cfg.vault.decrypt(r.blob), u, r.id, r.prefix, r.status, Reused, r.expiresAt)
  }

  function IssuedResult(u: string, key: string, r: KeyRecord): TokenIssueResult {
    TokenIssueResult(key, u, r.id, r.prefix, r.status, Issued, None)
  }

  function RequireAllowedUser(users: Users, u: string): Result<User, IssueError> {
    if u !in users then Err(UserNotRegistered)
    else if !users[u].proxyAccessEnabled || !users[u].isActive then Err(AccessDenied)
    else Ok(users[u])
  }

  function NewRecord(v: Vault, u: string, id: string, key: string, now: Instant): KeyRecord {
    KeyRecord(id, u, v.hash(key), v.encrypt(key), KeyPrefix(key), Active, now, None, None)
  }

  // get_or_create_key; `id` and `key` are what the generators return if a key is issued.
  function GetOrCreate(cfg: Config, s: KeyState, u: string, now: Instant, id: string, key: string)
    : (KeyState, IssueOutcome)
  {
    match LiveEntry(s.cache, u, now)
    case Some(e) => (s, Ok(CachedResult(cfg, u, e)))
    case None =>
      match RequireAllowedUser(s.users, u)
      case Err(err) => (s, Err(err))
      case Ok(user) =>
        match GetActiveKeyForUser(s.ledger, user.id)
        case Some(r) =>
          (s.(cache := PutEntry(s.cache, EntryFor(cfg, r, now))), Ok(ReusedResult(cfg, user.id, r)))
        case None =>
          var r := NewRecord(cfg.vault, user.id, id, key, now);
          (s.(ledger := SaveKey(s.ledger, r), cache := PutEntry(s.cache, EntryFor(cfg, r, now))),
           Ok(IssuedResult(user.id, key, r)))
  }

  // Save a deactivated record, then drop the owner's cache entry.
  function Deactivate(s: KeyState, r: KeyRecord): KeyState {
    s.(ledger := SaveKey(s.ledger, r), cache := DropEntry(s.cache, r.userId))
  }

  function RevokedCopy(r: KeyRecord, now: Instant): KeyRecord { r.(status := Revoked, revokedAt := Some(now)) }

  function DisabledCopy(r: KeyRecord): KeyRecord { r.(status := Disabled) }

  function Revoke(s: KeyState, keyId: string, now: Instant): (KeyState, Result<KeyRecord, NotFound>) {
    match GetKey(s.ledger, keyId)
    case None => (s, Err(NotFound))
    case Some(r) => (Deactivate(s, RevokedCopy(r, now)), Ok(RevokedCopy(r, now)))
  }

  function Disable(s: KeyState, keyId: string): (KeyState, Result<KeyRecord, NotFound>) {
    match GetKey(s.ledger, keyId)
    case None => (s, Err(NotFound))
    case Some(r) => (Deactivate(s, DisabledCopy(r)), Ok(DisabledCopy(r)))
  }

  function Rotate(v: Vault, s: KeyState, keyId: string, now: Instant, newId: string, newKey: string)
    : (KeyState, Result<(KeyRecord, KeyRecord), NotFound>)
  {
    match GetKey(s.ledger, keyId)
    case None => (s, Err(NotFound))
    case Some(r) =>
      var s1 := Deactivate(s, DisabledCopy(r));
      var replacement := NewRecord(v, r.userId, newId, newKey, now);
      (s1.(ledger := SaveKey(s1.ledger, replacement)), Ok((DisabledCopy(r), replacement)))
  }

  class TokenIssueService {
    const store: KeyStore
    const cache: KeyCache
    const cfg: Config

    constructor (store: KeyStore, cache: KeyCache, cfg: Config)
      ensures this.store == store && this.cache == cache && this.cfg == cfg
    {
      this.store, this.cache, this.cfg := store, cache, cfg;
    }

    ghost function State(users: Users): KeyState
      reads store, cache
    {
      KeyState(store.records, cache.items, users)
    }

    method GetOrCreateKey(users: Users, u: string, now: Instant, freshId: string, freshKey: string)
      returns (out: IssueOutcome)
      modifies store, cache
      ensures (State(users), out) == GetOrCreate(cfg, old(State(users)), u, now, freshId, freshKey)
    {
      var cached := cache.GetActiveKey(u, now);
      if cached.Some? {
        return Ok(CachedResult(cfg, u, cached.value));
      }
      var user := RequireAllowedUser(users, u);
      if user.Err? {
        return Err(user.error);
      }
      var existing := GetActiveKeyForUser(store.records, user.value.id);
      if existing.Some? {
        CacheKeyRecord(existing.value, now);
        return Ok(ReusedResult(cfg, user.value.id, existing.value));
      }
      out := IssueNewKey(user.value, now, freshId, freshKey);
    }

    method IssueNewKey(user: User, now: Instant, freshId: string, freshKey: string) returns (out: IssueOutcome)
      modifies store, cache
      ensures var record := NewRecord(cfg.vault, user.id, freshId, freshKey, now);
        && store.records == SaveKey(old(store.records), record)
        && cache.items == PutEntry(old(cache.items), EntryFor(cfg, record, now))
        && out == Ok(IssuedResult(user.id, freshKey, record))
    {
      var record := NewRecord(cfg.vault, user.id, freshId, freshKey, now);
      store.Save(record);
      CacheKeyRecord(record, now);
      out := Ok(IssuedResult(user.id, freshKey, record));
    }

    method CacheKeyRecord(r: KeyRecord, now: Instant)
      modifies cache
      ensures cache.items == PutEntry(old(cache.items), EntryFor(cfg, r, now))
    {
      var expiresAt := EpochSeconds(now + cfg.CacheTtl());
      cache.PutActiveKey(CacheEntry(r.userId, r.id, r.blob, r.prefix, r.status, expiresAt));
    }
  }

  class VirtualKeyLifecycleService {
    const store: KeyStore
    const cache: KeyCache
    const vault: Vault

    constructor (store: KeyStore, cache: KeyCache, vault: Vault)
      ensures this.store == store && this.cache == cache && this.vault == vault
    {
      this.store, this.cache, this.vault := store, cache, vault;
    }

    ghost function State(users: Users): KeyState
      reads store, cache
    {
      KeyState(store.records, cache.items, users)
    }

    method SaveAndInvalidate(r: KeyRecord)
      modifies store, cache
      ensures store.records == SaveKey(old(store.records), r)
      ensures cache.items == DropEntry(old(cache.items), r.userId)
      ensures GetKey(store.records, r.id) == Some(r)
      ensures forall now :: LiveEntry(cache.items, r.userId, now).None?
    {
      store.Save(r);
      cache.InvalidateUser(r.userId);
    }

    method RevokeKey(users: Users, keyId: string, now: Instant) returns (out: Result<KeyRecord, NotFound>)
      modifies store, cache
      ensures (State(users), out) == Revoke(old(State(users)), keyId, now)
      ensures out.Ok? ==> GetKey(store.records, keyId) == Some(out.value) && out.value.status == Revoked
      ensures out.Ok? ==> forall t :: LiveEntry(cache.items, out.value.userId, t).None?
    {
      var record := GetKey(store.records, keyId);
      if record.None? { return Err(NotFound); }
      var revoked := RevokedCopy(record.value, now);
      SaveAndInvalidate(revoked);
      out := Ok(revoked);
    }

    method DisableKey(users: Users, keyId: string) returns (out: Result<KeyRecord, NotFound>)
      modifies store, cache
      ensures (State(users), out) == Disable(old(State(users)), keyId)
      ensures out.Ok? ==> GetKey(store.records, keyId) == Some(out.value) && out.value.status == Disabled
      ensures out.Ok? ==> forall t :: LiveEntry(cache.items, out.value.userId, t).None?
    {
      var record := GetKey(store.records, keyId);
      if record.None? { return Err(NotFound); }
      var disabled := DisabledCopy(record.value);
      SaveAndInvalidate(disabled);
      out := Ok(disabled);
    }

    method RotateKey(users: Users, keyId: string, now: Instant, newId: string, newKey: string)
      returns (out: Result<(KeyRecord, KeyRecord), NotFound>)
      modifies store, cache
      ensures (State(users), out) == Rotate(vault, old(State(users)), keyId, now, newId, newKey)
      ensures out.Ok? && newId != keyId ==>
                GetKey(store.records, keyId) == Some(out.value.0) && GetKey(store.records, newId) == Some(out.value.1)
      ensures out.Ok? ==> forall t :: LiveEntry(cache.items, out.value.0.userId, t).None?
    {
      var record := GetKey(store.records, keyId);
      if record.None? { return Err(NotFound); }
      var disabled := DisabledCopy(record.value);
      SaveAndInvalidate(disabled);
      var replacement := NewRecord(vault, record.value.userId, newId, newKey, now);
      store.Save(replacement);
      out := Ok((disabled, replacement));
    }
  }
}
