// The key service as interleaved small steps: every call has a program counter
// and each step makes at most one access to the clock or to a shared store.
module KeyProtocol {
  import opened Wrappers
  import opened KeyLedger
  import opened ProxyAuth
  import opened IssueService

  const MIN_HELPER_TTL_SECONDS := 300
  const MAX_HELPER_TTL_SECONDS := 900

  // normalize_cache_ttl of the shell helper; None is a value that is not all digits.
  function NormalizeHelperTtl(v: Option<nat>): (r: int)
    ensures 300 <= r <= 900
    ensures v.Some? && 300 <= v.value <= 900 ==> r == v.value
    ensures v.None? ==> r == 300
    ensures v.Some? && v.value < 300 ==> r == 300
    ensures v.Some? && v.value > 900 ==> r == 900
  {
    var ttl := v.GetOr(MIN_HELPER_TTL_SECONDS);
    if ttl < MIN_HELPER_TTL_SECONDS then MIN_HELPER_TTL_SECONDS
    else if ttl > MAX_HELPER_TTL_SECONDS then MAX_HELPER_TTL_SECONDS
    else ttl
  }

  // The helper's cache file.
  datatype HelperFile = HelperFile(key: string, expires: int)

  datatype Shared = Shared(
    clock: Instant,
    ledger: Ledger,
    cache: CacheItems,
    users: Users,
    files: map<string, HelperFile>)

  // get_or_create_key for user u, named after the access it makes next.
  datatype IssuePc =
    | IssueStart(u: string)
    | ReadCache(u: string, now: Instant)
    | ReadUser(u: string, now: Instant)
    | ReadLedger(u: string, now: Instant, user: User)
    | PutFound(u: string, now: Instant, r: KeyRecord)
    | SaveNew(u: string, now: Instant, user: User)
    | PutNew(u: string, now: Instant, r: KeyRecord, key: string)
    | IssueDone(u: string, now: Instant, out: IssueOutcome)

  datatype AdminKind = RevokeKind | DisableKind | RotateKind

  // revoke, disable and rotate.
  datatype AdminPc =
    | AdminStart(kind: AdminKind, keyId: string)
    | ReadRevokeClock(r: KeyRecord)
    | SaveInactive(kind: AdminKind, r: KeyRecord)
    | Invalidate(kind: AdminKind, r: KeyRecord)
    | ReadRotateClock(r: KeyRecord)
    | SaveReplacement(r: KeyRecord, now: Instant)
    | AdminDone(found: bool)

  // authenticate.
  datatype AuthPc =
    | AuthStart(header: Option<string>)
    | AuthReadUser(r: KeyRecord)
    | AuthDone(out: Result<AuthContext, AuthReason>)

  // The shell helper run by user u with its cache file; `t` is its one clock reading.
  datatype HelperPc =
    | HelperStart(u: string, file: string, ttl: Option<nat>)
    | HelperLoad(u: string, file: string, ttl: Option<nat>, t: Instant)
    | HelperFetch(file: string, ttl: Option<nat>, t: Instant, inner: IssuePc)
    | HelperStore(file: string, ttl: Option<nat>, t: Instant, key: string)
    | HelperDone(t: Instant, printed: Option<string>)

  datatype Pc =
    | IssueCall(issue: IssuePc)
    | AdminCall(admin: AdminPc)
    | AuthCall(auth: AuthPc)
    | HelperCall(helper: HelperPc)

  function IssueStep(cfg: Config, sh: Shared, pc: IssuePc, id: string, key: string): (Shared, IssuePc) {
    match pc
    case IssueStart(u) => (sh, ReadCache(u, sh.clock))
    case ReadCache(u, now) =>
      (match LiveEntry(sh.cache, u, now)
       case Some(e) => (sh, IssueDone(u, now, Ok(CachedResult(cfg, u, e))))
       case None => (sh, ReadUser(u, now)))
    case ReadUser(u, now) =>
      (match RequireAllowedUser(sh.users, u)
       case Err(err) => (sh, IssueDone(u, now, Err(err)))
       case Ok(user) => (sh, ReadLedger(u, now, user)))
    case ReadLedger(u, now, user) =>
      (match GetActiveKeyForUser(sh.ledger, user.id)
       case Some(r) => (sh, PutFound(u, now, r))
       case None => (sh, SaveNew(u, now, user)))
    case PutFound(u, now, r) =>
      (sh.(cache := PutEntry(sh.cache, EntryFor(cfg, r, now))), IssueDone(u, now, Ok(ReusedResult(cfg, r.userId, r))))
    case SaveNew(u, now, user) =>
      var r := NewRecord(cfg.vault, user.id, id, key, now);
      (sh.(ledger := SaveKey(sh.ledger, r)), PutNew(u, now, r, key))
    case PutNew(u, now, r, k) =>
      (sh.(cache := PutEntry(sh.cache, EntryFor(cfg, r, now))), IssueDone(u, now, Ok(IssuedResult(r.userId, k, r))))
    case IssueDone(_, _, _) => (sh, pc)
  }

  function AdminStep(cfg: Config, sh: Shared, pc: AdminPc, id: string, key: string): (Shared, AdminPc) {
    match pc
    case AdminStart(kind, keyId) =>
      (match GetKey(sh.ledger, keyId)
       case None => (sh, AdminDone(false))
       case Some(r) => (sh, if kind.RevokeKind? then ReadRevokeClock(r) else SaveInactive(kind, DisabledCopy(r))))
    case ReadRevokeClock(r) => (sh, SaveInactive(RevokeKind, RevokedCopy(r, sh.clock)))
    case SaveInactive(kind, r) => (sh.(ledger := SaveKey(sh.ledger, r)), Invalidate(kind, r))
    case Invalidate(kind, r) =>
      (sh.(cache := DropEntry(sh.cache, r.userId)), if kind.RotateKind? then ReadRotateClock(r) else AdminDone(true))
    case ReadRotateClock(r) => (sh, SaveReplacement(r, sh.clock))
    case SaveReplacement(r, now) =>
      (sh.(ledger := SaveKey(sh.ledger, NewRecord(cfg.vault, r.userId, id, key, now))), AdminDone(true))
    case AdminDone(_) => (sh, pc)
  }

  function AuthStep(cfg: Config, sh: Shared, pc: AuthPc): AuthPc {
    match pc
    case AuthStart(header) =>
      (match LookupKey(cfg.vault, sh.ledger, header)
       case Err(e) => AuthDone(Err(e))
       case Ok(r) => AuthReadUser(r))
    case AuthReadUser(r) => AuthDone(RestoreContext(sh.users, r))
    case AuthDone(_) => pc
  }

  // load_cached_key: the stored key if it looks like one and has not expired.
  function LoadCachedKey(files: map<string, HelperFile>, file: string, t: Instant): Option<string> {
    if file !in files then None
    else if !(VIRTUAL_KEY_PREFIX <= files[file].key) then None
    else if files[file].expires <= EpochSeconds(t) then None
    else Some(files[file].key)
  }

  function HelperStep(cfg: Config, sh: Shared, pc: HelperPc, id: string, key: string): (Shared, HelperPc) {
    match pc
    case HelperStart(u, file, ttl) => (sh, HelperLoad(u, file, ttl, sh.clock))
    case HelperLoad(u, file, ttl, t) =>
      (match LoadCachedKey(sh.files, file, t)
       case Some(k) => (sh, HelperDone(t, Some(k)))
       case None => (sh, HelperFetch(file, ttl, t, IssueStart(u))))
    case HelperFetch(file, ttl, t, inner) =>
      if inner.IssueDone? then
        if inner.out.Err? || !(VIRTUAL_KEY_PREFIX <= inner.out.value.virtualKey) then (sh, HelperDone(t, None))
        else (sh, HelperStore(file, ttl, t, inner.out.value.virtualKey))
      else
        var (sh', inner') := IssueStep(cfg, sh, inner, id, key);
        (sh', HelperFetch(file, ttl, t, inner'))
    case HelperStore(file, ttl, t, k) =>
      (sh.(files := sh.files[file := HelperFile(k, EpochSeconds(t) + NormalizeHelperTtl(ttl))]), HelperDone(t, Some(k)))
    case HelperDone(_, _) => (sh, pc)
  }

  function Step(cfg: Config, sh: Shared, pc: Pc, id: string, key: string): (Shared, Pc) {
    match pc
    case IssueCall(p) => var (sh', p') := IssueStep(cfg, sh, p, id, key); (sh', IssueCall(p'))
    case AdminCall(p) => var (sh', p') := AdminStep(cfg, sh, p, id, key); (sh', AdminCall(p'))
    case AuthCall(p) => (sh, AuthCall(AuthStep(cfg, sh, p)))
    case HelperCall(p) => var (sh', p') := HelperStep(cfg, sh, p, id, key); (sh', HelperCall(p'))
  }

  // --- Systems and runs -----------------------------------------------------

  datatype System = System(sh: Shared, calls: map<nat, Pc>)

  // Time passes; a user row changes; a cache entry or helper file disappears; a call
  // begins, takes a step (with the id and key a generator would return), or dies.
  datatype Action =
    | Tick(d: nat)
    | PutUser(user: User)
    | Evict(u: string)
    | Unlink(file: string)
    | Spawn(c: nat, pc: Pc)
    | Advance(c: nat, id: string, key: string)
    | Crash(c: nat)

  predicate IsStart(pc: Pc) {
    match pc
    case IssueCall(p) => p.IssueStart?
    case AdminCall(p) => p.AdminStart?
    case AuthCall(p) => p.AuthStart?
    case HelperCall(p) => p.HelperStart?
  }

  // What the id and key generators promise.
  predicate FreshChoice(v: Vault, l: Ledger, id: string, key: string) {
    && GetKey(l, id).None?
    && WellFormedKey(key)
    && (forall r | r in l :: r.keyHash != v.hash(key))
  }

  predicate Enabled(cfg: Config, s: System, a: Action) {
    match a
    case Spawn(c, pc) => c !in s.calls && IsStart(pc)
    case Advance(c, id, key) => c in s.calls && FreshChoice(cfg.vault, s.sh.ledger, id, key)
    case _ => true
  }

  function Apply(cfg: Config, s: System, a: Action): System
    requires Enabled(cfg, s, a)
  {
    match a
    case Tick(d) => s.(sh := s.sh.(clock := s.sh.clock + d))
    case PutUser(user) => s.(sh := s.sh.(users := s.sh.users[user.id := user]))
    case Evict(u) => s.(sh := s.sh.(cache := DropEntry(s.sh.cache, u)))
    case Unlink(file) => s.(sh := s.sh.(files := s.sh.files - {file}))
    case Spawn(c, pc) => s.(calls := s.calls[c := pc])
    case Advance(c, id, key) =>
      var (sh', pc') := Step(cfg, s.sh, s.calls[c], id, key);
      System(sh', s.calls[c := pc'])
    case Crash(c) => s.(calls := s.calls - {c})
  }

  ghost predicate RecordOk(v: Vault, r: KeyRecord) {
    r.keyHash == v.hash(v.decrypt(r.blob)) && WellFormedKey(v.decrypt(r.blob))
  }

  ghost predicate LedgerOk(v: Vault, l: Ledger) {
    Distinct(l) && forall r | r in l :: RecordOk(v, r)
  }

  predicate UsersOk(users: Users) { forall u | u in users :: users[u].id == u }

  ghost predicate Init(cfg: Config, s: System) {
    && LedgerOk(cfg.vault, s.sh.ledger) && UsersOk(s.sh.users)
    && s.sh.cache == map[] && s.sh.files == map[] && s.calls == map[]
  }

  ghost predicate IsStep(cfg: Config, states: seq<System>, acts: seq<Action>, i: nat)
    requires i < |acts| && |states| == |acts| + 1
  {
    Enabled(cfg, states[i], acts[i]) && states[i+1] == Apply(cfg, states[i], acts[i])
  }

  // A run: its states and the actions between them.
  ghost predicate IsRun(cfg: Config, states: seq<System>, acts: seq<Action>) {
    && Sound(cfg.vault)
    && |states| == |acts| + 1
    && Init(cfg, states[0])
    && forall i | 0 <= i < |acts| :: IsStep(cfg, states, acts, i)
  }

  // --- A call that is not interrupted is the atomic operation ----------------

  function RunIssue(cfg: Config, sh: Shared, pc: IssuePc, id: string, key: string, n: nat): (Shared, IssuePc)
    decreases n
  {
    if n == 0 then (sh, pc)
    else var (sh', pc') := IssueStep(cfg, sh, pc, id, key); RunIssue(cfg, sh', pc', id, key, n - 1)
  }

  function RunAdmin(cfg: Config, sh: Shared, pc: AdminPc, id: string, key: string, n: nat): (Shared, AdminPc)
    decreases n
  {
    if n == 0 then (sh, pc)
    else var (sh', pc') := AdminStep(cfg, sh, pc, id, key); RunAdmin(cfg, sh', pc', id, key, n - 1)
  }

  function Stores(sh: Shared): KeyState { KeyState(sh.ledger, sh.cache, sh.users) }

  function WithStores(sh: Shared, s: KeyState): Shared { sh.(ledger := s.ledger, cache := s.cache, users := s.users) }

  lemma IssueSteps(cfg: Config, sh: Shared, pc: IssuePc, id: string, key: string, n: nat)
    requires n > 0
    ensures var (sh', pc') := IssueStep(cfg, sh, pc, id, key);
            RunIssue(cfg, sh, pc, id, key, n) == RunIssue(cfg, sh', pc', id, key, n - 1)
  {}

  // A finished call stays as it is.
  lemma {:induction false} IssueStays(cfg: Config, sh: Shared, pc: IssuePc, id: string, key: string, n: nat)
    requires pc.IssueDone?
    ensures RunIssue(cfg, sh, pc, id, key, n) == (sh, pc)
  {
    if n > 0 { IssueStays(cfg, sh, pc, id, key, n - 1); }
  }

  // From the ledger read on: reuse or issue.
  lemma SoloLedgerIsAtomic(cfg: Config, sh: Shared, u: string, id: string, key: string)
    requires LiveEntry(sh.cache, u, sh.clock).None? && RequireAllowedUser(sh.users, u).Ok?
    ensures var (s', out) := GetOrCreate(cfg, Stores(sh), u, sh.clock, id, key);
            RunIssue(cfg, sh, ReadLedger(u, sh.clock, sh.users[u]), id, key, 3) ==
            (WithStores(sh, s'), IssueDone(u, sh.clock, out))
  {
    var (sh1, p1) := IssueStep(cfg, sh, ReadLedger(u, sh.clock, sh.users[u]), id, key);
    var (sh2, p2) := IssueStep(cfg, sh1, p1, id, key);
    var (sh3, p3) := IssueStep(cfg, sh2, p2, id, key);
    assert RunIssue(cfg, sh3, p3, id, key, 0) == (sh3, p3);
    IssueSteps(cfg, sh2, p2, id, key, 1);
    IssueSteps(cfg, sh1, p1, id, key, 2);
  }

  // Six steps of an uninterrupted call are the atomic operation.
  lemma SoloIssueIsAtomic(cfg: Config, sh: Shared, u: string, id: string, key: string)
    ensures var (s', out) := GetOrCreate(cfg, Stores(sh), u, sh.clock, id, key);
            RunIssue(cfg, sh, IssueStart(u), id, key, 6) == (WithStores(sh, s'), IssueDone(u, sh.clock, out))
  {
    var now := sh.clock;
    IssueSteps(cfg, sh, IssueStart(u), id, key, 6);
    IssueSteps(cfg, sh, ReadCache(u, now), id, key, 5);
    if LiveEntry(sh.cache, u, now).Some? {
      IssueStays(cfg, sh, IssueStep(cfg, sh, ReadCache(u, now), id, key).1, id, key, 4);
    } else {
      IssueSteps(cfg, sh, ReadUser(u, now), id, key, 4);
      if RequireAllowedUser(sh.users, u).Ok? {
        SoloLedgerIsAtomic(cfg, sh, u, id, key);
      } else {
        IssueStays(cfg, sh, IssueStep(cfg, sh, ReadUser(u, now), id, key).1, id, key, 3);
      }
    }
  }

  // revoke, disable and rotate as one atomic operation.
  function AtomicAdmin(cfg: Config, sh: Shared, kind: AdminKind, keyId: string, id: string, key: string):
    (KeyState, bool)
  {
    match kind
    case RevokeKind => var (s', out) := Revoke(Stores(sh), keyId, sh.clock); (s', out.Ok?)
    case DisableKind => var (s', out) := Disable(Stores(sh), keyId); (s', out.Ok?)
    case RotateKind => var (s', out) := Rotate(cfg.vault, Stores(sh), keyId, sh.clock, id, key); (s', out.Ok?)
  }

  lemma AdminSteps(cfg: Config, sh: Shared, pc: AdminPc, id: string, key: string, n: nat)
    requires n > 0
    ensures var (sh', pc') := AdminStep(cfg, sh, pc, id, key);
            RunAdmin(cfg, sh, pc, id, key, n) == RunAdmin(cfg, sh', pc', id, key, n - 1)
  {}

  lemma {:induction false} AdminStays(cfg: Config, sh: Shared, id: string, key: string, n: nat, found: bool)
    ensures RunAdmin(cfg, sh, AdminDone(found), id, key, n) == (sh, AdminDone(found))
  {
    if n > 0 { AdminStays(cfg, sh, id, key, n - 1, found); }
  }

  // From the save on: the inactive record is saved, the cache entry dropped, and for a rotation a new record saved.
  lemma SoloSave(cfg: Config, sh: Shared, kind: AdminKind, r: KeyRecord, id: string, key: string, n: nat)
    requires n >= 4
    ensures var dropped := sh.(ledger := SaveKey(sh.ledger, r), cache := DropEntry(sh.cache, r.userId));
            var after := if kind.RotateKind?
              then dropped.(ledger := SaveKey(dropped.ledger, NewRecord(cfg.vault, r.userId, id, key, sh.clock)))
              else dropped;
            RunAdmin(cfg, sh, SaveInactive(kind, r), id, key, n) == (after, AdminDone(true))
  {
    AdminSteps(cfg, sh, SaveInactive(kind, r), id, key, n);
    var (sh1, p1) := AdminStep(cfg, sh, SaveInactive(kind, r), id, key);
    AdminSteps(cfg, sh1, p1, id, key, n - 1);
    var (sh2, p2) := AdminStep(cfg, sh1, p1, id, key);
    if kind.RotateKind? {
      AdminSteps(cfg, sh2, p2, id, key, n - 2);
      var (sh3, p3) := AdminStep(cfg, sh2, p2, id, key);
      AdminSteps(cfg, sh3, p3, id, key, n - 3);
      AdminStays(cfg, AdminStep(cfg, sh3, p3, id, key).0, id, key, n - 4, true);
    } else {
      AdminStays(cfg, sh2, id, key, n - 2, true);
    }
  }

  // Six steps of an uninterrupted revoke, disable or rotate are the atomic operation.
  lemma SoloAdminIsAtomic(cfg: Config, sh: Shared, kind: AdminKind, keyId: string, id: string, key: string)
    ensures var (s', found) := AtomicAdmin(cfg, sh, kind, keyId, id, key);
            RunAdmin(cfg, sh, AdminStart(kind, keyId), id, key, 6) == (WithStores(sh, s'), AdminDone(found))
  {
    AdminSteps(cfg, sh, AdminStart(kind, keyId), id, key, 6);
    match GetKey(sh.ledger, keyId)
    case None => AdminStays(cfg, sh, id, key, 5, false);
    case Some(r) =>
      if kind.RevokeKind? {
        AdminSteps(cfg, sh, ReadRevokeClock(r), id, key, 5);
        SoloSave(cfg, sh, kind, RevokedCopy(r, sh.clock), id, key, 4);
      } else {
        SoloSave(cfg, sh, kind, DisabledCopy(r), id, key, 5);
      }
  }
}
