// What holds in every interleaved run whatever crashes and races occur:
// deactivation is final, and an issued key identifies its owner.
module KeySafety {
  import opened Wrappers
  import opened KeyLedger
  import opened ProxyAuth
  import opened IssueService
  import opened KeyProtocol

  // Two versions of the same record: only its status and revocation time may differ.
  predicate SameIdentity(a: KeyRecord, b: KeyRecord) {
    a.id == b.id && a.userId == b.userId && a.keyHash == b.keyHash && a.blob == b.blob && a.prefix == b.prefix
  }

  // Records persist, keep their identity, and never return to Active.
  ghost predicate Extends(l: Ledger, l': Ledger) {
    forall id | GetKey(l, id).Some? ::
      && GetKey(l', id).Some?
      && SameIdentity(GetKey(l, id).value, GetKey(l', id).value)
      && (GetKey(l, id).value.status != Active ==> GetKey(l', id).value.status != Active)
  }

  lemma ExtendsTrans(a: Ledger, b: Ledger, c: Ledger)
    requires Extends(a, b) && Extends(b, c)
    ensures Extends(a, c)
  {}

  // The ledger holds a version of this record.
  predicate Holds(l: Ledger, r: KeyRecord) {
    GetKey(l, r.id).Some? && SameIdentity(GetKey(l, r.id).value, r)
  }

  predicate EntryOk(l: Ledger, u: string, e: CacheEntry) {
    var r := GetKey(l, e.keyId);
    e.userId == u && r.Some? && r.value.userId == u && r.value.blob == e.keyRef && r.value.prefix == e.prefix
  }

  // The result names a record of u that encrypts the returned key.
  predicate ResultOk(v: Vault, l: Ledger, u: string, res: TokenIssueResult) {
    var r := GetKey(l, res.keyId);
    && res.userId == u && r.Some? && r.value.userId == u
    && v.decrypt(r.value.blob) == res.virtualKey && r.value.prefix == res.keyPrefix
  }

  predicate IssuePcOk(v: Vault, l: Ledger, pc: IssuePc) {
    match pc
    case ReadLedger(u, _, user) => user.id == u
    case PutFound(u, _, r) => r.userId == u && Holds(l, r)
    case SaveNew(u, _, user) => user.id == u
    case PutNew(u, _, r, key) => r.userId == u && Holds(l, r) && v.decrypt(r.blob) == key
    case IssueDone(u, _, out) => out.Ok? ==> ResultOk(v, l, u, out.value)
    case _ => true
  }

  predicate AdminPcOk(l: Ledger, pc: AdminPc) {
    match pc
    case ReadRevokeClock(r) => Holds(l, r)
    case SaveInactive(_, r) => Holds(l, r) && r.status != Active
    case _ => true
  }

  predicate AuthPcOk(l: Ledger, pc: AuthPc) {
    match pc
    case AuthReadUser(r) => Holds(l, r)
    case _ => true
  }

  predicate PcOk(v: Vault, l: Ledger, pc: Pc) {
    match pc
    case IssueCall(p) => IssuePcOk(v, l, p)
    case AdminCall(p) => AdminPcOk(l, p)
    case AuthCall(p) => AuthPcOk(l, p)
    case HelperCall(p) => p.HelperFetch? ==> IssuePcOk(v, l, p.inner)
  }

  ghost predicate SharedOk(v: Vault, sh: Shared) {
    && LedgerOk(v, sh.ledger) && UsersOk(sh.users)
    && (forall u | u in sh.cache :: EntryOk(sh.ledger, u, sh.cache[u]))
  }

  ghost predicate Inv(v: Vault, s: System) {
    SharedOk(v, s.sh) && forall c | c in s.calls :: PcOk(v, s.sh.ledger, s.calls[c])
  }

  // --- Saves ----------------------------------------------------------------

  lemma SaveVersion(v: Vault, l: Ledger, r: KeyRecord)
    requires LedgerOk(v, l) && Holds(l, r) && r.status != Active
    ensures LedgerOk(v, SaveKey(l, r)) && Extends(l, SaveKey(l, r)) && Holds(SaveKey(l, r), r)
  {
    var k := IndexOf(l, r.id);
    assert l[k] in l;
    forall id ensures GetKey(SaveKey(l, r), id) == if id == r.id then Some(r) else GetKey(l, id) {
      GetAfterSave(l, r, id);
    }
  }

  lemma SaveFresh(v: Vault, l: Ledger, u: string, id: string, key: string, now: Instant)
    requires Sound(v) && LedgerOk(v, l) && FreshChoice(v, l, id, key)
    ensures var r := NewRecord(v, u, id, key, now);
            && LedgerOk(v, SaveKey(l, r)) && Extends(l, SaveKey(l, r))
            && GetKey(SaveKey(l, r), id) == Some(r) && v.decrypt(r.blob) == key
  {
    var r := NewRecord(v, u, id, key, now);
    assert IndexOf(l, id) == |l|;
    assert SaveKey(l, r) == l + [r];
    forall i | 0 <= i < |l| ensures l[i].id != id && l[i].keyHash != r.keyHash {
      assert l[i] in l;
    }
    forall x ensures GetKey(SaveKey(l, r), x) == if x == id then Some(r) else GetKey(l, x) {
      GetAfterSave(l, r, x);
    }
  }

  // --- One step of each kind of call ------------------------------------------

  // What a step may do to the shared stores.
  ghost predicate GoodStep(v: Vault, sh: Shared, sh': Shared) {
    && LedgerOk(v, sh'.ledger) && Extends(sh.ledger, sh'.ledger)
    && sh'.users == sh.users
    && (forall u | u in sh'.cache :: EntryOk(sh.ledger, u, sh'.cache[u]))
  }

  lemma PutOk(cfg: Config, sh: Shared, r: KeyRecord, now: Instant)
    requires SharedOk(cfg.vault, sh) && Holds(sh.ledger, r)
    ensures GoodStep(cfg.vault, sh, sh.(cache := PutEntry(sh.cache, EntryFor(cfg, r, now))))
  {}

  lemma SaveNewOk(cfg: Config, sh: Shared, u: string, id: string, key: string, now: Instant)
    requires Sound(cfg.vault) && SharedOk(cfg.vault, sh) && FreshChoice(cfg.vault, sh.ledger, id, key)
    ensures var r := NewRecord(cfg.vault, u, id, key, now);
            && GoodStep(cfg.vault, sh, sh.(ledger := SaveKey(sh.ledger, r)))
            && Holds(SaveKey(sh.ledger, r), r) && cfg.vault.decrypt(r.blob) == key
  {
    SaveFresh(cfg.vault, sh.ledger, u, id, key, now);
  }

  lemma IssueStepOk(cfg: Config, sh: Shared, pc: IssuePc, id: string, key: string)
    requires Sound(cfg.vault) && SharedOk(cfg.vault, sh) && IssuePcOk(cfg.vault, sh.ledger, pc)
    requires FreshChoice(cfg.vault, sh.ledger, id, key)
    ensures var (sh', pc') := IssueStep(cfg, sh, pc, id, key);
            GoodStep(cfg.vault, sh, sh') && IssuePcOk(cfg.vault, sh'.ledger, pc')
  {
    match pc
    case ReadLedger(u, now, user) =>
      var found := GetActiveKeyForUser(sh.ledger, user.id);
      if found.Some? { GetKeyOfMember(sh.ledger, found.value); }
    case SaveNew(u, now, user) => SaveNewOk(cfg, sh, user.id, id, key, now);
    case PutFound(u, now, r) => PutOk(cfg, sh, r, now);
    case PutNew(u, now, r, k) => PutOk(cfg, sh, r, now);
    case ReadCache(u, now) => assert GoodStep(cfg.vault, sh, sh);
    case _ => assert GoodStep(cfg.vault, sh, sh);
  }

  lemma AdminStepOk(cfg: Config, sh: Shared, pc: AdminPc, id: string, key: string)
    requires Sound(cfg.vault) && SharedOk(cfg.vault, sh) && AdminPcOk(sh.ledger, pc)
    requires FreshChoice(cfg.vault, sh.ledger, id, key)
    ensures var (sh', pc') := AdminStep(cfg, sh, pc, id, key);
            GoodStep(cfg.vault, sh, sh') && AdminPcOk(sh'.ledger, pc')
  {
    match pc
    case AdminStart(kind, keyId) =>
      if GetKey(sh.ledger, keyId).Some? { assert GetKey(sh.ledger, keyId).value.id == keyId; }
    case SaveInactive(kind, r) => SaveVersion(cfg.vault, sh.ledger, r);
    case SaveReplacement(r, now) => SaveNewOk(cfg, sh, r.userId, id, key, now);
    case _ =>
  }

  lemma AuthStepOk(cfg: Config, sh: Shared, pc: AuthPc)
    requires SharedOk(cfg.vault, sh) && AuthPcOk(sh.ledger, pc)
    ensures AuthPcOk(sh.ledger, AuthStep(cfg, sh, pc))
  {
    if pc.AuthStart? && LookupKey(cfg.vault, sh.ledger, pc.header).Ok? {
      GetKeyOfMember(sh.ledger, LookupKey(cfg.vault, sh.ledger, pc.header).value);
    }
  }

  lemma HelperStepOk(cfg: Config, sh: Shared, pc: HelperPc, id: string, key: string)
    requires Sound(cfg.vault) && SharedOk(cfg.vault, sh) && PcOk(cfg.vault, sh.ledger, HelperCall(pc))
    requires FreshChoice(cfg.vault, sh.ledger, id, key)
    ensures var (sh', pc') := HelperStep(cfg, sh, pc, id, key);
            GoodStep(cfg.vault, sh, sh') && PcOk(cfg.vault, sh'.ledger, HelperCall(pc'))
  {
    if pc.HelperFetch? && !pc.inner.IssueDone? {
      IssueStepOk(cfg, sh, pc.inner, id, key);
    } else {
      assert GoodStep(cfg.vault, sh, sh);
    }
  }

  lemma StepOk(cfg: Config, sh: Shared, pc: Pc, id: string, key: string)
    requires Sound(cfg.vault) && SharedOk(cfg.vault, sh) && PcOk(cfg.vault, sh.ledger, pc)
    requires FreshChoice(cfg.vault, sh.ledger, id, key)
    ensures var (sh', pc') := Step(cfg, sh, pc, id, key);
            GoodStep(cfg.vault, sh, sh') && PcOk(cfg.vault, sh'.ledger, pc')
  {
    match pc
    case IssueCall(p) => IssueStepOk(cfg, sh, p, id, key);
    case AdminCall(p) => AdminStepOk(cfg, sh, p, id, key);
    case AuthCall(p) => AuthStepOk(cfg, sh, p);
    case HelperCall(p) => HelperStepOk(cfg, sh, p, id, key);
  }

  lemma PcOkMonotone(v: Vault, l: Ledger, l': Ledger, pc: Pc)
    requires Extends(l, l') && PcOk(v, l, pc)
    ensures PcOk(v, l', pc)
  {}

  // Every action of the system keeps the invariant and only extends the ledger.
  lemma ApplyOk(cfg: Config, s: System, a: Action)
    requires Sound(cfg.vault) && Inv(cfg.vault, s) && Enabled(cfg, s, a)
    ensures Inv(cfg.vault, Apply(cfg, s, a)) && Extends(s.sh.ledger, Apply(cfg, s, a).sh.ledger)
  {
    if a.Advance? {
      StepOk(cfg, s.sh, s.calls[a.c], a.id, a.key);
      var s' := Apply(cfg, s, a);
      forall c | c in s'.calls ensures PcOk(cfg.vault, s'.sh.ledger, s'.calls[c]) {
        if c != a.c { PcOkMonotone(cfg.vault, s.sh.ledger, s'.sh.ledger, s.calls[c]); }
      }
    }
  }

  lemma {:induction false} RunOk(cfg: Config, states: seq<System>, acts: seq<Action>, i: nat)
    requires IsRun(cfg, states, acts) && i < |states|
    ensures Inv(cfg.vault, states[i])
  {
    if i > 0 {
      RunOk(cfg, states, acts, i - 1);
      assert IsStep(cfg, states, acts, i - 1);
      ApplyOk(cfg, states[i-1], acts[i-1]);
    }
  }

  lemma StepExtends(cfg: Config, states: seq<System>, acts: seq<Action>, k: nat)
    requires IsRun(cfg, states, acts) && k + 1 < |states|
    ensures Extends(states[k].sh.ledger, states[k+1].sh.ledger)
  {
    RunOk(cfg, states, acts, k);
    assert IsStep(cfg, states, acts, k);
    ApplyOk(cfg, states[k], acts[k]);
  }

  lemma {:induction false} RunExtends(cfg: Config, states: seq<System>, acts: seq<Action>, i: nat, j: nat)
    requires IsRun(cfg, states, acts) && i <= j < |states|
    ensures Extends(states[i].sh.ledger, states[j].sh.ledger)
    decreases j
  {
    if i < j {
      RunExtends(cfg, states, acts, i, j - 1);
      StepExtends(cfg, states, acts, j - 1);
      ExtendsTrans(states[i].sh.ledger, states[j-1].sh.ledger, states[j].sh.ledger);
    }
  }

  // --- Main results ---------------------------------------------------------

  // Once a key is inactive in the ledger it is inactive at every later instant, and
  // an authentication that looks its key up at such an instant is rejected for that reason.
  lemma DeactivationIsFinal(cfg: Config, states: seq<System>, acts: seq<Action>, i: nat, j: nat, id: string,
                            header: Option<string>)
    requires IsRun(cfg, states, acts) && i <= j < |states|
    requires GetKey(states[i].sh.ledger, id).Some? && GetKey(states[i].sh.ledger, id).value.status != Active
    ensures GetKey(states[j].sh.ledger, id).Some? && GetKey(states[j].sh.ledger, id).value.status != Active
    ensures ExtractVirtualKey(header) == Ok(cfg.vault.decrypt(GetKey(states[i].sh.ledger, id).value.blob)) ==>
              AuthStep(cfg, states[j].sh, AuthStart(header)) == AuthDone(Err(InactiveKey))
  {
    RunExtends(cfg, states, acts, i, j);
    RunOk(cfg, states, acts, j);
    var r := GetKey(states[j].sh.ledger, id).value;
    assert SameIdentity(GetKey(states[i].sh.ledger, id).value, r);
    GetKeyOfMember(states[j].sh.ledger, r);
  }

  // A key that get_or_create_key returned for u, presented as a bearer token with the ledger
  // read at any later instant j and the user row at any instant, is the recorded key of u: it
  // authenticates as u under the returned key id if that key is active and u exists, and
  // otherwise is refused as inactive or orphaned.
  lemma IssuedKeyIdentifiesOwner(cfg: Config, states: seq<System>, acts: seq<Action>, i: nat, c: nat, j: nat, k: nat)
    requires IsRun(cfg, states, acts) && i <= j < |states| && k < |states|
    requires c in states[i].calls && states[i].calls[c].IssueCall?
    requires states[i].calls[c].issue.IssueDone? && states[i].calls[c].issue.out.Ok?
    ensures var u, res := states[i].calls[c].issue.u, states[i].calls[c].issue.out.value;
            var l, users := states[j].sh.ledger, states[k].sh.users;
            var auth := Authenticate(cfg.vault, l, users, BearerHeader(res.virtualKey));
            && GetKey(l, res.keyId).Some?
            && (if GetKey(l, res.keyId).value.status != Active then auth == Err(InactiveKey)
                else if u !in users then auth == Err(OrphanedKey)
                else
                  && auth.Ok? && auth.value.user.id == u && auth.value.keyId == res.keyId
                  && auth.value.prefix == res.keyPrefix)
  {
    RunOk(cfg, states, acts, i);
    RunExtends(cfg, states, acts, i, j);
    RunOk(cfg, states, acts, j);
    RunOk(cfg, states, acts, k);
    var u, res := states[i].calls[c].issue.u, states[i].calls[c].issue.out.value;
    assert ResultOk(cfg.vault, states[i].sh.ledger, u, res);
    var r := GetKey(states[j].sh.ledger, res.keyId).value;
    assert SameIdentity(GetKey(states[i].sh.ledger, res.keyId).value, r);
    GetKeyOfMember(states[j].sh.ledger, r);
    HeaderRoundTrip(res.virtualKey);
  }

  // A header is accepted exactly when it carries the key of an active record whose user exists, and then the context
  // is that of this record and no other.
  lemma AcceptedExactly(cfg: Config, states: seq<System>, acts: seq<Action>, j: nat, k: nat, header: Option<string>)
    requires IsRun(cfg, states, acts) && j < |states| && k < |states|
    ensures var l, users := states[j].sh.ledger, states[k].sh.users;
            var auth := Authenticate(cfg.vault, l, users, header);
            && (auth.Ok? <==> exists r | r in l :: Accepts(cfg.vault, users, header, r))
            && (auth.Ok? ==> GetKey(l, auth.value.keyId).Some?)
            && (auth.Ok? ==> Accepts(cfg.vault, users, header, GetKey(l, auth.value.keyId).value))
            && (auth.Ok? ==> auth.value.user == users[GetKey(l, auth.value.keyId).value.userId])
  {
    var v, l, users := cfg.vault, states[j].sh.ledger, states[k].sh.users;
    RunOk(cfg, states, acts, j);
    var auth := Authenticate(v, l, users, header);
    if auth.Ok? {
      var r := LookupKey(v, l, header).value;
      GetKeyOfMember(l, r);
      assert Accepts(v, users, header, r);
    }
    forall r | r in l && Accepts(v, users, header, r) ensures auth.Ok? { GetKeyOfMember(l, r); }
  }

  predicate Accepts(v: Vault, users: Users, header: Option<string>, r: KeyRecord) {
    ExtractVirtualKey(header) == Ok(v.decrypt(r.blob)) && r.status == Active && r.userId in users
  }

  // --- What one issue promises ------------------------------------------------

  // Past the cache, a user is refused for exactly the two reasons of the user row; anyone else gets a key that is
  // active in the ledger for that user, issued only if there was none, and cached for its whole time to live.
  lemma IssueOutcomeExactly(cfg: Config, s: KeyState, u: string, now: Instant, id: string, key: string)
    requires Sound(cfg.vault) && LedgerOk(cfg.vault, s.ledger) && UsersOk(s.users)
    requires FreshChoice(cfg.vault, s.ledger, id, key) && LiveEntry(s.cache, u, now).None?
    ensures var (s', out) := GetOrCreate(cfg, s, u, now, id, key);
            && (out == Err(UserNotRegistered) <==> u !in s.users)
            && (out == Err(AccessDenied) <==> u in s.users && !(s.users[u].isActive && s.users[u].proxyAccessEnabled))
            && (out.Err? ==> s' == s)
            && (out.Ok? ==> Delivered(cfg, s, s', u, now, out.value))
            && forall x | x != id :: GetKey(s'.ledger, x) == GetKey(s.ledger, x)
  {
    var (s', out) := GetOrCreate(cfg, s, u, now, id, key);
    if out.Ok? {
      var existing := GetActiveKeyForUser(s.ledger, u);
      if existing.Some? {
        GetKeyOfMember(s.ledger, existing.value);
        assert existing.value in ActiveKeys(s.ledger, u);
      } else {
        SaveFresh(cfg.vault, s.ledger, u, id, key, now);
        forall x | x != id ensures GetKey(s'.ledger, x) == GetKey(s.ledger, x) {
          GetAfterSave(s.ledger, NewRecord(cfg.vault, u, id, key, now), x);
        }
      }
    }
  }

  ghost predicate Delivered(cfg: Config, s: KeyState, s': KeyState, u: string, now: Instant, res: TokenIssueResult) {
    && res.userId == u && GetKey(s'.ledger, res.keyId).Some?
    && var r := GetKey(s'.ledger, res.keyId).value;
    && ActiveFor(u, r) && cfg.vault.decrypt(r.blob) == res.virtualKey && res.keyPrefix == r.prefix
    && (res.source == Issued <==> ActiveCount(s.ledger, u) == 0)
    && forall t | EpochSeconds(t) < EpochSeconds(now + cfg.CacheTtl()) :: LiveEntry(s'.cache, u, t).Some?
  }
}
