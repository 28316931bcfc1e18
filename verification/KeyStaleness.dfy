// How old an answer can be: a key handed out by the token service or printed by the
// shell helper was active in the ledger less than a fixed time before, whatever the interleaving.
module KeyStaleness {
  import opened Wrappers
  import opened KeyLedger
  import opened ProxyAuth
  import opened IssueService
  import opened KeyProtocol
  import opened KeySafety

  const HELPER_LAG: int := MAX_HELPER_TTL_SECONDS * SECOND

  // The record `id` is active in l and encrypts `key`.
  predicate ActiveIn(v: Vault, l: Ledger, id: string, key: string) {
    var r := GetKey(l, id);
    r.Some? && r.value.status == Active && v.decrypt(r.value.blob) == key
  }

  // At some instant of the past whose clock was at least `since`, the key was active.
  ghost predicate WasActive(v: Vault, past: seq<System>, id: string, key: string, since: Instant) {
    exists j | 0 <= j < |past| :: ActiveIn(v, past[j].sh.ledger, id, key) && since <= past[j].sh.clock
  }

  ghost predicate KeyWasActive(v: Vault, past: seq<System>, key: string, since: Instant) {
    exists id :: WasActive(v, past, id, key, since)
  }

  // What a call in progress may rely on about the past.
  ghost predicate IssuePcTimely(cfg: Config, past: seq<System>, clock: Instant, pc: IssuePc) {
    && (!pc.IssueStart? ==> pc.now <= clock)
    && match pc
       case PutFound(_, now, r) => WasActive(cfg.vault, past, r.id, cfg.vault.decrypt(r.blob), now)
       case PutNew(_, now, r, key) =>
         cfg.vault.decrypt(r.blob) == key && WasActive(cfg.vault, past, r.id, key, now)
       case IssueDone(_, now, out) =>
         out.Ok? ==> WasActive(cfg.vault, past, out.value.keyId, out.value.virtualKey, now - cfg.CacheTtl() + 1)
       case _ => true
  }

  ghost predicate HelperPcTimely(cfg: Config, past: seq<System>, clock: Instant, pc: HelperPc) {
    match pc
    case HelperStart(_, _, _) => true
    case HelperLoad(_, _, _, t) => t <= clock
    case HelperFetch(_, _, t, inner) =>
      IssuePcTimely(cfg, past, clock, inner) && t <= (if inner.IssueStart? then clock else inner.now)
    case HelperStore(_, _, t, key) => KeyWasActive(cfg.vault, past, key, t - cfg.CacheTtl() + 1)
    case HelperDone(t, printed) =>
      printed.Some? ==> KeyWasActive(cfg.vault, past, printed.value, t - HELPER_LAG - cfg.CacheTtl() + 1)
  }

  ghost predicate PcTimely(cfg: Config, past: seq<System>, clock: Instant, pc: Pc) {
    match pc
    case IssueCall(p) => IssuePcTimely(cfg, past, clock, p)
    case HelperCall(p) => HelperPcTimely(cfg, past, clock, p)
    case _ => true
  }

  // A cache entry outlives its key's last sighting by at most the service's TTL.
  ghost predicate EntryTimely(cfg: Config, past: seq<System>, e: CacheEntry) {
    WasActive(cfg.vault, past, e.keyId, cfg.vault.decrypt(e.keyRef), e.ttl * SECOND - cfg.CacheTtl())
  }

  // A helper file outlives it by at most both TTLs.
  ghost predicate FileTimely(cfg: Config, past: seq<System>, f: HelperFile) {
    KeyWasActive(cfg.vault, past, f.key, f.expires * SECOND - HELPER_LAG - cfg.CacheTtl() + 1)
  }

  ghost predicate SharedTimely(cfg: Config, past: seq<System>, sh: Shared) {
    && (forall u | u in sh.cache :: EntryTimely(cfg, past, sh.cache[u]))
    && (forall f | f in sh.files :: FileTimely(cfg, past, sh.files[f]))
  }

  ghost predicate Timely(cfg: Config, past: seq<System>, s: System) {
    SharedTimely(cfg, past, s.sh) && forall c | c in s.calls :: PcTimely(cfg, past, s.sh.clock, s.calls[c])
  }

  // --- The past only grows ----------------------------------------------------

  lemma WasActiveLater(v: Vault, past: seq<System>, s: System, id: string, key: string, since: Instant,
                       earlier: Instant)
    requires WasActive(v, past, id, key, since) && earlier <= since
    ensures WasActive(v, past + [s], id, key, earlier) && WasActive(v, past, id, key, earlier)
  {
    var j :| 0 <= j < |past| && ActiveIn(v, past[j].sh.ledger, id, key) && since <= past[j].sh.clock;
    assert (past + [s])[j] == past[j];
  }

  lemma KeyWasActiveLater(v: Vault, past: seq<System>, s: System, key: string, since: Instant, earlier: Instant)
    requires KeyWasActive(v, past, key, since) && earlier <= since
    ensures KeyWasActive(v, past + [s], key, earlier) && KeyWasActive(v, past, key, earlier)
  {
    var id :| WasActive(v, past, id, key, since);
    WasActiveLater(v, past, s, id, key, since, earlier);
  }

  lemma ActiveNow(v: Vault, past: seq<System>, id: string, key: string, since: Instant)
    requires past != [] && ActiveIn(v, past[|past|-1].sh.ledger, id, key) && since <= past[|past|-1].sh.clock
    ensures WasActive(v, past, id, key, since)
  {}

  lemma IssuePcTimelyLater(cfg: Config, past: seq<System>, s: System, clock: Instant, pc: IssuePc)
    requires IssuePcTimely(cfg, past, clock, pc) && clock <= s.sh.clock
    ensures IssuePcTimely(cfg, past + [s], s.sh.clock, pc)
  {
    match pc
    case PutFound(_, now, r) => WasActiveLater(cfg.vault, past, s, r.id, cfg.vault.decrypt(r.blob), now, now);
    case PutNew(_, now, r, key) => WasActiveLater(cfg.vault, past, s, r.id, key, now, now);
    case IssueDone(_, now, out) =>
      if out.Ok? {
        var since := now - cfg.CacheTtl() + 1;
        WasActiveLater(cfg.vault, past, s, out.value.keyId, out.value.virtualKey, since, since);
      }
    case _ =>
  }

  lemma PcTimelyLater(cfg: Config, past: seq<System>, s: System, clock: Instant, pc: Pc)
    requires PcTimely(cfg, past, clock, pc) && clock <= s.sh.clock
    ensures PcTimely(cfg, past + [s], s.sh.clock, pc)
  {
    match pc
    case IssueCall(p) => IssuePcTimelyLater(cfg, past, s, clock, p);
    case HelperCall(p) =>
      match p {
       case HelperFetch(_, _, t, inner) => IssuePcTimelyLater(cfg, past, s, clock, inner);
       case HelperStore(_, _, t, key) =>
         var since := t - cfg.CacheTtl() + 1;
         KeyWasActiveLater(cfg.vault, past, s, key, since, since);
       case HelperDone(t, printed) =>
         if printed.Some? {
           var since := t - HELPER_LAG - cfg.CacheTtl() + 1;
           KeyWasActiveLater(cfg.vault, past, s, printed.value, since, since);
         }
       case _ =>
      }
    case _ =>
  }

  lemma SharedTimelyLater(cfg: Config, past: seq<System>, s: System, sh: Shared)
    requires SharedTimely(cfg, past, sh)
    ensures SharedTimely(cfg, past + [s], sh)
  {
    forall u | u in sh.cache ensures EntryTimely(cfg, past + [s], sh.cache[u]) {
      var e := sh.cache[u];
      var since := e.ttl * SECOND - cfg.CacheTtl();
      WasActiveLater(cfg.vault, past, s, e.keyId, cfg.vault.decrypt(e.keyRef), since, since);
    }
    forall f | f in sh.files ensures FileTimely(cfg, past + [s], sh.files[f]) {
      var since := sh.files[f].expires * SECOND - HELPER_LAG - cfg.CacheTtl() + 1;
      KeyWasActiveLater(cfg.vault, past, s, sh.files[f].key, since, since);
    }
  }

  // --- Steps ------------------------------------------------------------------

  lemma EntryForTimely(cfg: Config, past: seq<System>, r: KeyRecord, now: Instant)
    requires WasActive(cfg.vault, past, r.id, cfg.vault.decrypt(r.blob), now)
    ensures EntryTimely(cfg, past, EntryFor(cfg, r, now))
    ensures WasActive(cfg.vault, past, r.id, cfg.vault.decrypt(r.blob), now - cfg.CacheTtl() + 1)
  {
    var key := cfg.vault.decrypt(r.blob);
    var j :| 0 <= j < |past| && ActiveIn(cfg.vault, past[j].sh.ledger, r.id, key) && now <= past[j].sh.clock;
    assert EpochSeconds(now + cfg.CacheTtl()) * SECOND <= now + cfg.CacheTtl();
  }

  lemma ReadCacheTimely(cfg: Config, past: seq<System>, s: System, u: string, now: Instant)
    requires SharedTimely(cfg, past, s.sh) && LiveEntry(s.sh.cache, u, now).Some?
    ensures var e := s.sh.cache[u];
      WasActive(cfg.vault, past, e.keyId, cfg.vault.decrypt(e.keyRef), now - cfg.CacheTtl() + 1)
  {
    var e := s.sh.cache[u];
    LiveBound(s.sh.cache, u, now);
    assert EntryTimely(cfg, past, e);
  }

  // A step whose ledger is the last of the past leaves everything timely in the past extended by its result.
  lemma IssueStepTimely(cfg: Config, past: seq<System>, s: System, pc: IssuePc, id: string, key: string, s': System)
    requires Sound(cfg.vault) && SharedOk(cfg.vault, s.sh) && FreshChoice(cfg.vault, s.sh.ledger, id, key)
    requires past != [] && past[|past|-1] == s
    requires SharedTimely(cfg, past, s.sh) && IssuePcTimely(cfg, past, s.sh.clock, pc)
    requires s'.sh == IssueStep(cfg, s.sh, pc, id, key).0
    ensures SharedTimely(cfg, past + [s'], s'.sh)
    ensures IssuePcTimely(cfg, past + [s'], s'.sh.clock, IssueStep(cfg, s.sh, pc, id, key).1)
  {
    var pc' := IssueStep(cfg, s.sh, pc, id, key).1;
    var past' := past + [s'];
    SharedTimelyLater(cfg, past, s', s.sh);
    IssuePcTimelyLater(cfg, past, s', s.sh.clock, pc);
    match pc
    case ReadCache(u, now) =>
      if LiveEntry(s.sh.cache, u, now).Some? {
        ReadCacheTimely(cfg, past', s, u, now);
      }
    case ReadLedger(u, now, user) =>
      var found := GetActiveKeyForUser(s.sh.ledger, user.id);
      if found.Some? {
        GetKeyOfMember(s.sh.ledger, found.value);
        ActiveNow(cfg.vault, past, found.value.id, cfg.vault.decrypt(found.value.blob), now);
        WasActiveLater(cfg.vault, past, s', found.value.id, cfg.vault.decrypt(found.value.blob), now, now);
      }
    case SaveNew(u, now, user) =>
      SaveFresh(cfg.vault, s.sh.ledger, user.id, id, key, now);
      ActiveNow(cfg.vault, past', id, key, now);
    case PutFound(u, now, r) => EntryForTimely(cfg, past', r, now);
    case PutNew(u, now, r, k) => EntryForTimely(cfg, past', r, now);
    case _ =>
  }

  lemma FileBound(files: map<string, HelperFile>, file: string, t: Instant)
    requires LoadCachedKey(files, file, t).Some?
    ensures t < files[file].expires * SECOND
  {
    assert t / SECOND + 1 <= files[file].expires;
  }

  lemma HelperLoadTimely(cfg: Config, past: seq<System>, sh: Shared, file: string, t: Instant)
    requires SharedTimely(cfg, past, sh) && LoadCachedKey(sh.files, file, t).Some?
    ensures KeyWasActive(cfg.vault, past, sh.files[file].key, t - HELPER_LAG - cfg.CacheTtl() + 1)
  {
    FileBound(sh.files, file, t);
    var f := sh.files[file];
    assert FileTimely(cfg, past, f);
    var since := f.expires * SECOND - HELPER_LAG - cfg.CacheTtl() + 1;
    var id :| WasActive(cfg.vault, past, id, f.key, since);
    assert WasActive(cfg.vault, past, id, f.key, t - HELPER_LAG - cfg.CacheTtl() + 1);
  }

  lemma HelperFetchedTimely(cfg: Config, past: seq<System>, clock: Instant, t: Instant, inner: IssuePc)
    requires IssuePcTimely(cfg, past, clock, inner) && inner.IssueDone? && inner.out.Ok? && t <= inner.now
    ensures KeyWasActive(cfg.vault, past, inner.out.value.virtualKey, t - cfg.CacheTtl() + 1)
  {
    assert WasActive(cfg.vault, past, inner.out.value.keyId, inner.out.value.virtualKey, t - cfg.CacheTtl() + 1);
  }

  lemma HelperStoreTimely(cfg: Config, past: seq<System>, t: Instant, ttl: Option<nat>, key: string)
    requires KeyWasActive(cfg.vault, past, key, t - cfg.CacheTtl() + 1)
    ensures FileTimely(cfg, past, HelperFile(key, EpochSeconds(t) + NormalizeHelperTtl(ttl)))
    ensures KeyWasActive(cfg.vault, past, key, t - HELPER_LAG - cfg.CacheTtl() + 1)
  {
    var f := HelperFile(key, EpochSeconds(t) + NormalizeHelperTtl(ttl));
    assert f.expires * SECOND <= t + HELPER_LAG;
    var id :| WasActive(cfg.vault, past, id, key, t - cfg.CacheTtl() + 1);
    assert WasActive(cfg.vault, past, id, key, f.expires * SECOND - HELPER_LAG - cfg.CacheTtl() + 1);
    assert WasActive(cfg.vault, past, id, key, t - HELPER_LAG - cfg.CacheTtl() + 1);
  }

  lemma HelperStoreStepTimely(cfg: Config, past: seq<System>, s: System, pc: HelperPc, s': System)
    requires pc.HelperStore? && HelperPcTimely(cfg, past, s.sh.clock, pc)
    requires SharedTimely(cfg, past + [s'], s.sh)
    requires s'.sh == HelperStep(cfg, s.sh, pc, "", "").0
    ensures SharedTimely(cfg, past + [s'], s'.sh)
    ensures KeyWasActive(cfg.vault, past + [s'], pc.key, pc.t - HELPER_LAG - cfg.CacheTtl() + 1)
  {
    KeyWasActiveLater(cfg.vault, past, s', pc.key, pc.t - cfg.CacheTtl() + 1, pc.t - cfg.CacheTtl() + 1);
    HelperStoreTimely(cfg, past + [s'], pc.t, pc.ttl, pc.key);
  }

  lemma HelperStepTimely(cfg: Config, past: seq<System>, s: System, pc: HelperPc, id: string, key: string, s': System)
    requires Sound(cfg.vault) && SharedOk(cfg.vault, s.sh) && FreshChoice(cfg.vault, s.sh.ledger, id, key)
    requires past != [] && past[|past|-1] == s
    requires SharedTimely(cfg, past, s.sh) && HelperPcTimely(cfg, past, s.sh.clock, pc)
    requires s'.sh == HelperStep(cfg, s.sh, pc, id, key).0
    ensures SharedTimely(cfg, past + [s'], s'.sh)
    ensures HelperPcTimely(cfg, past + [s'], s'.sh.clock, HelperStep(cfg, s.sh, pc, id, key).1)
  {
    if pc.HelperFetch? && !pc.inner.IssueDone? {
      IssueStepTimely(cfg, past, s, pc.inner, id, key, s');
    } else {
      SharedTimelyLater(cfg, past, s', s.sh);
      HelperOwnStepTimely(cfg, past, s, pc, id, key, s');
    }
  }

  lemma HelperLoadStepTimely(cfg: Config, past: seq<System>, s: System, pc: HelperPc, id: string, key: string,
                             s': System)
    requires pc.HelperLoad? && SharedTimely(cfg, past + [s'], s.sh) && HelperPcTimely(cfg, past, s.sh.clock, pc)
    requires s'.sh == HelperStep(cfg, s.sh, pc, id, key).0
    ensures SharedTimely(cfg, past + [s'], s'.sh)
    ensures HelperPcTimely(cfg, past + [s'], s'.sh.clock, HelperStep(cfg, s.sh, pc, id, key).1)
  {
    if LoadCachedKey(s.sh.files, pc.file, pc.t).Some? { HelperLoadTimely(cfg, past + [s'], s.sh, pc.file, pc.t); }
  }

  lemma HelperFetchedStepTimely(cfg: Config, past: seq<System>, s: System, pc: HelperPc, id: string, key: string,
                                s': System)
    requires pc.HelperFetch? && pc.inner.IssueDone?
    requires SharedTimely(cfg, past + [s'], s.sh) && HelperPcTimely(cfg, past, s.sh.clock, pc)
    requires s'.sh == HelperStep(cfg, s.sh, pc, id, key).0
    ensures SharedTimely(cfg, past + [s'], s'.sh)
    ensures HelperPcTimely(cfg, past + [s'], s'.sh.clock, HelperStep(cfg, s.sh, pc, id, key).1)
  {
    if pc.inner.out.Ok? {
      IssuePcTimelyLater(cfg, past, s', s.sh.clock, pc.inner);
      HelperFetchedTimely(cfg, past + [s'], s'.sh.clock, pc.t, pc.inner);
    }
  }

  // The helper's own steps, outside the token service.
  lemma HelperOwnStepTimely(cfg: Config, past: seq<System>, s: System, pc: HelperPc, id: string, key: string,
                            s': System)
    requires !(pc.HelperFetch? && !pc.inner.IssueDone?)
    requires SharedTimely(cfg, past + [s'], s.sh) && HelperPcTimely(cfg, past, s.sh.clock, pc)
    requires s'.sh == HelperStep(cfg, s.sh, pc, id, key).0
    ensures SharedTimely(cfg, past + [s'], s'.sh)
    ensures HelperPcTimely(cfg, past + [s'], s'.sh.clock, HelperStep(cfg, s.sh, pc, id, key).1)
  {
    match pc
    case HelperLoad(_, _, _, _) => HelperLoadStepTimely(cfg, past, s, pc, id, key, s');
    case HelperFetch(_, _, _, _) => HelperFetchedStepTimely(cfg, past, s, pc, id, key, s');
    case HelperStore(file, ttl, t, k) => HelperStoreStepTimely(cfg, past, s, pc, s');
    case HelperDone(t, printed) => PcTimelyLater(cfg, past, s', s.sh.clock, HelperCall(pc));
    case HelperStart(_, _, _) =>
  }

  // Steps of revoke, disable, rotate and authenticate put nothing in the cache or a file.
  lemma OtherStepFrame(cfg: Config, sh: Shared, pc: Pc, id: string, key: string)
    requires !pc.IssueCall? && !pc.HelperCall?
    ensures var (sh', pc') := Step(cfg, sh, pc, id, key);
            && sh'.files == sh.files && sh'.clock == sh.clock && !pc'.IssueCall? && !pc'.HelperCall?
            && (forall u | u in sh'.cache :: u in sh.cache && sh'.cache[u] == sh.cache[u])
  {}

  lemma OtherStepTimely(cfg: Config, past: seq<System>, s: System, pc: Pc, id: string, key: string, s': System)
    requires !pc.IssueCall? && !pc.HelperCall?
    requires SharedTimely(cfg, past, s.sh) && s'.sh == Step(cfg, s.sh, pc, id, key).0
    ensures SharedTimely(cfg, past + [s'], s'.sh) && s'.sh.clock == s.sh.clock
    ensures PcTimely(cfg, past + [s'], s'.sh.clock, Step(cfg, s.sh, pc, id, key).1)
  {
    SharedTimelyLater(cfg, past, s', s.sh);
    OtherStepFrame(cfg, s.sh, pc, id, key);
  }

  lemma AdvanceTimely(cfg: Config, past: seq<System>, s: System, a: Action)
    requires Sound(cfg.vault) && Inv(cfg.vault, s) && Enabled(cfg, s, a) && a.Advance?
    requires past != [] && past[|past|-1] == s && Timely(cfg, past, s)
    ensures var s' := Apply(cfg, s, a);
            SharedTimely(cfg, past + [s'], s'.sh) && PcTimely(cfg, past + [s'], s'.sh.clock, s'.calls[a.c])
            && s.sh.clock == s'.sh.clock
  {
    var s' := Apply(cfg, s, a);
    assert PcTimely(cfg, past, s.sh.clock, s.calls[a.c]);
    assert s'.sh == Step(cfg, s.sh, s.calls[a.c], a.id, a.key).0;
    match s.calls[a.c]
    case IssueCall(p) => IssueStepTimely(cfg, past, s, p, a.id, a.key, s');
    case HelperCall(p) => HelperStepTimely(cfg, past, s, p, a.id, a.key, s');
    case AdminCall(p) => OtherStepTimely(cfg, past, s, AdminCall(p), a.id, a.key, s');
    case AuthCall(p) => OtherStepTimely(cfg, past, s, AuthCall(p), a.id, a.key, s');
  }

  lemma ApplyTimely(cfg: Config, past: seq<System>, s: System, a: Action)
    requires Sound(cfg.vault) && Inv(cfg.vault, s) && Enabled(cfg, s, a)
    requires past != [] && past[|past|-1] == s && Timely(cfg, past, s)
    ensures Timely(cfg, past + [Apply(cfg, s, a)], Apply(cfg, s, a))
  {
    var s' := Apply(cfg, s, a);
    if a.Advance? {
      AdvanceTimely(cfg, past, s, a);
    } else {
      SharedTimelyLater(cfg, past, s', s.sh);
    }
    forall c | c in s'.calls ensures PcTimely(cfg, past + [s'], s'.sh.clock, s'.calls[c]) {
      if !(a.Advance? && c == a.c) && c in s.calls {
        PcTimelyLater(cfg, past, s', s.sh.clock, s.calls[c]);
      }
    }
  }

  lemma {:induction false} RunTimely(cfg: Config, states: seq<System>, acts: seq<Action>, i: nat)
    requires IsRun(cfg, states, acts) && i < |states|
    ensures Timely(cfg, states[..i+1], states[i])
  {
    if i > 0 {
      RunTimely(cfg, states, acts, i - 1);
      RunOk(cfg, states, acts, i - 1);
      assert IsStep(cfg, states, acts, i - 1);
      ApplyTimely(cfg, states[..i], states[i-1], acts[i-1]);
      assert states[..i+1] == states[..i] + [states[i]];
    }
  }

  // --- Main results -----------------------------------------------------------

  // In every run, a key returned by get_or_create_key at clock reading t, from the cache or
  // not, was active in the ledger at an instant r of the run with t < r + the cache TTL,
  // which is at most an hour.
  lemma ServiceStalenessBound(cfg: Config, states: seq<System>, acts: seq<Action>, i: nat, c: nat) returns (j: nat)
    requires IsRun(cfg, states, acts) && i < |states|
    requires c in states[i].calls && states[i].calls[c].IssueCall?
    requires states[i].calls[c].issue.IssueDone? && states[i].calls[c].issue.out.Ok?
    ensures j <= i
    ensures var t, res := states[i].calls[c].issue.now, states[i].calls[c].issue.out.value;
            && ActiveIn(cfg.vault, states[j].sh.ledger, res.keyId, res.virtualKey)
            && t < states[j].sh.clock + cfg.CacheTtl() <= states[j].sh.clock + MAX_CACHE_TTL
  {
    RunTimely(cfg, states, acts, i);
    var past := states[..i+1];
    var res, since := states[i].calls[c].issue.out.value, states[i].calls[c].issue.now - cfg.CacheTtl() + 1;
    assert PcTimely(cfg, past, states[i].sh.clock, states[i].calls[c]);
    j :| j < |past| && ActiveIn(cfg.vault, past[j].sh.ledger, res.keyId, res.virtualKey) && since <= past[j].sh.clock;
  }

  // In every run, a key printed by the shell helper, from its file or fetched, was active in
  // the ledger at an instant r with t < r + 4500 seconds, where t is the helper's clock reading.
  lemma HelperStalenessBound(cfg: Config, states: seq<System>, acts: seq<Action>, i: nat, c: nat)
    returns (j: nat, id: string)
    requires IsRun(cfg, states, acts) && i < |states|
    requires c in states[i].calls && states[i].calls[c].HelperCall?
    requires states[i].calls[c].helper.HelperDone? && states[i].calls[c].helper.printed.Some?
    ensures j <= i
    ensures var t, key := states[i].calls[c].helper.t, states[i].calls[c].helper.printed.value;
            && ActiveIn(cfg.vault, states[j].sh.ledger, id, key)
            && t < states[j].sh.clock + cfg.CacheTtl() + HELPER_LAG <= states[j].sh.clock + 4500 * SECOND
  {
    RunTimely(cfg, states, acts, i);
    var past := states[..i+1];
    var t, key := states[i].calls[c].helper.t, states[i].calls[c].helper.printed.value;
    assert PcTimely(cfg, past, states[i].sh.clock, states[i].calls[c]);
    var since := t - HELPER_LAG - cfg.CacheTtl() + 1;
    id :| WasActive(cfg.vault, past, id, key, since);
    j :| j < |past| && ActiveIn(cfg.vault, past[j].sh.ledger, id, key) && since <= past[j].sh.clock;
  }
}
