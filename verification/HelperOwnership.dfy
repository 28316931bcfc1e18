// Whose key the shell helper prints, when a cache file is used for one user only.
module HelperOwnership {
  import opened Wrappers
  import opened KeyLedger
  import opened ProxyAuth
  import opened IssueService
  import opened KeyProtocol
  import opened KeySafety

  // The ledger has a record of u that holds this key.
  predicate KeyOf(v: Vault, l: Ledger, key: string, u: string) {
    exists r | r in l :: r.userId == u && v.decrypt(r.blob) == key
  }

  lemma KeyOfLater(v: Vault, l: Ledger, l': Ledger, key: string, u: string)
    requires Distinct(l) && Extends(l, l') && KeyOf(v, l, key, u)
    ensures KeyOf(v, l', key, u)
  {
    var r :| r in l && r.userId == u && v.decrypt(r.blob) == key;
    GetKeyOfMember(l, r);
    var r' := GetKey(l', r.id).value;
    assert r' in l' && r'.userId == u && r'.blob == r.blob;
  }

  // The cache file a helper call works on, until it has printed.
  function FileOf(pc: Pc): Option<string> {
    match pc
    case HelperCall(HelperStart(_, file, _)) => Some(file)
    case HelperCall(HelperLoad(_, file, _, _)) => Some(file)
    case HelperCall(HelperFetch(file, _, _, _)) => Some(file)
    case HelperCall(HelperStore(file, _, _, _)) => Some(file)
    case _ => None
  }

  // A helper call works for u.
  predicate WorksFor(v: Vault, l: Ledger, pc: Pc, u: string) {
    match pc
    case HelperCall(HelperStart(w, _, _)) => w == u
    case HelperCall(HelperLoad(w, _, _, _)) => w == u
    case HelperCall(HelperFetch(_, _, _, inner)) => inner.u == u
    case HelperCall(HelperStore(_, _, _, key)) => KeyOf(v, l, key, u)
    case _ => true
  }

  // The file and every call on it belong to u.
  ghost predicate FileIsOf(v: Vault, s: System, file: string, u: string) {
    && (file in s.sh.files ==> KeyOf(v, s.sh.ledger, s.sh.files[file].key, u))
    && forall c | c in s.calls && FileOf(s.calls[c]) == Some(file) :: WorksFor(v, s.sh.ledger, s.calls[c], u)
  }

  // Helpers started on the file are started for u.
  predicate StartsFor(a: Action, file: string, u: string) {
    a.Spawn? && a.pc.HelperCall? && a.pc.helper.HelperStart? && a.pc.helper.file == file ==> a.pc.helper.u == u
  }

  // The key a helper step prints.
  function PrintedBy(cfg: Config, s: System, a: Action): Option<string> {
    if a.Advance? && a.c in s.calls && FileOf(s.calls[a.c]).Some? then
      match Step(cfg, s.sh, s.calls[a.c], a.id, a.key).1
      case HelperCall(HelperDone(_, printed)) => printed
      case _ => None
    else None
  }

  lemma WorksLater(v: Vault, l: Ledger, l': Ledger, pc: Pc, u: string)
    requires Distinct(l) && Extends(l, l') && WorksFor(v, l, pc, u)
    ensures WorksFor(v, l', pc, u)
  {
    if pc.HelperCall? && pc.helper.HelperStore? { KeyOfLater(v, l, l', pc.helper.key, u); }
  }

  lemma IssueKeepsUser(cfg: Config, sh: Shared, p: IssuePc, id: string, key: string)
    ensures IssueStep(cfg, sh, p, id, key).1.u == p.u
  {
  }

  // A helper's own step on the file: it goes on for u, and what it stores or prints is a key of u.
  lemma HelperStepOwned(cfg: Config, s: System, a: Action, file: string, u: string)
    requires Sound(cfg.vault) && Inv(cfg.vault, s) && Enabled(cfg, s, a) && FileIsOf(cfg.vault, s, file, u)
    requires a.Advance? && FileOf(s.calls[a.c]) == Some(file)
    ensures var (sh', pc') := Step(cfg, s.sh, s.calls[a.c], a.id, a.key);
      && WorksFor(cfg.vault, sh'.ledger, pc', u)
      && (file in sh'.files ==> KeyOf(cfg.vault, sh'.ledger, sh'.files[file].key, u))
      && (PrintedBy(cfg, s, a).Some? ==> KeyOf(cfg.vault, sh'.ledger, PrintedBy(cfg, s, a).value, u))
  {
    var v, pc := cfg.vault, s.calls[a.c];
    assert PcOk(v, s.sh.ledger, pc) && WorksFor(v, s.sh.ledger, pc, u);
    StepOk(cfg, s.sh, pc, a.id, a.key);
    if file in s.sh.files {
      KeyOfLater(v, s.sh.ledger, Step(cfg, s.sh, pc, a.id, a.key).0.ledger, s.sh.files[file].key, u);
    }
    if pc.helper.HelperFetch? {
      IssueKeepsUser(cfg, s.sh, pc.helper.inner, a.id, a.key);
      if pc.helper.inner.IssueDone? && pc.helper.inner.out.Ok? {
        var res := pc.helper.inner.out.value;
        assert ResultOk(v, s.sh.ledger, u, res);
        assert GetKey(s.sh.ledger, res.keyId).value in s.sh.ledger;
      }
    }
  }

  // A step that is not a helper's on this file leaves the file, or removes it.
  lemma OtherStepKeepsFile(cfg: Config, s: System, a: Action, file: string)
    requires Enabled(cfg, s, a) && !(a.Advance? && FileOf(s.calls[a.c]) == Some(file))
    ensures file in Apply(cfg, s, a).sh.files ==>
      file in s.sh.files && Apply(cfg, s, a).sh.files[file] == s.sh.files[file]
  {
  }

  // Every call on the file but the one that moves is as it was, or has just started.
  lemma OtherCallsWork(cfg: Config, s: System, a: Action, file: string, u: string, c: nat)
    requires Sound(cfg.vault) && Inv(cfg.vault, s) && Enabled(cfg, s, a) && StartsFor(a, file, u)
    requires FileIsOf(cfg.vault, s, file, u) && c in Apply(cfg, s, a).calls && !(a.Advance? && a.c == c)
    requires FileOf(Apply(cfg, s, a).calls[c]) == Some(file)
    ensures WorksFor(cfg.vault, Apply(cfg, s, a).sh.ledger, Apply(cfg, s, a).calls[c], u)
  {
    if c in s.calls {
      assert Apply(cfg, s, a).calls[c] == s.calls[c];
      ApplyOk(cfg, s, a);
      WorksLater(cfg.vault, s.sh.ledger, Apply(cfg, s, a).sh.ledger, s.calls[c], u);
    } else {
      assert a == Spawn(c, Apply(cfg, s, a).calls[c]);
    }
  }

  lemma MoverKeepsFileOf(cfg: Config, s: System, a: Action, file: string)
    requires Enabled(cfg, s, a) && a.Advance? && FileOf(Apply(cfg, s, a).calls[a.c]) == Some(file)
    ensures FileOf(s.calls[a.c]) == Some(file)
  {
  }

  lemma ApplyFileIsOf(cfg: Config, s: System, a: Action, file: string, u: string)
    requires Sound(cfg.vault) && Inv(cfg.vault, s) && Enabled(cfg, s, a) && StartsFor(a, file, u)
    requires FileIsOf(cfg.vault, s, file, u)
    ensures FileIsOf(cfg.vault, Apply(cfg, s, a), file, u)
  {
    var v, s' := cfg.vault, Apply(cfg, s, a);
    ApplyOk(cfg, s, a);
    if a.Advance? && FileOf(s.calls[a.c]) == Some(file) {
      HelperStepOwned(cfg, s, a, file, u);
    } else if file in s.sh.files {
      OtherStepKeepsFile(cfg, s, a, file);
      KeyOfLater(v, s.sh.ledger, s'.sh.ledger, s.sh.files[file].key, u);
    } else {
      OtherStepKeepsFile(cfg, s, a, file);
    }
    forall c | c in s'.calls && FileOf(s'.calls[c]) == Some(file) ensures WorksFor(v, s'.sh.ledger, s'.calls[c], u) {
      if a.Advance? && a.c == c { MoverKeepsFileOf(cfg, s, a, file); } else { OtherCallsWork(cfg, s, a, file, u, c); }
    }
  }

  lemma {:induction false} RunFileIsOf(cfg: Config, states: seq<System>, acts: seq<Action>, i: nat,
                                       file: string, u: string)
    requires IsRun(cfg, states, acts) && i < |states|
    requires forall k | 0 <= k < |acts| :: StartsFor(acts[k], file, u)
    ensures FileIsOf(cfg.vault, states[i], file, u)
  {
    if i > 0 {
      RunFileIsOf(cfg, states, acts, i - 1, file, u);
      RunOk(cfg, states, acts, i - 1);
      assert IsStep(cfg, states, acts, i - 1);
      ApplyFileIsOf(cfg, states[i-1], acts[i-1], file, u);
    }
  }

  // In every run in which helpers use a file for u only, what they print from it or fetch for it is a key of u.
  lemma PrintedKeyIsTheUsers(cfg: Config, states: seq<System>, acts: seq<Action>, i: nat, file: string, u: string)
    requires IsRun(cfg, states, acts) && i < |acts|
    requires forall k | 0 <= k < |acts| :: StartsFor(acts[k], file, u)
    requires PrintedBy(cfg, states[i], acts[i]).Some? && FileOf(states[i].calls[acts[i].c]) == Some(file)
    ensures KeyOf(cfg.vault, states[i+1].sh.ledger, PrintedBy(cfg, states[i], acts[i]).value, u)
  {
    RunOk(cfg, states, acts, i);
    RunFileIsOf(cfg, states, acts, i, file, u);
    assert IsStep(cfg, states, acts, i);
    HelperStepOwned(cfg, states[i], acts[i], file, u);
  }
}
