// The shell helper from start to end: what it prints, and what it leaves in its file.
module HelperRuns {
  import opened Wrappers
  import opened KeyLedger
  import opened ProxyAuth
  import opened IssueService
  import opened KeyProtocol

  // The file holds a virtual key that has not expired at t.
  predicate HoldsFresh(files: map<string, HelperFile>, file: string, t: Instant) {
    file in files && "vk_" <= files[file].key && t < files[file].expires * 1_000_000
  }

  // Five to fifteen minutes, and five if nothing sensible is asked for.
  function AllowedTtl(ttl: Option<nat>): int {
    if ttl.None? || ttl.value < 300 then 300 else if ttl.value > 900 then 900 else ttl.value
  }

  // The file holds the key until the allowed time after the second in which t lies.
  predicate FileSays(f: HelperFile, key: string, t: Instant, ttl: Option<nat>) {
    && f.key == key
    && (f.expires - AllowedTtl(ttl)) * 1_000_000 <= t < (f.expires - AllowedTtl(ttl) + 1) * 1_000_000
  }

  predicate IsVirtualKey(out: IssueOutcome) { out.Ok? && "vk_" <= out.value.virtualKey }

  // Everything is as before but the file, which holds the key.
  ghost predicate Stores(before: Shared, after: Shared, file: string, key: string, t: Instant, ttl: Option<nat>) {
    && file in after.files && FileSays(after.files[file], key, t, ttl)
    && after == before.(files := before.files[file := after.files[file]])
  }

  // --- One step, in any state -------------------------------------------------

  // What a step of the helper other than one of its token request does.
  ghost predicate HelperSays(before: Shared, pc: HelperPc, after: Shared, next: HelperPc) {
    match pc
    case HelperStart(u, file, ttl) => after == before && next == HelperLoad(u, file, ttl, before.clock)
    case HelperLoad(u, file, ttl, t) =>
      && after == before
      && (if HoldsFresh(before.files, file, t) then next == HelperDone(t, Some(before.files[file].key))
          else next == HelperFetch(file, ttl, t, IssueStart(u)))
    case HelperFetch(file, ttl, t, inner) =>
      inner.IssueDone? ==>
        && after == before
        && (if IsVirtualKey(inner.out) then next == HelperStore(file, ttl, t, inner.out.value.virtualKey)
            else next == HelperDone(t, None))
    case HelperStore(file, ttl, t, key) =>
      Stores(before, after, file, key, t, ttl) && next == HelperDone(t, Some(key))
    case HelperDone(_, _) => after == before && next == pc
  }

  lemma HelperStepSays(cfg: Config, sh: Shared, pc: HelperPc, id: string, key: string)
    ensures var (sh', pc') := HelperStep(cfg, sh, pc, id, key); HelperSays(sh, pc, sh', pc')
  {
  }

  // --- A run that is not interrupted ------------------------------------------

  function RunHelper(cfg: Config, sh: Shared, pc: HelperPc, id: string, key: string, n: nat): (Shared, HelperPc)
    decreases n
  {
    if n == 0 then (sh, pc)
    else var (sh', pc') := HelperStep(cfg, sh, pc, id, key); RunHelper(cfg, sh', pc', id, key, n - 1)
  }

  lemma HelperSteps(cfg: Config, sh: Shared, pc: HelperPc, id: string, key: string, n: nat)
    requires n > 0
    ensures var (sh', pc') := HelperStep(cfg, sh, pc, id, key);
      RunHelper(cfg, sh, pc, id, key, n) == RunHelper(cfg, sh', pc', id, key, n - 1)
  {
  }

  lemma {:induction false} HelperStays(cfg: Config, sh: Shared, pc: HelperPc, id: string, key: string, n: nat)
    requires pc.HelperDone?
    ensures RunHelper(cfg, sh, pc, id, key, n) == (sh, pc)
    decreases n
  {
    if n > 0 { HelperStays(cfg, sh, pc, id, key, n - 1); }
  }

  // What the helper makes of the token service's answer.
  ghost predicate Delivers(before: Shared, after: Shared, file: string, ttl: Option<nat>, t: Instant,
                           out: IssueOutcome, printed: Option<string>)
  {
    if IsVirtualKey(out) then
      printed == Some(out.value.virtualKey) && Stores(before, after, file, out.value.virtualKey, t, ttl)
    else printed == None && after == before
  }

  // Once the answer is there, two steps are enough.
  lemma FetchEnds(cfg: Config, sh: Shared, file: string, ttl: Option<nat>, t: Instant, inner: IssuePc, id: string,
                  key: string, n: nat)
    requires inner.IssueDone? && n >= 2
    ensures var (sh', pc') := RunHelper(cfg, sh, HelperFetch(file, ttl, t, inner), id, key, n);
      pc'.HelperDone? && pc'.t == t && Delivers(sh, sh', file, ttl, t, inner.out, pc'.printed)
  {
    var pc := HelperFetch(file, ttl, t, inner);
    HelperSteps(cfg, sh, pc, id, key, n);
    HelperStepSays(cfg, sh, pc, id, key);
    var (sh1, pc1) := HelperStep(cfg, sh, pc, id, key);
    if pc1.HelperDone? {
      HelperStays(cfg, sh1, pc1, id, key, n - 1);
    } else {
      HelperSteps(cfg, sh1, pc1, id, key, n - 1);
      HelperStepSays(cfg, sh1, pc1, id, key);
      var (sh2, pc2) := HelperStep(cfg, sh1, pc1, id, key);
      HelperStays(cfg, sh2, pc2, id, key, n - 2);
    }
  }

  // The helper waits for its token request.
  lemma {:induction false} FetchRuns(cfg: Config, sh: Shared, file: string, ttl: Option<nat>, t: Instant,
                                     inner: IssuePc, id: string, key: string, m: nat, n: nat)
    requires RunIssue(cfg, sh, inner, id, key, m).1.IssueDone? && n >= m + 2
    ensures var (sh1, done) := RunIssue(cfg, sh, inner, id, key, m);
      var (sh', pc') := RunHelper(cfg, sh, HelperFetch(file, ttl, t, inner), id, key, n);
      pc'.HelperDone? && pc'.t == t && Delivers(sh1, sh', file, ttl, t, done.out, pc'.printed)
    decreases m
  {
    if inner.IssueDone? {
      IssueStays(cfg, sh, inner, id, key, m);
      FetchEnds(cfg, sh, file, ttl, t, inner, id, key, n);
    } else {
      IssueSteps(cfg, sh, inner, id, key, m);
      HelperSteps(cfg, sh, HelperFetch(file, ttl, t, inner), id, key, n);
      var (sh1, next) := IssueStep(cfg, sh, inner, id, key);
      FetchRuns(cfg, sh1, file, ttl, t, next, id, key, m - 1, n - 1);
    }
  }

  // The whole helper. With a fresh key in its file it prints that key and touches nothing. Otherwise it asks the token
  // service: it prints the virtual key it is given and leaves it in the file, or it prints nothing.
  lemma HelperRunExactly(cfg: Config, sh: Shared, u: string, file: string, ttl: Option<nat>, id: string, key: string)
    ensures var (sh', pc') := RunHelper(cfg, sh, HelperStart(u, file, ttl), id, key, 10);
      var (s, out) := GetOrCreate(cfg, KeyProtocol.Stores(sh), u, sh.clock, id, key);
      && pc'.HelperDone? && pc'.t == sh.clock
      && (if HoldsFresh(sh.files, file, sh.clock) then sh' == sh && pc'.printed == Some(sh.files[file].key)
          else Delivers(WithStores(sh, s), sh', file, ttl, sh.clock, out, pc'.printed))
  {
    var t := sh.clock;
    HelperSteps(cfg, sh, HelperStart(u, file, ttl), id, key, 10);
    HelperSteps(cfg, sh, HelperLoad(u, file, ttl, t), id, key, 9);
    HelperStepSays(cfg, sh, HelperLoad(u, file, ttl, t), id, key);
    if HoldsFresh(sh.files, file, t) {
      HelperStays(cfg, sh, HelperDone(t, Some(sh.files[file].key)), id, key, 8);
    } else {
      SoloIssueIsAtomic(cfg, sh, u, id, key);
      FetchRuns(cfg, sh, file, ttl, t, IssueStart(u), id, key, 6, 8);
    }
  }

  // A later helper on the same file prints the same key and asks nobody, as long as the file is left alone, for the
  // allowed time after the second of the first.
  lemma SecondRunPrintsTheSame(cfg: Config, sh: Shared, u: string, file: string, ttl: Option<nat>, id: string,
                               key: string, later: Shared, v: string, ttl2: Option<nat>, id2: string, key2: string)
    requires !HoldsFresh(sh.files, file, sh.clock)
    requires var (sh', pc') := RunHelper(cfg, sh, HelperStart(u, file, ttl), id, key, 10);
      && pc'.HelperDone? && pc'.printed.Some?
      && file in later.files && file in sh'.files && later.files[file] == sh'.files[file]
    requires later.clock < (sh.clock / 1_000_000 + AllowedTtl(ttl)) * 1_000_000
    ensures var printed := RunHelper(cfg, sh, HelperStart(u, file, ttl), id, key, 10).1.printed;
      RunHelper(cfg, later, HelperStart(v, file, ttl2), id2, key2, 10) == (later, HelperDone(later.clock, printed))
  {
    HelperRunExactly(cfg, sh, u, file, ttl, id, key);
    var sh' := RunHelper(cfg, sh, HelperStart(u, file, ttl), id, key, 10).0;
    assert sh.clock / 1_000_000 == sh'.files[file].expires - AllowedTtl(ttl);
    HelperRunExactly(cfg, later, v, file, ttl2, id2, key2);
  }

  // --- Any run ----------------------------------------------------------------

  // Step i of a run moves the helper call c.
  predicate Moves(states: seq<System>, acts: seq<Action>, i: int, c: nat) {
    && 0 <= i < |acts| && |states| == |acts| + 1
    && acts[i].Advance? && acts[i].c == c && c in states[i].calls && states[i].calls[c].HelperCall?
  }

  // At step i call c has been given the key by the token service.
  predicate ReceivesAt(states: seq<System>, acts: seq<Action>, i: int, c: nat, t: Instant, key: string) {
    && Moves(states, acts, i, c)
    && var pc := states[i].calls[c].helper;
       && pc.HelperFetch? && pc.t == t && pc.inner.IssueDone?
       && IsVirtualKey(pc.inner.out) && pc.inner.out.value.virtualKey == key
  }

  ghost predicate Received(states: seq<System>, acts: seq<Action>, j: nat, c: nat, t: Instant, key: string) {
    exists i | 0 <= i < j :: ReceivesAt(states, acts, i, c, t, key)
  }

  // At step i call c prints the key: a fresh one read from its file, or one it was given and leaves there.
  ghost predicate PrintsAt(states: seq<System>, acts: seq<Action>, i: int, c: nat, t: Instant, key: string) {
    && Moves(states, acts, i, c)
    && match states[i].calls[c].helper
       case HelperLoad(_, file, _, now) =>
         && now == t && HoldsFresh(states[i].sh.files, file, t) && states[i].sh.files[file].key == key
         && states[i+1].sh == states[i].sh
       case HelperStore(file, ttl, now, k) =>
         && now == t && k == key && Received(states, acts, i, c, t, key)
         && Stores(states[i].sh, states[i+1].sh, file, key, t, ttl)
       case _ => false
  }

  predicate RefusedAt(states: seq<System>, acts: seq<Action>, i: int, c: nat, t: Instant) {
    && Moves(states, acts, i, c)
    && var pc := states[i].calls[c].helper;
       pc.HelperFetch? && pc.t == t && pc.inner.IssueDone? && !IsVirtualKey(pc.inner.out)
  }

  ghost predicate Printed(states: seq<System>, acts: seq<Action>, j: nat, c: nat, t: Instant, key: string) {
    exists i | 0 <= i < j :: PrintsAt(states, acts, i, c, t, key)
  }

  ghost predicate Refused(states: seq<System>, acts: seq<Action>, j: nat, c: nat, t: Instant) {
    exists i | 0 <= i < j :: RefusedAt(states, acts, i, c, t)
  }

  // Where the state of a helper call comes from.
  ghost predicate Explained(states: seq<System>, acts: seq<Action>, j: nat, c: nat, pc: HelperPc) {
    && (pc.HelperStore? ==> Received(states, acts, j, c, pc.t, pc.key))
    && (pc.HelperDone? && pc.printed.Some? ==> Printed(states, acts, j, c, pc.t, pc.printed.value))
    && (pc.HelperDone? && pc.printed.None? ==> Refused(states, acts, j, c, pc.t))
  }

  lemma ExplainedLater(states: seq<System>, acts: seq<Action>, j: nat, c: nat, pc: HelperPc)
    requires Explained(states, acts, j, c, pc)
    ensures Explained(states, acts, j + 1, c, pc)
  {
  }

  lemma MoveExplained(cfg: Config, states: seq<System>, acts: seq<Action>, j: nat, c: nat)
    requires IsRun(cfg, states, acts) && Moves(states, acts, j, c)
    requires Explained(states, acts, j, c, states[j].calls[c].helper)
    ensures c in states[j+1].calls && states[j+1].calls[c].HelperCall?
    ensures Explained(states, acts, j + 1, c, states[j+1].calls[c].helper)
  {
    var s, a, pc := states[j], acts[j], states[j].calls[c].helper;
    assert IsStep(cfg, states, acts, j);
    HelperStepSays(cfg, s.sh, pc, a.id, a.key);
    match pc
    case HelperLoad(_, file, _, t) =>
      if HoldsFresh(s.sh.files, file, t) { assert PrintsAt(states, acts, j, c, t, s.sh.files[file].key); }
    case HelperFetch(_, _, t, inner) =>
      if inner.IssueDone? {
        if IsVirtualKey(inner.out) {
          assert ReceivesAt(states, acts, j, c, t, inner.out.value.virtualKey);
        } else {
          assert RefusedAt(states, acts, j, c, t);
        }
      }
    case HelperStore(_, _, t, key) => assert PrintsAt(states, acts, j, c, t, key);
    case HelperDone(_, _) => ExplainedLater(states, acts, j, c, pc);
    case _ =>
  }

  // In every run a helper that has ended printed a key fresh in its file or one it received and stored, or printed
  // nothing because it was given no virtual key.
  lemma {:induction false} PrintedExactly(cfg: Config, states: seq<System>, acts: seq<Action>, j: nat, c: nat)
    requires IsRun(cfg, states, acts) && j < |states| && c in states[j].calls && states[j].calls[c].HelperCall?
    ensures Explained(states, acts, j, c, states[j].calls[c].helper)
  {
    if j > 0 {
      var s, a := states[j-1], acts[j-1];
      assert IsStep(cfg, states, acts, j - 1);
      if a.Spawn? && a.c == c {
        assert states[j].calls[c].helper.HelperStart?;
      } else {
        assert c in s.calls && s.calls[c].HelperCall?;
        PrintedExactly(cfg, states, acts, j - 1, c);
        if a.Advance? && a.c == c {
          MoveExplained(cfg, states, acts, j - 1, c);
        } else {
          ExplainedLater(states, acts, j - 1, c, s.calls[c].helper);
        }
      }
    }
  }
}
