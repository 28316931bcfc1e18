// The virtual-key records, the ledger that stores them, and the cache table in front of it.
module KeyLedger {
  import opened Wrappers

  // A point in time in microseconds since the epoch.
  type Instant = int

  const SECOND: int := 1_000_000

  // int(moment.timestamp())
  function EpochSeconds(t: Instant): int { t / SECOND }

  datatype KeyStatus = Active | Disabled | Revoked

  datatype KeyRecord = KeyRecord(
    id: string,
    userId: string,
    keyHash: string,
    blob: string,
    prefix: string,
    status: KeyStatus,
    createdAt: Instant,
    expiresAt: Option<Instant>,
    revokedAt: Option<Instant>)

  datatype CacheEntry = CacheEntry(
    userId: string,
    keyId: string,
    keyRef: string,
    prefix: string,
    status: KeyStatus,
    ttl: int)

  datatype User = User(
    id: string,
    email: string,
    groups: seq<string>,
    department: Option<string>,
    proxyAccessEnabled: bool,
    isActive: bool)

  // A dictionary from id to record in insertion order.
  type Ledger = seq<KeyRecord>

  // The position of the record with the given id, or |l| if there is none.
  function IndexOf(l: Ledger, id: string): (k: nat)
    ensures k <= |l|
    ensures k < |l| ==> l[k].id == id
    ensures forall j | 0 <= j < k :: l[j].id != id
  {
    if l == [] || l[0].id == id then 0 else 1 + IndexOf(l[1..], id)
  }

  function GetKey(l: Ledger, id: string): Option<KeyRecord> {
    var k := IndexOf(l, id);
    if k < |l| then Some(l[k]) else None
  }

  function SaveKey(l: Ledger, r: KeyRecord): Ledger {
    var k := IndexOf(l, r.id);
    if k < |l| then l[k := r] else l + [r]
  }

  predicate ActiveFor(u: string, r: KeyRecord) {
    r.userId == u && r.status == Active
  }

  function ActiveKeys(l: Ledger, u: string): (rs: seq<KeyRecord>)
    ensures forall r :: r in rs <==> r in l && ActiveFor(u, r)
  {
    if l == [] then []
    else (if ActiveFor(u, l[0]) then [l[0]] else []) + ActiveKeys(l[1..], u)
  }

  // max(records, key=created_at): on ties the first record wins.
  function Newest(rs: seq<KeyRecord>): (r: KeyRecord)
    requires rs != []
    ensures r in rs
    ensures forall x | x in rs :: x.createdAt <= r.createdAt
  {
    if |rs| == 1 then rs[0]
    else
      var later := Newest(rs[1..]);
      if rs[0].createdAt >= later.createdAt then rs[0] else later
  }

  function GetActiveKeyForUser(l: Ledger, u: string): (r: Option<KeyRecord>)
    ensures r.Some? ==> r.value in l && ActiveFor(u, r.value)
    ensures r.Some? ==> forall x | x in l && ActiveFor(u, x) :: x.createdAt <= r.value.createdAt
    ensures r.None? ==> forall x | x in l :: !ActiveFor(u, x)
  {
    var active := ActiveKeys(l, u);
    if active == [] then None else Some(Newest(active))
  }

  function HashIndex(l: Ledger, h: string): (k: nat)
    ensures k <= |l|
    ensures k < |l| ==> l[k].keyHash == h
    ensures forall j | 0 <= j < k :: l[j].keyHash != h
  {
    if l == [] || l[0].keyHash == h then 0 else 1 + HashIndex(l[1..], h)
  }

  function GetKeyByHash(l: Ledger, h: string): Option<KeyRecord> {
    var k := HashIndex(l, h);
    if k < |l| then Some(l[k]) else None
  }

  // No two records share an id or a hash.
  ghost predicate Distinct(l: Ledger) {
    forall i, j | 0 <= i < j < |l| :: l[i].id != l[j].id && l[i].keyHash != l[j].keyHash
  }

  lemma GetAfterSave(l: Ledger, r: KeyRecord, id: string)
    ensures GetKey(SaveKey(l, r), id) == if id == r.id then Some(r) else GetKey(l, id)
  {
    var l' := SaveKey(l, r);
    var k, k' := IndexOf(l, id), IndexOf(l', id);
    assert forall j | 0 <= j < |l| :: l'[j].id == l[j].id;
    if id == r.id || k < |l| {
      assert l'[k].id == id;
      assert k' == k;
    }
  }

  lemma GetKeyOfMember(l: Ledger, r: KeyRecord)
    requires Distinct(l) && r in l
    ensures GetKey(l, r.id) == Some(r)
    ensures GetKeyByHash(l, r.keyHash) == Some(r)
  {
    var i :| 0 <= i < |l| && l[i] == r;
    assert IndexOf(l, r.id) == i;
    assert HashIndex(l, r.keyHash) == i;
  }

  lemma {:induction false} ActiveKeysConcat(a: Ledger, b: Ledger, u: string)
    ensures ActiveKeys(a + b, u) == ActiveKeys(a, u) + ActiveKeys(b, u)
  {
    if a == [] {
      assert a + b == b;
    } else {
      assert (a + b)[1..] == a[1..] + b;
      ActiveKeysConcat(a[1..], b, u);
    }
  }

  // Replacing one record changes only what that record contributed.
  lemma ActiveKeysUpdate(l: Ledger, k: nat, r: KeyRecord, u: string)
    requires k < |l|
    ensures ActiveKeys(l[k := r], u) == ActiveKeys(l[..k], u) + ActiveKeys([r], u) + ActiveKeys(l[k+1..], u)
  {
    assert l[k := r] == l[..k] + ([r] + l[k+1..]);
    ActiveKeysConcat(l[..k], [r] + l[k+1..], u);
    ActiveKeysConcat([r], l[k+1..], u);
  }

  // A save that concerns no active record of u leaves u's listing alone.
  lemma SaveFrame(l: Ledger, r: KeyRecord, u: string)
    requires !ActiveFor(u, r)
    requires GetKey(l, r.id).Some? ==> !ActiveFor(u, GetKey(l, r.id).value)
    ensures ActiveKeys(SaveKey(l, r), u) == ActiveKeys(l, u)
  {
    var k := IndexOf(l, r.id);
    if k < |l| {
      ActiveKeysUpdate(l, k, r, u);
      ActiveKeysUpdate(l, k, l[k], u);
      assert l[k := l[k]] == l;
      assert ActiveKeys([r], u) == ActiveKeys([l[k]], u) == [];
    } else {
      ActiveKeysConcat(l, [r], u);
    }
  }

  // Saving a record under a new id appends it to its owner's listing.
  lemma SaveNewActive(l: Ledger, r: KeyRecord)
    requires GetKey(l, r.id).None? && r.status == Active
    ensures ActiveKeys(SaveKey(l, r), r.userId) == ActiveKeys(l, r.userId) + [r]
  {
    ActiveKeysConcat(l, [r], r.userId);
  }

  function ActiveCount(l: Ledger, u: string): nat { |ActiveKeys(l, u)| }

  // The PostgreSQL store, as the upsert dictionary the repository's fakes use.
  class KeyStore {
    var records: Ledger

    constructor (initial: Ledger)
      ensures records == initial
    {
      records := initial;
    }

    method Save(r: KeyRecord)
      modifies this
      ensures records == SaveKey(old(records), r)
      ensures GetKey(records, r.id) == Some(r)
      ensures forall id | id != r.id :: GetKey(records, id) == GetKey(old(records), id)
    {
      var k := IndexOf(records, r.id);
      forall id ensures GetKey(SaveKey(records, r), id) == if id == r.id then Some(r) else GetKey(records, id) {
        GetAfterSave(records, r, id);
      }
      if k < |records| {
        records := records[k := r];
      } else {
        records := records + [r];
      }
    }
  }

  type CacheItems = map<string, CacheEntry>

  // The entry for u if it has not expired at `now` and is active.
  function LiveEntry(items: CacheItems, u: string, now: Instant): Option<CacheEntry> {
    if u !in items then None
    else if items[u].ttl <= EpochSeconds(now) then None
    else if items[u].status != Active then None
    else Some(items[u])
  }

  function PutEntry(items: CacheItems, e: CacheEntry): CacheItems { items[e.userId := e] }

  function DropEntry(items: CacheItems, u: string): CacheItems { items - {u} }

  // A live entry is still within its time to live, to the microsecond.
  lemma LiveBound(items: CacheItems, u: string, now: Instant)
    requires LiveEntry(items, u, now).Some?
    ensures now < LiveEntry(items, u, now).value.ttl * SECOND
  {
    assert now / SECOND + 1 <= items[u].ttl;
  }

  // The DynamoDB table keyed by user id.
  class KeyCache {
    var items: CacheItems

    constructor ()
      ensures items == map[]
    {
      items := map[];
    }

    method GetActiveKey(u: string, now: Instant) returns (e: Option<CacheEntry>)
      ensures e == LiveEntry(items, u, now)
      ensures e.Some? <==> u in items && items[u].status == Active && now < items[u].ttl * 1_000_000
      ensures e.Some? ==> e.value == items[u]
    {
      if u !in items { return None; }
      var item := items[u];
      if item.ttl <= EpochSeconds(now) { return None; }
      if item.status != Active { return None; }
      LiveBound(items, u, now);
      e := Some(item);
    }

    method PutActiveKey(e: CacheEntry)
      modifies this
      ensures items == PutEntry(old(items), e) == old(items)[e.userId := e]
    {
      items := items[e.userId := e];
    }

    method InvalidateUser(u: string)
      modifies this
      ensures items == DropEntry(old(items), u) == old(items) - {u}
      ensures forall now :: LiveEntry(items, u, now).None?
    {
      items := items - {u};
    }
  }
}
