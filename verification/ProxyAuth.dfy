// Bearer-token authentication against the ledger (proxy/auth.py) and the key
// functions it relies on (security/keys.py).
module ProxyAuth {
  import opened Wrappers
  import opened KeyLedger

  const VIRTUAL_KEY_PREFIX := "vk_"
  const VISIBLE_KEY_PREFIX_LENGTH := 12

  // The cryptography in use: an encryption service and a hash function.
  datatype Vault = Vault(encrypt: string -> string, decrypt: string -> string, hash: string -> string)

  ghost predicate Sound(v: Vault) {
    && (forall k :: v.decrypt(v.encrypt(k)) == k)
    && (forall a, b :: v.hash(a) == v.hash(b) ==> a == b)
  }

  lemma SomeVaultIsSound() returns (v: Vault)
    ensures Sound(v)
  {
    v := Vault(k => k, k => k, k => k);
  }

  function KeyPrefix(key: string): string {
    if |key| <= VISIBLE_KEY_PREFIX_LENGTH then key else key[..VISIBLE_KEY_PREFIX_LENGTH]
  }

  datatype AuthReason = MissingBearer | MalformedBearer | UnknownKey | InactiveKey | OrphanedKey

  datatype AuthContext = AuthContext(user: User, keyId: string, keyHash: string, prefix: string)

  // str.isspace over the code points str.strip removes.
  predicate IsSpace(c: char) {
    var n := c as int;
    || 0x09 <= n <= 0x0D || 0x1C <= n <= 0x20 || n == 0x85 || n == 0xA0 || n == 0x1680
    || 0x2000 <= n <= 0x200A || n == 0x2028 || n == 0x2029 || n == 0x202F || n == 0x205F || n == 0x3000
  }

  function StripLeft(s: string): string {
    if s != [] && IsSpace(s[0]) then StripLeft(s[1..]) else s
  }

  function StripRight(s: string): string {
    if s != [] && IsSpace(s[|s|-1]) then StripRight(s[..|s|-1]) else s
  }

  function Strip(s: string): string { StripRight(StripLeft(s)) }

  // str.partition(" "): the text before the first space, whether there is one, and the rest.
  function Partition(s: string): (string, bool, string) {
    if s == [] then ([], false, [])
    else if s[0] == ' ' then ([], true, s[1..])
    else var (a, found, b) := Partition(s[1..]); ([s[0]] + a, found, b)
  }

  function ExtractVirtualKey(header: Option<string>): Result<string, AuthReason> {
    if header.None? || Strip(header.value) == [] then Err(MissingBearer)
    else
      var (scheme, found, token) := Partition(header.value);
      if !found || scheme != "Bearer" || Strip(token) == [] then Err(MalformedBearer)
      else if !(VIRTUAL_KEY_PREFIX <= Strip(token)) then Err(MalformedBearer)
      else Ok(Strip(token))
  }

  // The ledger half of authenticate: an active record for the presented key.
  function LookupKey(v: Vault, l: Ledger, header: Option<string>): Result<KeyRecord, AuthReason> {
    var key :- ExtractVirtualKey(header);
    match GetKeyByHash(l, v.hash(key))
    case None => Err(UnknownKey)
    case Some(r) => if r.status != Active then Err(InactiveKey) else Ok(r)
  }

  // The user half of authenticate.
  function RestoreContext(users: map<string, User>, r: KeyRecord): Result<AuthContext, AuthReason> {
    if r.userId !in users then Err(OrphanedKey)
    else Ok(AuthContext(users[r.userId], r.id, r.keyHash, r.prefix))
  }

  function Authenticate(v: Vault, l: Ledger, users: map<string, User>, header: Option<string>):
    Result<AuthContext, AuthReason>
  {
    var r :- LookupKey(v, l, header);
    RestoreContext(users, r)
  }

  // The keys a generator may hand out: prefixed, and not ending in white space.
  predicate WellFormedKey(key: string) {
    VIRTUAL_KEY_PREFIX <= key && !IsSpace(key[|key|-1])
  }

  function BearerHeader(key: string): Option<string> { Some("Bearer " + key) }

  lemma {:induction false} PartitionAt(a: string, b: string)
    requires ' ' !in a
    ensures Partition(a + " " + b) == (a, true, b)
  {
    var s := a + " " + b;
    if a == [] {
      assert s[1..] == b;
    } else {
      assert s[0] == a[0] && s[1..] == a[1..] + " " + b && a == [a[0]] + a[1..];
      PartitionAt(a[1..], b);
    }
  }

  lemma {:induction false} StripShape(s: string)
    ensures s != [] && !IsSpace(s[0]) && !IsSpace(s[|s|-1]) ==> Strip(s) == s
    ensures Strip(s) != [] ==> !IsSpace(Strip(s)[0]) && !IsSpace(Strip(s)[|Strip(s)|-1])
  {
    StripLeftShape(s);
    StripRightShape(StripLeft(s));
  }

  lemma StripLeftShape(s: string)
    ensures StripLeft(s) != [] ==> !IsSpace(StripLeft(s)[0])
  {}

  lemma StripRightShape(s: string)
    ensures StripRight(s) <= s
    ensures StripRight(s) != [] ==> !IsSpace(StripRight(s)[|StripRight(s)|-1])
  {}

  // A key survives the trip through the Authorization header exactly when it is well formed.
  lemma HeaderRoundTrip(key: string)
    ensures ExtractVirtualKey(BearerHeader(key)) == Ok(key) <==> WellFormedKey(key)
  {
    var h := "Bearer " + key;
    assert h == "Bearer" + " " + key;
    PartitionAt("Bearer", key);
    StripShape(key);
    assert StripLeft(h) == h by { assert !IsSpace(h[0]); }
    if Strip(h) == [] {
      if key != [] && !IsSpace(key[|key|-1]) {
        assert false;
      }
    }
  }

  // Every accepted header is "Bearer", one space, and a key padded only with white space.
  lemma ExtractedKeyIsWellFormed(header: Option<string>)
    requires ExtractVirtualKey(header).Ok?
    ensures WellFormedKey(ExtractVirtualKey(header).value)
  {
    var (scheme, found, token) := Partition(header.value);
    StripShape(token);
  }
}
