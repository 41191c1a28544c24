/**
 Names of snapshot objects: the printer that a write ticket uses and the checker that
 guards a commit are exact inverses of each other.
 */
module SnapshotNames {
  import opened Common
  import P = Placement

  datatype ActorKey = ActorKey(namespaceId: string, actorType: string, actorId: string)

  const MAX_NAMESPACE_ID_BYTES: nat := 96
  const MAX_ACTOR_TYPE_BYTES: nat := 48
  const MAX_ACTOR_ID_BYTES: nat := 128

  // ----- decimal numbers ------------------------------------------------------------------

  function Digit(n: nat): (c: char)
    requires n < 10
    ensures '0' <= c <= '9' && c as int - '0' as int == n
  {
    '0' + n as char
  }

  function Decimal(n: nat): (s: string)
    ensures s != [] && forall i :: 0 <= i < |s| ==> '0' <= s[i] <= '9'
  {
    if n < 10 then [Digit(n)] else Decimal(n / 10) + [Digit(n % 10)]
  }

  /** The number a string of digits stands for. */
  function NumberOf(s: string): int {
    if s == [] then 0 else NumberOf(s[..|s| - 1]) * 10 + (s[|s| - 1] as int - '0' as int)
  }

  lemma {:induction false} DecimalRoundTrip(n: nat)
    ensures NumberOf(Decimal(n)) == n
  {
    if n < 10 {
      assert NumberOf([]) == 0;
      assert Decimal(n)[..0] == [];
    } else {
      DecimalRoundTrip(n / 10);
      assert Decimal(n)[..|Decimal(n)| - 1] == Decimal(n / 10);
    }
  }

  function Power(k: nat): nat {
    if k == 0 then 1 else 10 * Power(k - 1)
  }

  lemma {:induction false} DecimalLength(n: nat, k: nat)
    requires k > 0 && n < Power(k)
    ensures |Decimal(n)| <= k
  {
    if n >= 10 {
      DecimalLength(n / 10, k - 1);
    }
  }

  lemma VersionHasTwentyDigits(version: nat)
    requires version <= U64_MAX
    ensures |Decimal(version)| <= 20
  {
    assert Power(4) == 10_000;
    assert Power(8) == 10_000 * Power(4);
    assert Power(12) == 10_000 * Power(8);
    assert Power(16) == 10_000 * Power(12);
    assert Power(20) == 10_000 * Power(16);
    DecimalLength(version, 20);
  }

  // ----- splitting at slashes -----------------------------------------------------------------

  predicate NoSlash(s: string) {
    '/' !in s
  }

  function Join(parts: seq<string>): string
    requires parts != []
  {
    if |parts| == 1 then parts[0] else parts[0] + "/" + Join(parts[1..])
  }

  /** `str::split('/')`. */
  function Split(s: string): (parts: seq<string>)
    ensures parts != [] && forall i :: 0 <= i < |parts| ==> NoSlash(parts[i])
  {
    if s == [] then [""]
    else
      var rest := Split(s[1..]);
      if s[0] == '/' then [""] + rest else [[s[0]] + rest[0]] + rest[1..]
  }

  lemma {:induction false} JoinOfSplit(s: string)
    ensures Join(Split(s)) == s
  {
    if s != [] {
      JoinOfSplit(s[1..]);
      var rest := Split(s[1..]);
      if s[0] == '/' {
        assert ([""] + rest)[1..] == rest;
        assert Join(Split(s)) == "" + "/" + Join(rest);
      } else {
        assert Split(s)[1..] == rest[1..];
        assert Join(Split(s)) == [s[0]] + Join(rest);
      }
    }
  }

  lemma {:induction false} SplitOfPart(p: string, s: string)
    requires NoSlash(p)
    ensures Split(p) == [p] && Split(p + "/" + s) == [p] + Split(s)
  {
    if p == [] {
      assert p + "/" + s == "/" + s && ("/" + s)[1..] == s;
    } else {
      SplitOfPart(p[1..], s);
      assert (p + "/" + s)[1..] == p[1..] + "/" + s;
      assert p == [p[0]] + p[1..];
    }
  }

  lemma {:induction false} SplitOfJoin(parts: seq<string>)
    requires parts != [] && forall i :: 0 <= i < |parts| ==> NoSlash(parts[i])
    ensures Split(Join(parts)) == parts
  {
    if |parts| == 1 {
      SplitOfPart(parts[0], "");
    } else {
      SplitOfPart(parts[0], Join(parts[1..]));
      SplitOfJoin(parts[1..]);
    }
  }

  // ----- actors and nonces ---------------------------------------------------------------------

  predicate ComponentChar(c: char) {
    'a' <= c <= 'z' || 'A' <= c <= 'Z' || '0' <= c <= '9' || c == '-' || c == '_' || c == '.'
  }

  predicate ValidComponent(s: string, maxBytes: nat) {
    s != [] && ByteLength(s) <= maxBytes && forall i :: 0 <= i < |s| ==> ComponentChar(s[i])
  }

  function StorageKey(a: ActorKey): string {
    "object.v1." + a.namespaceId + "." + a.actorType + "." + a.actorId
  }

  predicate ValidActor(a: ActorKey) {
    && ValidComponent(a.namespaceId, MAX_NAMESPACE_ID_BYTES)
    && ValidComponent(a.actorType, MAX_ACTOR_TYPE_BYTES)
    && ValidComponent(a.actorId, MAX_ACTOR_ID_BYTES)
    && P.ValidStorageKey(StorageKey(a))
  }

  predicate HexDigit(c: char) {
    '0' <= c <= '9' || 'a' <= c <= 'f' || 'A' <= c <= 'F'
  }

  predicate ValidNonce(nonce: string) {
    ByteLength(nonce) == 32 && forall i :: 0 <= i < |nonce| ==> HexDigit(nonce[i])
  }

  const LOWER: string := "abcdefghijklmnopqrstuvwxyz"
  const UPPER: string := "ABCDEFGHIJKLMNOPQRSTUVWXYZ"
  const DIGITS: string := "0123456789"

  lemma InRange(alphabet: string, c: char)
    requires alphabet != [] && forall i :: 0 <= i < |alphabet| ==> alphabet[i] as int == alphabet[0] as int + i
    ensures c in alphabet <==> 0 <= c as int - alphabet[0] as int < |alphabet|
  {
    if 0 <= c as int - alphabet[0] as int < |alphabet| {
      assert alphabet[c as int - alphabet[0] as int] == c;
    }
  }

  /** Components are made of letters, digits, dashes, underscores and dots. */
  lemma ComponentCharacters(c: char)
    ensures ComponentChar(c) <==> c in LOWER || c in UPPER || c in DIGITS || c == '-' || c == '_' || c == '.'
  {
    InRange(LOWER, c);
    InRange(UPPER, c);
    InRange(DIGITS, c);
  }

  /** Nonces are made of hexadecimal digits of either case. */
  lemma HexDigits(c: char)
    ensures HexDigit(c) <==> c in DIGITS || c in "abcdef" || c in "ABCDEF"
  {
    InRange(DIGITS, c);
    InRange("abcdef", c);
    InRange("ABCDEF", c);
  }

  /** A name is printed exactly for a valid actor, a version from 1 on and a nonce of 32
      hexadecimal digits. */
  lemma PrintedIff(a: ActorKey, version: nat, nonce: string)
    ensures SnapshotObjectName(a, version, nonce).Some? <==>
            && ValidActor(a) && version >= 1
            && |nonce| == 32 && forall i :: 0 <= i < 32 ==> HexDigit(nonce[i])
  {
    if forall i :: 0 <= i < |nonce| ==> HexDigit(nonce[i]) {
      ByteLengthOfAscii(nonce);
    }
  }

  /** The storage key adds nothing but a bound on the length of the three together. */
  lemma ValidActorIffComponents(a: ActorKey)
    ensures ValidActor(a) <==>
            && ValidComponent(a.namespaceId, MAX_NAMESPACE_ID_BYTES)
            && ValidComponent(a.actorType, MAX_ACTOR_TYPE_BYTES)
            && ValidComponent(a.actorId, MAX_ACTOR_ID_BYTES)
            && |a.namespaceId| + |a.actorType| + |a.actorId| <= 243
  {
    var key := StorageKey(a);
    if && ValidComponent(a.namespaceId, MAX_NAMESPACE_ID_BYTES)
       && ValidComponent(a.actorType, MAX_ACTOR_TYPE_BYTES)
       && ValidComponent(a.actorId, MAX_ACTOR_ID_BYTES)
    {
      assert forall i :: 0 <= i < |key| ==> ComponentChar(key[i]);
      ByteLengthOfAscii(key);
      assert |key| == 12 + |a.namespaceId| + |a.actorType| + |a.actorId|;
    }
  }

  /** Moving the boundary between components across a dot keeps the storage key. */
  lemma StorageKeysCollide(p: string, q: string, r: string, id: string)
    ensures StorageKey(ActorKey(p + "." + q, r, id)) == StorageKey(ActorKey(p, q + "." + r, id))
    ensures StorageKey(ActorKey(id, p + "." + q, r)) == StorageKey(ActorKey(id, p, q + "." + r))
  {
    assert (p + "." + q) + "." + r == p + "." + (q + "." + r);
    assert "object.v1." + (p + "." + q) + "." + r == "object.v1." + ((p + "." + q) + "." + r);
    assert "object.v1." + p + "." + (q + "." + r) == "object.v1." + (p + "." + (q + "." + r));
    assert "object.v1." + id + "." + (p + "." + q) + "." + r == "object.v1." + id + "." + ((p + "." + q) + "." + r);
    assert "object.v1." + id + "." + p + "." + (q + "." + r) == "object.v1." + id + "." + (p + "." + (q + "." + r));
  }

  lemma ShortComponent(s: string, maxBytes: nat)
    requires 0 < |s| <= maxBytes && forall i :: 0 <= i < |s| ==> ComponentChar(s[i])
    ensures ValidComponent(s, maxBytes)
  {
    ByteLengthOfAscii(s);
  }

  /** Two valid, different actors with one storage key. */
  lemma TwoActorsOneKey() returns (a: ActorKey, b: ActorKey)
    ensures ValidActor(a) && ValidActor(b) && a != b && StorageKey(a) == StorageKey(b)
  {
    a, b := ActorKey("p" + "." + "q", "r", "s"), ActorKey("p", "q" + "." + "r", "s");
    StorageKeysCollide("p", "q", "r", "s");
    ShortComponent(a.namespaceId, MAX_NAMESPACE_ID_BYTES);
    ShortComponent(a.actorType, MAX_ACTOR_TYPE_BYTES);
    ShortComponent(a.actorId, MAX_ACTOR_ID_BYTES);
    ShortComponent(b.namespaceId, MAX_NAMESPACE_ID_BYTES);
    ShortComponent(b.actorType, MAX_ACTOR_TYPE_BYTES);
    ValidActorIffComponents(a);
    ValidActorIffComponents(b);
    assert |a.namespaceId| != |b.namespaceId|;
  }

  predicate NoDot(s: string) {
    '.' !in s
  }

  predicate DotFree(a: ActorKey) {
    NoDot(a.namespaceId) && NoDot(a.actorType) && NoDot(a.actorId)
  }

  function Dots(s: string): nat {
    if s == [] then 0 else (if s[0] == '.' then 1 else 0) + Dots(s[1..])
  }

  lemma {:induction false} DotsAdd(s: string, u: string)
    ensures Dots(s + u) == Dots(s) + Dots(u)
  {
    if s == [] {
      assert s + u == u;
    } else {
      assert (s + u)[1..] == s[1..] + u;
      DotsAdd(s[1..], u);
    }
  }

  lemma {:induction false} NoDotIffNone(s: string)
    ensures Dots(s) == 0 <==> NoDot(s)
  {
    if s != [] {
      NoDotIffNone(s[1..]);
      assert s == [s[0]] + s[1..];
    }
  }

  /** Dot-free parts before a dot are found again. */
  lemma FirstDot(p: string, r: string, q: string, s: string)
    requires NoDot(p) && NoDot(q) && p + "." + r == q + "." + s
    ensures p == q && r == s
  {
    var t := p + "." + r;
    assert t[|p|] == '.' && t[|q|] == '.';
    assert (forall i :: 0 <= i < |p| ==> t[i] == p[i]) && (forall i :: 0 <= i < |q| ==> t[i] == q[i]);
    assert |p| == |q|;
    assert p == t[..|p|] && q == t[..|q|] && r == t[|p| + 1..] && s == t[|q| + 1..];
  }

  /** What follows the prefix of a storage key. */
  function KeyBody(a: ActorKey): string {
    a.namespaceId + "." + (a.actorType + "." + a.actorId)
  }

  lemma KeyIsBody(a: ActorKey)
    ensures StorageKey(a) == "object.v1." + KeyBody(a)
  {
    assert "object.v1." + a.namespaceId + "." + a.actorType + "." + a.actorId
           == "object.v1." + (a.namespaceId + "." + (a.actorType + "." + a.actorId));
  }

  lemma SameKeySameBody(a: ActorKey, b: ActorKey)
    requires StorageKey(a) == StorageKey(b)
    ensures KeyBody(a) == KeyBody(b)
  {
    KeyIsBody(a);
    KeyIsBody(b);
    assert StorageKey(a)[10..] == KeyBody(a) && StorageKey(b)[10..] == KeyBody(b);
  }

  lemma DotsOfBody(a: ActorKey)
    ensures Dots(KeyBody(a)) == 2 + Dots(a.namespaceId) + Dots(a.actorType) + Dots(a.actorId)
  {
    var rest := a.actorType + "." + a.actorId;
    assert Dots(".") == 1;
    DotsAdd(a.namespaceId + ".", rest);
    DotsAdd(a.namespaceId, ".");
    DotsAdd(a.actorType + ".", a.actorId);
    DotsAdd(a.actorType, ".");
    assert KeyBody(a) == (a.namespaceId + ".") + rest && rest == (a.actorType + ".") + a.actorId;
  }

  lemma DotFreeIffTwo(a: ActorKey)
    ensures DotFree(a) <==> Dots(KeyBody(a)) == 2
  {
    DotsOfBody(a);
    NoDotIffNone(a.namespaceId);
    NoDotIffNone(a.actorType);
    NoDotIffNone(a.actorId);
  }

  /** A key whose components have no dot has exactly two in its body, so nobody shares it. */
  lemma DotFreeIsUnique(a: ActorKey, b: ActorKey)
    requires DotFree(a) && StorageKey(a) == StorageKey(b)
    ensures a == b
  {
    SameKeySameBody(a, b);
    DotFreeIffTwo(a);
    DotFreeIffTwo(b);
    FirstDot(a.namespaceId, a.actorType + "." + a.actorId, b.namespaceId, b.actorType + "." + b.actorId);
    FirstDot(a.actorType, a.actorId, b.actorType, b.actorId);
  }

  /** A storage key belongs to one actor only exactly if none of its components has a dot. */
  lemma UniqueKeyIffDotFree(a: ActorKey)
    ensures (forall b :: StorageKey(b) == StorageKey(a) ==> b == a) <==> DotFree(a)
  {
    if DotFree(a) {
      forall b | StorageKey(b) == StorageKey(a) ensures b == a {
        DotFreeIsUnique(a, b);
      }
    } else {
      var b := AnotherOwner(a);
    }
  }

  /** The actor that cutting a body at two of its dots gives. */
  predicate CutsTo(body: string, i: nat, j: nat, a: ActorKey) {
    && i < j < |body| && body[i] == '.' && body[j] == '.'
    && a == ActorKey(body[..i], body[i + 1..j], body[j + 1..])
  }

  lemma BodyIsCut(a: ActorKey)
    ensures CutsTo(KeyBody(a), |a.namespaceId|, |a.namespaceId| + 1 + |a.actorType|, a)
  {
    var body, i := KeyBody(a), |a.namespaceId|;
    var j := i + 1 + |a.actorType|;
    assert body[..i] == a.namespaceId && body[i + 1..j] == a.actorType && body[j + 1..] == a.actorId;
  }

  lemma CutIsBody(body: string, i: nat, j: nat, a: ActorKey)
    requires CutsTo(body, i, j, a)
    ensures KeyBody(a) == body
  {
    assert body[i + 1..] == body[i + 1..j] + "." + body[j + 1..];
    assert body == body[..i] + "." + body[i + 1..];
  }

  /** Whoever shares a key is another cut of its body; so among valid actors it is unique
      exactly if no other cut gives a valid actor. */
  lemma SharersAreCuts(a: ActorKey, b: ActorKey)
    ensures StorageKey(b) == StorageKey(a) <==> exists i: nat, j: nat :: CutsTo(KeyBody(a), i, j, b)
  {
    hide KeyBody, CutsTo, StorageKey;
    if StorageKey(b) == StorageKey(a) {
      SameKeySameBody(a, b);
      BodyIsCut(b);
    }
    if i: nat, j: nat :| CutsTo(KeyBody(a), i, j, b) {
      CutIsBody(KeyBody(a), i, j, b);
      KeyIsBody(a);
      KeyIsBody(b);
    }
  }

  lemma SplitAtDot(s: string) returns (x: string, y: string)
    requires !NoDot(s)
    ensures s == x + "." + y && |x| < |s| && |y| < |s|
  {
    var i :| 0 <= i < |s| && s[i] == '.';
    x, y := s[..i], s[i + 1..];
  }

  /** The actor that shares the key of one with a dot in a component. */
  lemma AnotherOwner(a: ActorKey) returns (b: ActorKey)
    requires !DotFree(a)
    ensures b != a && StorageKey(b) == StorageKey(a)
  {
    if !NoDot(a.namespaceId) {
      var x, y := SplitAtDot(a.namespaceId);
      b := ActorKey(x, y + "." + a.actorType, a.actorId);
      StorageKeysCollide(x, y, a.actorType, a.actorId);
      assert |b.namespaceId| < |a.namespaceId|;
    } else if !NoDot(a.actorType) {
      var x, y := SplitAtDot(a.actorType);
      b := ActorKey(a.namespaceId, x, y + "." + a.actorId);
      StorageKeysCollide(x, y, a.actorId, a.namespaceId);
      assert |b.actorType| < |a.actorType|;
    } else {
      var x, y := SplitAtDot(a.actorId);
      b := ActorKey(a.namespaceId, a.actorType + "." + x, y);
      StorageKeysCollide(a.actorType, x, y, a.namespaceId);
      assert |b.actorId| < |a.actorId|;
    }
  }

  // ----- the printer and the checker -------------------------------------------------------------

  function FileName(version: nat): string {
    Decimal(version) + ".json"
  }

  function Parts(a: ActorKey, version: nat, nonce: string): seq<string>
    requires |nonce| >= 2
  {
    ["snapshots", nonce[..2], nonce, a.namespaceId, a.actorType, a.actorId, FileName(version)]
  }

  lemma NonceLength(nonce: string)
    requires ValidNonce(nonce)
    ensures |nonce| == 32
  {
    ByteLengthOfAscii(nonce);
  }

  /** `snapshot_object_name`. */
  function SnapshotObjectName(a: ActorKey, version: nat, nonce: string): Option<string> {
    if ValidActor(a) && version > 0 && ValidNonce(nonce) then
      NonceLength(nonce);
      Some(Join(Parts(a, version, nonce)))
    else None
  }

  predicate ValidObjectName(name: string) {
    && "snapshots/" <= name && ByteLength(name) <= 1024
    && forall i :: 0 <= i < |name| ==> !IsControl(name[i])
  }

  /** `validate_snapshot_object_name`. */
  predicate Validates(a: ActorKey, version: nat, name: string) {
    && ValidObjectName(name)
    && var parts := Split(name);
    && |parts| == 7
    && parts[0] == "snapshots"
    && parts[1] <= parts[2] && ByteLength(parts[1]) == 2 && ValidNonce(parts[2])
    && parts[3] == a.namespaceId && parts[4] == a.actorType && parts[5] == a.actorId
    && parts[6] == FileName(version)
  }

  lemma PartsHaveNoSlash(a: ActorKey, version: nat, nonce: string)
    requires ValidActor(a) && ValidNonce(nonce) && |nonce| == 32
    ensures forall i :: 0 <= i < 7 ==> NoSlash(Parts(a, version, nonce)[i])
  {}

  predicate NameChar(c: char) {
    ComponentChar(c) || c == '/'
  }

  predicate NameChars(s: string) {
    forall i :: 0 <= i < |s| ==> NameChar(s[i])
  }

  lemma {:induction false} JoinedChars(parts: seq<string>, bound: nat)
    requires parts != [] && (forall i :: 0 <= i < |parts| ==> NameChars(parts[i]))
    requires forall i :: 0 <= i < |parts| ==> |parts[i]| <= bound
    ensures NameChars(Join(parts)) && |Join(parts)| <= |parts| * (bound + 1)
  {
    if |parts| > 1 {
      JoinedChars(parts[1..], bound);
    }
  }

  /** Every name the printer makes is a valid object name. */
  lemma PrintedIsValid(a: ActorKey, version: nat, nonce: string)
    requires ValidActor(a) && 0 < version <= U64_MAX && ValidNonce(nonce)
    ensures ValidObjectName(SnapshotObjectName(a, version, nonce).value)
  {
    NonceLength(nonce);
    ByteLengthOfAscii(a.namespaceId);
    ByteLengthOfAscii(a.actorType);
    ByteLengthOfAscii(a.actorId);
    VersionHasTwentyDigits(version);
    var parts := Parts(a, version, nonce);
    JoinedChars(parts, 128);
    var name := Join(parts);
    assert name == "snapshots" + "/" + Join(parts[1..]);
    assert name[..10] == "snapshots/";
    ByteLengthOfAscii(name);
  }

  /** For a valid actor and positive version, a name validates exactly if the printer
      makes it from some nonce. */
  lemma ValidatesIffPrinted(a: ActorKey, version: nat, name: string)
    requires ValidActor(a) && 0 < version <= U64_MAX
    ensures Validates(a, version, name) <==>
            exists nonce :: ValidNonce(nonce) && SnapshotObjectName(a, version, nonce) == Some(name)
  {
    if Validates(a, version, name) {
      var parts := Split(name);
      NonceLength(parts[2]);
      PrefixOfAscii(parts[1], parts[2]);
      assert parts == Parts(a, version, parts[2]);
      JoinOfSplit(name);
      assert SnapshotObjectName(a, version, parts[2]) == Some(name);
    }
    if nonce :| ValidNonce(nonce) && SnapshotObjectName(a, version, nonce) == Some(name) {
      NonceLength(nonce);
      PartsHaveNoSlash(a, version, nonce);
      SplitOfJoin(Parts(a, version, nonce));
      PrintedIsValid(a, version, nonce);
      ByteLengthOfAscii(nonce[..2]);
    }
  }

  lemma PrefixOfAscii(prefix: string, nonce: string)
    requires prefix <= nonce && ByteLength(prefix) == 2 && ValidNonce(nonce)
    ensures |nonce| == 32 && prefix == nonce[..2]
  {
    NonceLength(nonce);
    ByteLengthOfAscii(prefix);
  }

  /** One name never validates for two different actors or versions. */
  lemma NameDeterminesCommit(a: ActorKey, v: nat, b: ActorKey, w: nat, name: string)
    requires Validates(a, v, name) && Validates(b, w, name)
    ensures a == b && v == w
  {
    var file := Split(name)[6];
    assert file[..|file| - 5] == Decimal(v);
    assert file[..|file| - 5] == Decimal(w);
    DecimalRoundTrip(v);
    DecimalRoundTrip(w);
  }

  // ----- commits of printed names -----------------------------------------------------------------

  /** A commit of a validated name for a valid actor is well formed exactly if its owner and
      session are named, its epoch has begun and its request id has 1 to 255 bytes. */
  lemma ValidCommitIff(a: ActorKey, c: P.Commit)
    requires ValidActor(a) && c.expected < U64_MAX && Validates(a, c.expected + 1, c.objectName)
    ensures P.ValidCommit(StorageKey(a), c) <==>
            |c.owner| > 0 && |c.session| > 0 && c.epoch >= 1 && 1 <= ByteLength(c.request) <= 255
  {
    TextHasBytes(c.objectName);
  }

  lemma TextHasBytes(s: string)
    requires s != []
    ensures ByteLength(s) > 0
  {}

  /** And then, if it is the row's owner's at the row's version, the store accepts it, and it
      is the new head. */
  lemma OwnersCommitIsAccepted(a: ActorKey, row: P.Row, session: string, name: string, request: string)
    requires ValidActor(a) && row.version < U64_MAX && Validates(a, row.version + 1, name)
    requires |row.owner| > 0 && |session| > 0 && row.epoch >= 1 && 1 <= ByteLength(request) <= 255
    ensures var c := P.Commit(row.owner, session, row.epoch, row.version, name, request);
            && P.ValidCommit(StorageKey(a), c)
            && P.LocalCommit(Some(row), c)
               == P.Committed(P.Row(row.owner, row.epoch, row.region, row.version + 1, Some(name), Some(request)))
  {
    ValidCommitIff(a, P.Commit(row.owner, session, row.epoch, row.version, name, request));
  }
}
