/**
 The budgeted length of a JSON document. A reply is measured before it is serialized;
 the measure is compared with the bytes that serialization really produces: escapes as
 in section 7 of RFC 8259 (lone surrogates escaped), UTF-8 as in section 3 of RFC 3629.
 */
module JsonLength {
  import opened Common

  /** A UTF-16 code unit. */
  type Unit = n: nat | n < 0x1_0000

  type Bytes = seq<nat>

  /** A value as JavaScript hands it over; objects and arrays have an identity. Array
      entries have no use for their key. */
  datatype Json =
    | Null
    | Bool(value: bool)
    | Number(text: Bytes)
    | Str(units: seq<Unit>)
    | Container(id: nat, isArray: bool, entries: seq<Entry>)
    | Unsupported

  datatype Entry = Entry(key: seq<Unit>, value: Json)

  // ----- the serialization ------------------------------------------------------------------

  function Utf8(code: nat): Bytes {
    if code < 0x80 then [code]
    else if code < 0x800 then [0xC0 + code / 0x40, 0x80 + code % 0x40]
    else if code < 0x1_0000 then [0xE0 + code / 0x1000, 0x80 + code / 0x40 % 0x40, 0x80 + code % 0x40]
    else [0xF0 + code / 0x4_0000, 0x80 + code / 0x1000 % 0x40, 0x80 + code / 0x40 % 0x40, 0x80 + code % 0x40]
  }

  function Hex(n: nat): nat
    requires n < 16
  {
    if n < 10 then 0x30 + n else 0x57 + n
  }

  /** Backslash, u and four hexadecimal digits. */
  function UnicodeEscape(u: Unit): Bytes {
    [0x5C, 0x75, Hex(u / 0x1000), Hex(u / 0x100 % 16), Hex(u / 0x10 % 16), Hex(u % 16)]
  }

  /** The letter of a two-character escape. */
  function ShortEscape(u: Unit): Option<nat> {
    match u
    case 0x22 => Some(0x22)
    case 0x5C => Some(0x5C)
    case 0x08 => Some(0x62)
    case 0x09 => Some(0x74)
    case 0x0A => Some(0x6E)
    case 0x0C => Some(0x66)
    case 0x0D => Some(0x72)
    case _ => None
  }

  predicate High(u: Unit) {
    0xD800 <= u <= 0xDBFF
  }

  predicate Low(u: Unit) {
    0xDC00 <= u <= 0xDFFF
  }

  predicate Pair(s: seq<Unit>) {
    |s| >= 2 && High(s[0]) && Low(s[1])
  }

  function PairCode(high: Unit, low: Unit): nat
    requires High(high) && Low(low)
  {
    0x1_0000 + (high - 0xD800) * 0x400 + (low - 0xDC00)
  }

  /** What stands for a code unit that is not half of a pair. */
  function UnitBytes(u: Unit): Bytes {
    if ShortEscape(u).Some? then [0x5C, ShortEscape(u).value]
    else if u < 0x20 || High(u) || Low(u) then UnicodeEscape(u)
    else Utf8(u)
  }

  function Characters(s: seq<Unit>): Bytes {
    if s == [] then []
    else if Pair(s) then Utf8(PairCode(s[0], s[1])) + Characters(s[2..])
    else UnitBytes(s[0]) + Characters(s[1..])
  }

  function Quoted(s: seq<Unit>): Bytes {
    [0x22] + Characters(s) + [0x22]
  }

  predicate Supported(v: Json) {
    match v
    case Unsupported => false
    case Container(_, _, entries) => forall i :: 0 <= i < |entries| ==> Supported(entries[i].value)
    case _ => true
  }

  /** The bytes of the serialized document. */
  function Serialized(v: Json): Bytes
    decreases v
  {
    match v
    case Null => [0x6E, 0x75, 0x6C, 0x6C]
    case Bool(b) => if b then [0x74, 0x72, 0x75, 0x65] else [0x66, 0x61, 0x6C, 0x73, 0x65]
    case Number(text) => text
    case Str(units) => Quoted(units)
    case Container(_, isArray, entries) =>
      if isArray then [0x5B] + SerializedEntries(true, entries) + [0x5D]
      else [0x7B] + SerializedEntries(false, entries) + [0x7D]
    case Unsupported => []
  }

  function SerializedEntries(isArray: bool, entries: seq<Entry>): Bytes
    decreases entries
  {
    if entries == [] then []
    else
      var n := |entries| - 1;
      SerializedEntries(isArray, entries[..n])
      + (if n == 0 then [] else [0x2C])
      + (if isArray then [] else Quoted(entries[n].key) + [0x3A])
      + Serialized(entries[n].value)
  }

  // ----- the measure --------------------------------------------------------------------------

  /** One round of the loop: the bytes charged at the front of a string and the number
      of code units consumed. */
  function Charge(s: seq<Unit>): (r: (nat, nat))
    requires s != []
    ensures r.0 >= 1 && r.1 >= 1
  {
    var code := s[0];
    if code == 0x22 || code == 0x5C || code == 0x08 || code == 0x09 || code == 0x0A || code == 0x0C || code == 0x0D
    then (2, 1)
    else if code <= 0x1F || (0xD800 <= code <= 0xDFFF && !(code <= 0xDBFF && |s| > 1 && 0xDC00 <= s[1] <= 0xDFFF))
    then (6, 1)
    else if code <= 0x7F then (1, 1)
    else if code <= 0x7FF then (2, 1)
    else if code <= 0xDBFF then (4, 2)
    else (3, 1)
  }

  /** What a whole string is charged between its quotes. */
  function Charged(s: seq<Unit>): nat {
    if s == [] then 0
    else
      var (bytes, used) := Charge(s);
      bytes + if used < |s| then Charged(s[used..]) else 0
  }

  function Measure(v: Json): nat
    decreases v
  {
    match v
    case Null => 4
    case Bool(b) => if b then 4 else 5
    case Number(text) => |text|
    case Str(units) => 2 + Charged(units)
    case Container(_, isArray, entries) => 2 + MeasureEntries(isArray, entries)
    case Unsupported => 0
  }

  function MeasureEntries(isArray: bool, entries: seq<Entry>): nat
    decreases entries
  {
    if entries == [] then 0
    else
      var n := |entries| - 1;
      MeasureEntries(isArray, entries[..n]) + (if n == 0 then 0 else 1) + MeasureEntry(isArray, entries[n])
  }

  function MeasureEntry(isArray: bool, entry: Entry): nat
    decreases entry
  {
    (if isArray then 0 else 2 + Charged(entry.key) + 1) + Measure(entry.value)
  }

  const MAX_DEPTH: nat := 256

  /** The value can be walked: everything in it is JSON, nothing contains itself, and
      nothing lies deeper than the limit. */
  predicate Walkable(v: Json, ancestors: set<nat>, depth: nat) {
    depth <= MAX_DEPTH &&
    match v
    case Unsupported => false
    case Container(id, _, entries) =>
      id !in ancestors && forall i :: 0 <= i < |entries| ==> Walkable(entries[i].value, ancestors + {id}, depth + 1)
    case _ => true
  }

  class WeakSet {
    var members: set<nat>

    constructor ()
      ensures members == {}
    {
      members := {};
    }
  }

  /** `jsonStringByteLength`. */
  method JsonStringByteLength(value: seq<Unit>, maxBytes: int) returns (r: Option<nat>)
    ensures r == if 2 + Charged(value) <= maxBytes then Some(2 + Charged(value)) else None
  {
    if maxBytes < 2 {
      return None;
    }
    var bytes: nat := 2;
    var index := 0;
    while index < |value|
      invariant bytes <= maxBytes
      invariant bytes + (if index < |value| then Charged(value[index..]) else 0) == 2 + Charged(value)
    {
      ghost var rest := value[index..];
      var code := value[index];
      if code == 0x22 || code == 0x5C || code == 0x08 || code == 0x09 || code == 0x0A || code == 0x0C || code == 0x0D {
        bytes := bytes + 2;
      } else if code <= 0x1F || (0xD800 <= code <= 0xDFFF
                                 && !(code <= 0xDBFF && index + 1 < |value| && 0xDC00 <= value[index + 1] <= 0xDFFF)) {
        bytes := bytes + 6;
      } else if code <= 0x7F {
        bytes := bytes + 1;
      } else if code <= 0x7FF {
        bytes := bytes + 2;
      } else if code <= 0xDBFF {
        bytes := bytes + 4;
        index := index + 1;
      } else {
        bytes := bytes + 3;
      }
      index := index + 1;
      assert index < |value| ==> rest[Charge(rest).1..] == value[index..];
      if bytes > maxBytes {
        return None;
      }
    }
    return Some(bytes);
  }

  /** `jsonByteLength`. The result is the measure exactly if the value can be walked and
      the measure fits the budget, for every budget. */
  method JsonByteLength(value: Json, maxBytes: int, ancestors: WeakSet, depth: nat) returns (r: Option<nat>)
    modifies ancestors
    ensures r == if Walkable(value, old(ancestors.members), depth) && Measure(value) <= maxBytes
            then Some(Measure(value)) else None
    ensures r.Some? ==> ancestors.members == old(ancestors.members)
    decreases value, 1
  {
    if maxBytes < 0 || depth > MAX_DEPTH {
      return None;
    }
    match value {
      case Null => return if 4 <= maxBytes then Some(4) else None;
      case Str(units) => r := JsonStringByteLength(units, maxBytes);
      case Number(text) => return if |text| <= maxBytes then Some(|text|) else None;
      case Bool(b) =>
        var bytes := if b then 4 else 5;
        return if bytes <= maxBytes then Some(bytes) else None;
      case Container(_, _, _) => r := JsonObjectByteLength(value, maxBytes, ancestors, depth);
      case Unsupported => return None;
    }
  }

  /** `jsonObjectByteLength`. */
  method JsonObjectByteLength(value: Json, maxBytes: int, ancestors: WeakSet, depth: nat) returns (r: Option<nat>)
    requires value.Container? && depth <= MAX_DEPTH
    modifies ancestors
    ensures r == if Walkable(value, old(ancestors.members), depth) && Measure(value) <= maxBytes
            then Some(Measure(value)) else None
    ensures r.Some? ==> ancestors.members == old(ancestors.members)
    decreases value, 0
  {
    hide Charged, MeasureEntry, MeasureEntries;
    if value.id in ancestors.members || maxBytes < 2 {
      return None;
    }
    EmptyMeasure(value.isArray, value.entries);
    ghost var outer := ancestors.members;
    ancestors.members := ancestors.members + {value.id};
    ghost var inner := ancestors.members;
    var bytes: nat := 2;
    for i := 0 to |value.entries|
      invariant ancestors.members == inner
      invariant bytes == 2 + MeasureEntries(value.isArray, value.entries[..i]) <= maxBytes
      invariant forall j :: 0 <= j < i ==> Walkable(value.entries[j].value, inner, depth + 1)
    {
      MeasureGrows(value.isArray, value.entries, i);
      var separator := if i == 0 then 0 else 1;
      var entry := JsonEntryByteLength(value.entries[i], value.isArray, maxBytes - bytes - separator, ancestors,
                                       depth + 1);
      if entry.None? {
        return None;
      }
      bytes := bytes + separator + entry.value;
    }
    assert value.entries[..|value.entries|] == value.entries;
    ancestors.members := ancestors.members - {value.id};
    assert ancestors.members == outer;
    return Some(bytes);
  }

  /** The body of its loop. */
  method JsonEntryByteLength(entry: Entry, isArray: bool, maxBytes: int, ancestors: WeakSet, depth: nat)
    returns (r: Option<nat>)
    modifies ancestors
    ensures r == if Walkable(entry.value, old(ancestors.members), depth) && MeasureEntry(isArray, entry) <= maxBytes
                 then Some(MeasureEntry(isArray, entry)) else None
    ensures r.Some? ==> ancestors.members == old(ancestors.members)
    decreases entry, 0
  {
    var punctuation := 0;
    if !isArray {
      var key := JsonStringByteLength(entry.key, maxBytes);
      if key.None? {
        return None;
      }
      punctuation := key.value + 1;
    }
    var item := JsonByteLength(entry.value, maxBytes - punctuation, ancestors, depth);
    if item.None? {
      return None;
    }
    return Some(punctuation + item.value);
  }

  lemma EmptyMeasure(isArray: bool, entries: seq<Entry>)
    ensures MeasureEntries(isArray, entries[..0]) == 0
  {}

  /** The measure of the first entries is part of the measure of all of them. */
  lemma {:induction false} MeasureGrows(isArray: bool, entries: seq<Entry>, i: nat)
    requires i < |entries|
    ensures MeasureEntries(isArray, entries[..i + 1]) == MeasureEntries(isArray, entries[..i])
              + (if i == 0 then 0 else 1) + MeasureEntry(isArray, entries[i])
    ensures MeasureEntries(isArray, entries[..i + 1]) <= MeasureEntries(isArray, entries)
  {
    assert entries[..i + 1][..i] == entries[..i];
    MeasureIsMonotone(isArray, entries, i + 1);
  }

  lemma {:induction false} MeasureIsMonotone(isArray: bool, entries: seq<Entry>, i: nat)
    requires i <= |entries|
    ensures MeasureEntries(isArray, entries[..i]) <= MeasureEntries(isArray, entries)
  {
    if i < |entries| {
      var n := |entries| - 1;
      MeasureIsMonotone(isArray, entries[..n], i);
      assert entries[..n][..i] == entries[..i];
    } else {
      assert entries[..i] == entries;
    }
  }

  // ----- when the measure is the length ------------------------------------------------------------

  /** The code units the loop charges four bytes for although they are no surrogate,
      skipping the unit after them. */
  predicate Miscounted(u: Unit) {
    0x800 <= u <= 0xD7FF
  }

  predicate Plain(s: seq<Unit>) {
    forall i :: 0 <= i < |s| ==> !Miscounted(s[i])
  }

  lemma {:induction false} PlainIsExact(s: seq<Unit>)
    requires Plain(s)
    ensures Charged(s) == |Characters(s)|
  {
    if s == [] {
      NothingIsExact();
    } else {
      hide Charged, Characters;
      PlainUnit(s);
      PlainIsExact(if Pair(s) then s[2..] else s[1..]);
    }
  }

  /** A miscounted unit at the end of a plain string is charged one byte too many. */
  lemma {:induction false} FirstMiscount(s: seq<Unit>, u: Unit)
    requires Plain(s) && Miscounted(u)
    ensures Deviation(s + [u]) == 1
  {
    if s == [] {
      assert s + [u] == [u];
    } else if Pair(s) {
      assert Pair(s + [u]) && (s + [u])[2..] == s[2..] + [u];
      FirstMiscount(s[2..], u);
    } else {
      assert !Pair(s + [u]) && (s + [u])[1..] == s[1..] + [u];
      FirstMiscount(s[1..], u);
    }
  }

  ghost predicate ExactOnPrefixes(s: seq<Unit>) {
    forall i :: 0 <= i <= |s| ==> Charged(s[..i]) == |Characters(s[..i])|
  }

  /** A string and all its prefixes are measured exactly if and only if it contains no
      code unit from 0x0800 to 0xD7FF. */
  lemma ExactIffPlain(s: seq<Unit>)
    ensures ExactOnPrefixes(s) <==> Plain(s)
  {
    if Plain(s) {
      forall i | 0 <= i <= |s| ensures Charged(s[..i]) == |Characters(s[..i])| {
        PlainIsExact(s[..i]);
      }
    } else {
      var i := FirstMiscountedAt(s);
      FirstMiscount(s[..i], s[i]);
      DeviationIsExact(s[..i] + [s[i]]);
      assert s[..i + 1] == s[..i] + [s[i]];
    }
  }

  /** By how much one string is measured too long, or too short if negative. A miscounted
      unit costs one byte too many and hides the unit after it; if that was the first half
      of a pair, the second half is charged as a lone surrogate. */
  function Deviation(s: seq<Unit>): int {
    if s == [] then 0
    else if !Miscounted(s[0]) then Deviation(if Pair(s) then s[2..] else s[1..])
    else if |s| == 1 then 1
    else if Pair(s[1..]) then 3 + Deviation(s[3..])
    else 1 - |UnitBytes(s[1])| + Deviation(s[2..])
  }

  /** Every string is measured exactly that far off, so exactly right if and only if the
      deviations of its miscounted units cancel out. */
  lemma {:induction false} DeviationIsExact(s: seq<Unit>)
    ensures Charged(s) == |Characters(s)| + Deviation(s)
  {
    hide Charged, Characters, UnitBytes;
    if s == [] {
      NothingIsExact();
    } else if !Miscounted(s[0]) {
      PlainUnit(s);
      DeviationIsExact(if Pair(s) then s[2..] else s[1..]);
    } else if |s| == 1 {
      LastUnit(s);
    } else if Pair(s[1..]) {
      HiddenPair(s);
      DeviationIsExact(s[3..]);
    } else {
      HiddenUnit(s);
      DeviationIsExact(s[2..]);
    }
  }

  lemma NothingIsExact()
    ensures Charged([]) == |Characters([])|
  {}

  lemma PlainUnit(s: seq<Unit>)
    requires s != [] && !Miscounted(s[0])
    ensures var rest := if Pair(s) then s[2..] else s[1..];
            Charged(s) - |Characters(s)| == Charged(rest) - |Characters(rest)|
  {
    hide Charge, UnitBytes, Utf8;
    PlainCharge(s);
  }

  lemma PlainCharge(s: seq<Unit>)
    requires s != [] && !Miscounted(s[0])
    ensures Charge(s) == if Pair(s) then (|Utf8(PairCode(s[0], s[1]))|, 2) else (|UnitBytes(s[0])|, 1)
  {}

  lemma LastUnit(s: seq<Unit>)
    requires |s| == 1 && Miscounted(s[0])
    ensures Charged(s) == |Characters(s)| + 1
  {
    assert s[1..] == [];
  }

  lemma HiddenPair(s: seq<Unit>)
    requires |s| > 2 && Miscounted(s[0]) && Pair(s[1..])
    ensures Charged(s) == 4 + 6 + Charged(s[3..]) && |Characters(s)| == 3 + 4 + |Characters(s[3..])|
  {
    assert s[2..][1..] == s[3..] && s[1..][2..] == s[3..];
    assert Charged(s[2..]) == 6 + Charged(s[3..]);
    assert Characters(s[1..]) == Utf8(PairCode(s[1], s[2])) + Characters(s[3..]);
  }

  lemma HiddenUnit(s: seq<Unit>)
    requires |s| > 1 && Miscounted(s[0]) && !Pair(s[1..])
    ensures Charged(s) == 4 + Charged(s[2..]) && |Characters(s)| == 3 + |UnitBytes(s[1])| + |Characters(s[2..])|
  {
    assert s[1..][1..] == s[2..];
    assert Characters(s[1..]) == UnitBytes(s[1]) + Characters(s[2..]);
  }

  lemma {:induction false} FirstMiscountedAt(s: seq<Unit>) returns (i: nat)
    requires !Plain(s)
    ensures i < |s| && Miscounted(s[i]) && Plain(s[..i])
  {
    var n := |s| - 1;
    if Plain(s[..n]) {
      i := n;
    } else {
      i := FirstMiscountedAt(s[..n]);
      assert s[..n][..i] == s[..i];
    }
  }

  predicate PlainTree(v: Json) {
    match v
    case Str(units) => Plain(units)
    case Container(_, isArray, entries) =>
      forall i :: 0 <= i < |entries| ==> (isArray || Plain(entries[i].key)) && PlainTree(entries[i].value)
    case _ => true
  }

  /** By how much a whole document is measured too long: the deviations of its strings and
      keys together. */
  function TreeDeviation(v: Json): int
    decreases v
  {
    match v
    case Str(units) => Deviation(units)
    case Container(_, isArray, entries) => EntriesDeviation(isArray, entries)
    case _ => 0
  }

  function EntriesDeviation(isArray: bool, entries: seq<Entry>): int
    decreases entries
  {
    if entries == [] then 0
    else
      var n := |entries| - 1;
      EntriesDeviation(isArray, entries[..n])
      + (if isArray then 0 else Deviation(entries[n].key))
      + TreeDeviation(entries[n].value)
  }

  /** Every document is measured exactly that far off. */
  lemma {:induction false} MeasureDeviates(v: Json)
    ensures Measure(v) == |Serialized(v)| + TreeDeviation(v)
    decreases v
  {
    match v
    case Str(units) => DeviationIsExact(units);
    case Container(_, isArray, entries) => EntriesDeviate(isArray, entries);
    case _ =>
  }

  lemma {:induction false} EntriesDeviate(isArray: bool, entries: seq<Entry>)
    ensures MeasureEntries(isArray, entries)
            == |SerializedEntries(isArray, entries)| + EntriesDeviation(isArray, entries)
    decreases entries
  {
    if entries != [] {
      var n := |entries| - 1;
      hide Deviation, Charged, Characters, Measure, Serialized, TreeDeviation;
      EntriesDeviate(isArray, entries[..n]);
      MeasureDeviates(entries[n].value);
      DeviationIsExact(entries[n].key);
    }
  }

  lemma {:induction false} PlainDoesNotDeviate(s: seq<Unit>)
    requires Plain(s)
    ensures Deviation(s) == 0
  {
    PlainIsExact(s);
    DeviationIsExact(s);
  }

  lemma {:induction false} MeasureIsExact(v: Json)
    requires PlainTree(v)
    ensures TreeDeviation(v) == 0 && Measure(v) == |Serialized(v)|
    decreases v
  {
    MeasureDeviates(v);
    match v
    case Str(units) => PlainDoesNotDeviate(units);
    case Container(_, isArray, entries) => EntriesDoNotDeviate(isArray, entries);
    case _ =>
  }

  lemma {:induction false} EntriesDoNotDeviate(isArray: bool, entries: seq<Entry>)
    requires forall i :: 0 <= i < |entries| ==> (isArray || Plain(entries[i].key)) && PlainTree(entries[i].value)
    ensures EntriesDeviation(isArray, entries) == 0
    decreases entries
  {
    if entries != [] {
      var n := |entries| - 1;
      EntriesDoNotDeviate(isArray, entries[..n]);
      MeasureIsExact(entries[n].value);
      if !isArray {
        PlainDoesNotDeviate(entries[n].key);
      }
    }
  }

  // ----- the nesting limit ----------------------------------------------------------------------------

  /** Nothing contains itself. */
  predicate Acyclic(v: Json, ancestors: set<nat>) {
    v.Container? ==>
      v.id !in ancestors && forall i :: 0 <= i < |v.entries| ==> Acyclic(v.entries[i].value, ancestors + {v.id})
  }

  /** How many containers deep the value goes below itself. */
  function Nesting(v: Json): nat
    decreases v
  {
    if v.Container? then NestingOfEntries(v.entries) else 0
  }

  function NestingOfEntries(entries: seq<Entry>): nat
    decreases entries
  {
    if entries == [] then 0
    else
      var n := |entries| - 1;
      var before, last := NestingOfEntries(entries[..n]), 1 + Nesting(entries[n].value);
      if before > last then before else last
  }

  lemma {:induction false} NestingBound(entries: seq<Entry>, limit: int)
    requires limit >= 0
    ensures NestingOfEntries(entries) <= limit <==> forall i :: 0 <= i < |entries| ==>
            1 + Nesting(entries[i].value) <= limit
    decreases entries
  {
    if entries != [] {
      var n := |entries| - 1;
      NestingBound(entries[..n], limit);
      assert entries == entries[..n] + [entries[n]];
    }
  }

  lemma {:induction false} WalkableIff(v: Json, ancestors: set<nat>, depth: nat)
    ensures Walkable(v, ancestors, depth) <==> Supported(v) && Acyclic(v, ancestors) && depth + Nesting(v) <= MAX_DEPTH
    decreases v
  {
    if v.Container? && depth <= MAX_DEPTH {
      forall i | 0 <= i < |v.entries|
        ensures Walkable(v.entries[i].value, ancestors + {v.id}, depth + 1) <==>
                && Supported(v.entries[i].value) && Acyclic(v.entries[i].value, ancestors + {v.id})
                && 1 + Nesting(v.entries[i].value) <= MAX_DEPTH - depth
      {
        WalkableIff(v.entries[i].value, ancestors + {v.id}, depth + 1);
      }
      NestingBound(v.entries, MAX_DEPTH - depth);
    }
  }

  // ----- the test made on every reply -------------------------------------------------------------------

  /** `jsonFitsWithinBytes`. A document that can be walked passes exactly if its serialized
      bytes fit with its deviation added: so it is refused although it fits exactly if the
      deviation takes it over the limit, and passed although it does not exactly if a
      negative one takes it below. Without miscounted units the test is exact. */
  method JsonFitsWithinBytes(value: Json, maxBytes: int) returns (fits: bool)
    ensures fits <==>
            && Supported(value) && Acyclic(value, {}) && Nesting(value) <= MAX_DEPTH
            && |Serialized(value)| + TreeDeviation(value) <= maxBytes
    ensures PlainTree(value) ==> TreeDeviation(value) == 0
  {
    var ancestors := new WeakSet();
    var length := JsonByteLength(value, maxBytes, ancestors, 0);
    WalkableIff(value, {}, 0);
    MeasureDeviates(value);
    if PlainTree(value) {
      MeasureIsExact(value);
    }
    return length.Some?;
  }

  /** A document that fits is refused, and one that does not fit is let through. */
  lemma MiscountedDocuments()
    ensures var short, long := Str([0x800]), Str([0x800, 0x800]);
            && |Serialized(short)| == 5 && Measure(short) == 6 && TreeDeviation(short) == 1
            && |Serialized(long)| == 8 && Measure(long) == 6 && TreeDeviation(long) == -2
  {
    var short, long := [0x800 as Unit], [0x800 as Unit, 0x800 as Unit];
    assert long[1..] == short && short[1..] == [];
    assert |Characters(short)| == 3 && |Characters(long)| == 6;
    assert Charged(short) == 4 && Charged(long) == 4;
    DeviationIsExact(short);
    DeviationIsExact(long);
  }
}
