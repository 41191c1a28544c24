/** Shared value types and the byte arithmetic of Rust strings. */
module Common {

  datatype Option<+T> = None | Some(value: T)

  /** A JSON document, identified with its text. */
  type Value = string

  const NULL: Value := "null"

  const U64_MAX: nat := 0xFFFF_FFFF_FFFF_FFFF

  /** The largest BIGINT of PostgreSQL. */
  const I64_MAX: nat := 0x7FFF_FFFF_FFFF_FFFF

  /** `u64::saturating_add(1)`. */
  function SaturatingIncrement(n: nat): nat {
    if n >= U64_MAX then U64_MAX else n + 1
  }

  /** Bytes that one character takes in UTF-8 (section 3 of RFC 3629). */
  function CharBytes(c: char): nat {
    var code := c as int;
    if code < 0x80 then 1 else if code < 0x800 then 2 else if code < 0x1_0000 then 3 else 4
  }

  /** `str::len`: the UTF-8 length of a string. */
  function ByteLength(s: string): nat {
    if s == [] then 0 else CharBytes(s[0]) + ByteLength(s[1..])
  }

  /** `char::is_control`: the Unicode category Cc. */
  predicate IsControl(c: char) {
    var code := c as int;
    code < 0x20 || 0x7F <= code < 0xA0
  }

  predicate IsAscii(s: string) {
    forall i :: 0 <= i < |s| ==> s[i] as int < 0x80
  }

  lemma {:induction false} ByteLengthOfAscii(s: string)
    requires IsAscii(s)
    ensures ByteLength(s) == |s|
  {
    if s != [] {
      ByteLengthOfAscii(s[1..]);
    }
  }

  lemma {:induction false} ByteLengthConcat(a: string, b: string)
    ensures ByteLength(a + b) == ByteLength(a) + ByteLength(b)
  {
    if a == [] {
      assert a + b == b;
    } else {
      assert (a + b)[1..] == a[1..] + b;
      ByteLengthConcat(a[1..], b);
    }
  }
}
