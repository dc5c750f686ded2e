/**
 * Byte strings and the primitives of bstr's ByteSlice that the match engine
 * uses: ASCII detection, ASCII lowercasing, prefix/suffix tests and
 * substring search. Lines are raw bytes; nothing here assumes UTF-8.
 */
module Bytes {
  newtype byte = x: int | 0 <= x < 256

  type Bytes = seq<byte>

  /** bstr's `is_ascii`: every byte is below 0x80. */
  predicate IsAscii(s: Bytes) {
    forall i | 0 <= i < |s| :: s[i] < 0x80
  }

  predicate IsAsciiUpper(b: byte) {
    0x41 <= b <= 0x5A
  }

  function AsciiLowerByte(b: byte): byte {
    if IsAsciiUpper(b) then b + 0x20 else b
  }

  /** bstr's `to_ascii_lowercase`: maps `A`..`Z` to `a`..`z`, every other byte unchanged. */
  function AsciiLower(s: Bytes): Bytes {
    seq(|s|, i requires 0 <= i < |s| => AsciiLowerByte(s[i]))
  }

  /** ASCII lowercasing keeps the length, changes exactly the bytes `A`..`Z`, keeps ASCII text ASCII and is idempotent. */
  lemma AsciiLowerProperties(s: Bytes)
    ensures |AsciiLower(s)| == |s|
    ensures forall i | 0 <= i < |s| :: IsAsciiUpper(s[i]) ==> AsciiLower(s)[i] == s[i] + 0x20
    ensures forall i | 0 <= i < |s| :: !IsAsciiUpper(s[i]) ==> AsciiLower(s)[i] == s[i]
    ensures forall i | 0 <= i < |s| :: !IsAsciiUpper(AsciiLower(s)[i])
    ensures IsAscii(s) ==> IsAscii(AsciiLower(s))
    ensures AsciiLower(AsciiLower(s)) == AsciiLower(s)
  {
  }

  /** `ends_with_str`: `p` is a suffix of `s` (`starts_with_str` is Dafny's prefix test `p <= s`). */
  predicate IsSuffix(p: Bytes, s: Bytes) {
    |p| <= |s| && s[|s| - |p|..] == p
  }

  /** `p` occurs in `s` starting at index `i`. */
  predicate OccursAt(s: Bytes, p: Bytes, i: nat) {
    i + |p| <= |s| && s[i..i + |p|] == p
  }

  /** bstr's `contains_str`: `p` starts at the first byte of `s` or somewhere further on. */
  predicate Contains(s: Bytes, p: Bytes)
    decreases |s|
  {
    p <= s || (s != [] && Contains(s[1..], p))
  }

  lemma OccursShift(s: Bytes, p: Bytes, i: nat)
    requires s != []
    ensures OccursAt(s[1..], p, i) <==> OccursAt(s, p, i + 1)
  {
    if i + 1 + |p| <= |s| {
      assert s[1..][i..i + |p|] == s[i + 1..i + 1 + |p|];
    }
  }

  /** Substring search finds `p` exactly when some window of `s` equals `p`. */
  lemma {:induction false} ContainsIffOccurs(s: Bytes, p: Bytes)
    ensures Contains(s, p) <==> exists i: nat :: OccursAt(s, p, i)
    decreases |s|
  {
    if p <= s {
      assert OccursAt(s, p, 0);
    } else if s == [] {
      assert forall i: nat :: !OccursAt(s, p, i);
    } else {
      ContainsIffOccurs(s[1..], p);
      if Contains(s[1..], p) {
        var i: nat :| OccursAt(s[1..], p, i);
        OccursShift(s, p, i);
      } else {
        forall i: nat | OccursAt(s, p, i) ensures false {
          assert i != 0;
          OccursShift(s, p, i - 1);
        }
      }
    }
  }

  /** A NUL or any other byte inside an occurrence is part of it: `p` must match byte for byte. */
  lemma ContainsWitness(s: Bytes, p: Bytes, i: nat)
    requires OccursAt(s, p, i)
    ensures Contains(s, p)
  {
    ContainsIffOccurs(s, p);
  }

  /** A pattern holding a byte that never occurs in `s` is not contained in it. */
  lemma NotContainsMissingByte(s: Bytes, p: Bytes, j: nat)
    requires j < |p|
    requires forall i | 0 <= i < |s| :: s[i] != p[j]
    ensures !Contains(s, p)
  {
    ContainsIffOccurs(s, p);
    forall i: nat
      ensures !OccursAt(s, p, i)
    {
      if i + |p| <= |s| {
        assert s[i..i + |p|][j] == s[i + j];
      }
    }
  }

  /**
   * The bytes of a string literal of code points below 256. Used to write
   * the source's example lines; a non-ASCII character is written as its
   * UTF-8 bytes, one `\U{XX}` per byte.
   */
  function B(s: string): (r: Bytes)
    requires forall i | 0 <= i < |s| :: s[i] as int < 256
    ensures |r| == |s|
  {
    seq(|s|, i requires 0 <= i < |s| => s[i] as int as byte)
  }
}
