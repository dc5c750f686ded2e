/**
 * The crate's byte-slice extensions: trimming a line's terminator and the
 * oldest starts-with predicate, which splits the trimmed line on single
 * spaces.
 */
module Ext {
  import opened Bytes

  predicate IsTerminator(b: byte) {
    b == 0x0A || b == 0x0D
  }

  /**
   * `trim_terminator`: drops every trailing `\n` and `\r`. The result is a
   * prefix of the line, does not end in a terminator byte, and everything
   * cut off was a terminator byte.
   */
  function TrimTerminator(s: Bytes): (r: Bytes)
    ensures r <= s
    ensures r == [] || !IsTerminator(r[|r| - 1])
    ensures forall i | |r| <= i < |s| :: IsTerminator(s[i])
    decreases |s|
  {
    if s != [] && IsTerminator(s[|s| - 1]) then TrimTerminator(s[..|s| - 1]) else s
  }

  /** The three properties of `TrimTerminator` determine its result: any such prefix is the trimmed line. */
  lemma TrimTerminatorUnique(s: Bytes, r: Bytes)
    requires r <= s
    requires r == [] || !IsTerminator(r[|r| - 1])
    requires forall i | |r| <= i < |s| :: IsTerminator(s[i])
    ensures r == TrimTerminator(s)
  {
    var t := TrimTerminator(s);
    assert |r| == |t|;
    assert r == s[..|r|] == s[..|t|] == t;
  }

  /** Trimming twice is trimming once. */
  lemma TrimTerminatorIdempotent(s: Bytes)
    ensures TrimTerminator(TrimTerminator(s)) == TrimTerminator(s)
  {
  }

  /** A line that does not end in `\n` or `\r` is returned as it is. */
  lemma TrimTerminatorKeepsUnterminated(s: Bytes)
    requires s == [] || !IsTerminator(s[|s| - 1])
    ensures TrimTerminator(s) == s
  {
  }

  /** Only terminator bytes are removed: `"a\r\n\r\n"` becomes `"a"`, and a NUL inside the line stays. */
  lemma TrimTerminatorExamples()
    ensures TrimTerminator(B("a\r\n\r\n")) == B("a")
    ensures TrimTerminator(B("made a r\0un\r\n")) == B("made a r\0un")
  {
    TrimTerminatorUnique(B("a\r\n\r\n"), B("a"));
    TrimTerminatorUnique(B("made a r\0un\r\n"), B("made a r\0un"));
  }

  /** bstr's `split_str(" ")`: the pieces between single spaces, empty pieces included; never empty. */
  function SplitOnSpace(s: Bytes): (r: seq<Bytes>)
    ensures |r| >= 1
    decreases |s|
  {
    if s == [] then [[]]
    else
      var rest := SplitOnSpace(s[1..]);
      if s[0] == 0x20 then [[]] + rest else [[s[0]] + rest[0]] + rest[1..]
  }

  /** The pieces put back together with a space between each two. */
  function JoinWithSpace(pieces: seq<Bytes>): Bytes
    requires |pieces| >= 1
    decreases |pieces|
  {
    if |pieces| == 1 then pieces[0] else pieces[0] + [0x20] + JoinWithSpace(pieces[1..])
  }

  /** Splitting on spaces loses nothing: no piece holds a space, and joining the pieces gives the line back. */
  lemma {:induction false} SplitOnSpaceJoin(s: Bytes)
    ensures JoinWithSpace(SplitOnSpace(s)) == s
    ensures forall k | 0 <= k < |SplitOnSpace(s)| :: 0x20 !in SplitOnSpace(s)[k]
    decreases |s|
  {
    if s != [] {
      var rest := SplitOnSpace(s[1..]);
      SplitOnSpaceJoin(s[1..]);
      if s[0] == 0x20 {
        assert SplitOnSpace(s) == [[]] + rest;
        assert ([[]] + rest)[1..] == rest;
        assert s == [s[0]] + s[1..];
      } else {
        var pieces := SplitOnSpace(s);
        assert pieces == [[s[0]] + rest[0]] + rest[1..];
        assert pieces[1..] == rest[1..];
        if |rest| == 1 {
          assert s == [s[0]] + s[1..];
        } else {
          assert JoinWithSpace(rest) == rest[0] + [0x20] + JoinWithSpace(rest[1..]);
          assert JoinWithSpace(pieces) == [s[0]] + rest[0] + [0x20] + JoinWithSpace(rest[1..]);
          assert s == [s[0]] + s[1..];
        }
        forall k | 0 <= k < |pieces| ensures 0x20 !in pieces[k] {
          if k == 0 {
            assert 0x20 !in rest[0];
          } else {
            assert pieces[k] == rest[k];
          }
        }
      }
    }
  }

  /** A line without a space is a single piece. */
  lemma {:induction false} SplitOnSpaceNoSpace(s: Bytes)
    requires 0x20 !in s
    ensures SplitOnSpace(s) == [s]
    decreases |s|
  {
    if s != [] {
      assert 0x20 !in s[1..] by {
        forall i | 0 <= i < |s[1..]| ensures s[1..][i] != 0x20 {
          assert s[1..][i] == s[i + 1];
        }
      }
      SplitOnSpaceNoSpace(s[1..]);
      assert s[0] != 0x20;
      assert [s[0]] + s[1..] == s;
    }
  }

  /**
   * The old `check_starts_with`: some piece of the trimmed line, split on
   * single spaces only, begins with the pattern. A tab is not a separator.
   */
  predicate CheckStartsWith(line: Bytes, pattern: Bytes) {
    var pieces := SplitOnSpace(TrimTerminator(line));
    exists k | 0 <= k < |pieces| :: pattern <= pieces[k]
  }
}
