/**
 * What the engine takes from Unicode. Whitespace splitting (bstr's
 * `fields`) is given concretely: the White_Space characters are a fixed
 * list of 25 code points, recognised here by their UTF-8 encodings. Full
 * lowercasing (`to_lowercase`, `to_lowercase_into`) and word segmentation
 * (bstr's `words`, Unicode Standard Annex #29, section 4) are tables the
 * model does not spell out: they are the fields of a `Tables` value, and
 * `AsciiLowering` and `WordsWellFormed` state the little the engine relies
 * on.
 */
module Unicode {
  import opened Bytes

  predicate IsAsciiWhitespace(b: byte) {
    (0x09 <= b <= 0x0D) || b == 0x20
  }

  /**
   * The length of the White_Space character whose UTF-8 encoding starts
   * `s`, or 0: U+0009..U+000D, U+0020, U+0085, U+00A0, U+1680,
   * U+2000..U+200A, U+2028, U+2029, U+202F, U+205F and U+3000. Every
   * encoding begins with an ASCII byte or a lead byte, so a byte-by-byte
   * scan finds the same characters as bstr's decoding does.
   */
  function WsLen(s: Bytes): (n: nat)
    ensures n <= |s|
    ensures n <= 3
    ensures s != [] && IsAsciiWhitespace(s[0]) ==> n == 1
    ensures s != [] && s[0] < 0x80 && !IsAsciiWhitespace(s[0]) ==> n == 0
  {
    if |s| >= 1 && IsAsciiWhitespace(s[0]) then 1
    else if |s| >= 2 && s[0] == 0xC2 && (s[1] == 0x85 || s[1] == 0xA0) then 2
    else if |s| >= 3 && s[0] == 0xE1 && s[1] == 0x9A && s[2] == 0x80 then 3
    else if |s| >= 3 && s[0] == 0xE2 && s[1] == 0x80
         && ((0x80 <= s[2] <= 0x8A) || s[2] == 0xA8 || s[2] == 0xA9 || s[2] == 0xAF) then 3
    else if |s| >= 3 && s[0] == 0xE2 && s[1] == 0x81 && s[2] == 0x9F then 3
    else if |s| >= 3 && s[0] == 0xE3 && s[1] == 0x80 && s[2] == 0x80 then 3
    else 0
  }

  /** The number of leading bytes of `s` before the first whitespace character. */
  function TokenLen(s: Bytes): (n: nat)
    ensures n <= |s|
    ensures s != [] && WsLen(s) == 0 ==> n >= 1
    ensures forall j | 0 <= j < n :: WsLen(s[j..]) == 0
    decreases |s|
  {
    if s == [] || WsLen(s) > 0 then 0
    else
      var n := 1 + TokenLen(s[1..]);
      assert forall j | 1 <= j < n :: s[j..] == s[1..][j - 1..];
      n
  }

  /** bstr's `fields`: the maximal runs of non-whitespace characters of `s`, in order. */
  function Fields(s: Bytes): seq<Bytes>
    decreases |s|
  {
    if s == [] then []
    else if WsLen(s) > 0 then Fields(s[WsLen(s)..])
    else
      var n := TokenLen(s);
      [s[..n]] + Fields(s[n..])
  }

  /** Every field is non-empty and holds no ASCII whitespace byte, so no `\n`, `\r`, space or tab. */
  lemma {:induction false} FieldsWellFormed(s: Bytes)
    ensures forall k | 0 <= k < |Fields(s)| :: Fields(s)[k] != []
    ensures forall k, j | 0 <= k < |Fields(s)| && 0 <= j < |Fields(s)[k]| :: !IsAsciiWhitespace(Fields(s)[k][j])
    decreases |s|
  {
    if s == [] {
    } else if WsLen(s) > 0 {
      FieldsWellFormed(s[WsLen(s)..]);
    } else {
      var n := TokenLen(s);
      FieldsWellFormed(s[n..]);
      var f := Fields(s);
      assert f == [s[..n]] + Fields(s[n..]);
      forall j | 0 <= j < n ensures !IsAsciiWhitespace(s[j]) {
        assert WsLen(s[j..]) == 0;
      }
      forall k | 0 <= k < |f| ensures f[k] != [] && forall j | 0 <= j < |f[k]| :: !IsAsciiWhitespace(f[k][j]) {
        if k > 0 {
          assert f[k] == Fields(s[n..])[k - 1];
        }
      }
    }
  }

  /** A byte that is neither an ASCII whitespace byte nor the lead byte of a longer whitespace character. */
  predicate IsTokenByte(b: byte) {
    !IsAsciiWhitespace(b) && b != 0xC2 && b != 0xE1 && b != 0xE2 && b != 0xE3
  }

  lemma {:induction false} TokenLenOfToken(a: Bytes, rest: Bytes)
    requires forall j | 0 <= j < |a| :: IsTokenByte(a[j])
    requires rest == [] || WsLen(rest) > 0
    ensures TokenLen(a + rest) == |a|
    decreases |a|
  {
    if a == [] {
      assert a + rest == rest;
    } else {
      assert (a + rest)[0] == a[0];
      assert WsLen(a + rest) == 0;
      assert (a + rest)[1..] == a[1..] + rest;
      TokenLenOfToken(a[1..], rest);
    }
  }

  /** A run of token bytes followed by whitespace or the end of the line is the next field. */
  lemma FieldsPrepend(a: Bytes, rest: Bytes)
    requires a != [] && forall j | 0 <= j < |a| :: IsTokenByte(a[j])
    requires rest == [] || WsLen(rest) > 0
    ensures Fields(a + rest) == [a] + Fields(rest)
  {
    TokenLenOfToken(a, rest);
    var s := a + rest;
    assert WsLen(s) == 0 by { assert s[0] == a[0]; }
    assert s[..|a|] == a;
    assert s[|a|..] == rest;
  }

  /** A leading whitespace character separates fields and is dropped. */
  lemma FieldsSkip(w: Bytes, rest: Bytes)
    requires WsLen(w + rest) == |w| > 0
    ensures Fields(w + rest) == Fields(rest)
  {
    assert (w + rest)[|w|..] == rest;
  }

  /** Two tokens around one whitespace character are the two fields of the line. */
  lemma FieldsOfTwo(a: Bytes, w: Bytes, b: Bytes)
    requires a != [] && forall j | 0 <= j < |a| :: IsTokenByte(a[j])
    requires b != [] && forall j | 0 <= j < |b| :: IsTokenByte(b[j])
    requires WsLen(w + b) == |w| > 0
    ensures Fields(a + (w + b)) == [a, b]
  {
    FieldsPrepend(b, []);
    assert b + [] == b;
    FieldsSkip(w, b);
    FieldsPrepend(a, w + b);
  }

  /** Every byte of every field is a byte of the line. */
  lemma FieldBytesOccur(s: Bytes)
    ensures forall k, j | 0 <= k < |Fields(s)| && 0 <= j < |Fields(s)[k]| :: Fields(s)[k][j] in s
  {
    forall k, j | 0 <= k < |Fields(s)| && 0 <= j < |Fields(s)[k]| ensures Fields(s)[k][j] in s {
      var f := Fields(s)[k];
      FieldOccurs(s, k);
      var i: nat :| OccursAt(s, f, i);
      assert f[j] == s[i..i + |f|][j] == s[i + j];
    }
  }

  /** Every field is a contiguous window of the line it was split from. */
  lemma {:induction false} FieldOccurs(s: Bytes, k: nat)
    requires k < |Fields(s)|
    ensures exists i: nat :: OccursAt(s, Fields(s)[k], i)
    decreases |s|
  {
    var f := Fields(s)[k];
    if WsLen(s) > 0 {
      var w := WsLen(s);
      assert Fields(s) == Fields(s[w..]);
      FieldOccurs(s[w..], k);
      var i: nat :| OccursAt(s[w..], f, i);
      OccursInTail(s, w, f, i);
    } else {
      var n := TokenLen(s);
      assert Fields(s) == [s[..n]] + Fields(s[n..]);
      if k == 0 {
        assert OccursAt(s, f, 0);
      } else {
        assert f == Fields(s[n..])[k - 1];
        FieldOccurs(s[n..], k - 1);
        var i: nat :| OccursAt(s[n..], f, i);
        OccursInTail(s, n, f, i);
      }
    }
  }

  /** An occurrence in a tail of the line is one in the line, further on. */
  lemma OccursInTail(s: Bytes, w: nat, f: Bytes, i: nat)
    requires w <= |s| && OccursAt(s[w..], f, i)
    ensures OccursAt(s, f, w + i)
  {
    assert s[w..][i..i + |f|] == s[w + i..w + i + |f|];
  }

  /**
   * The Unicode tables the engine consults. `lower` is the lowercasing
   * applied to a line (bstr's `to_lowercase_into`), which maps one character
   * at a time, so every capital sigma becomes `σ`. `lowerPattern` is the one
   * applied to the pattern (`String::to_lowercase`), which also applies the
   * context-dependent rule that turns a word-final capital sigma into `ς`.
   * The two can therefore disagree on the same bytes. `words` is word
   * segmentation with the non-word segments dropped.
   */
  datatype Tables = Tables(lower: Bytes -> Bytes, lowerPattern: Bytes -> Bytes, words: Bytes -> seq<Bytes>)

  /** The punctuation UAX #29 lets into a word only when a letter or digit follows it: `,` `.` `:` `;`. */
  predicate IsMidWordPunctuation(b: byte) {
    b == 0x2C || b == 0x2E || b == 0x3A || b == 0x3B
  }

  /** Both lowercasings agree with ASCII lowercasing on ASCII text (none of the special rules involves an ASCII character). */
  ghost predicate AsciiLowering(t: Tables) {
    && (forall s :: IsAscii(s) ==> t.lower(s) == AsciiLower(s))
    && (forall s :: IsAscii(s) ==> t.lowerPattern(s) == AsciiLower(s))
  }

  /**
   * A word is non-empty and never ends in `,` `.` `:` or `;`. Rules WB6,
   * WB7, WB11 and WB12 of section 4 of UAX #29 keep one of them inside a
   * word only when a letter or digit follows it. The apostrophe is not in
   * the list: rule WB7a keeps a Hebrew letter and a following `'` together,
   * so a word can end in `'`.
   */
  ghost predicate WordsWellFormed(t: Tables) {
    forall s, k | 0 <= k < |t.words(s)| ::
      t.words(s)[k] != [] && !IsMidWordPunctuation(t.words(s)[k][|t.words(s)[k]| - 1])
  }

  /** The copy of a line that caseless drivers test: ASCII lowercasing for an ASCII line, full lowercasing otherwise. */
  function Fold(t: Tables, line: Bytes): Bytes {
    if IsAscii(line) then AsciiLower(line) else t.lower(line)
  }

  /** The ASCII fast path is only a shortcut: the folded copy is always the full Unicode lowercasing. */
  lemma FoldIsLowercase(t: Tables, line: Bytes)
    requires AsciiLowering(t)
    ensures Fold(t, line) == t.lower(line)
  {
  }
}
