/**
 * Scans of any five lines, for the tests of the token dispatchers: which
 * lines a scan stores, with which numbers, given only which lines are
 * hits. It also holds the facts about fields and folding that those tests
 * need, stated over any tokens.
 */
module FiveLines {
  import opened Bytes
  import Ext
  import opened Unicode
  import opened Results
  import opened Scan
  import opened GenCheck
  import Scenarios
  import Wrappers

  // ---------------------------------------------------------------------
  // Hits among five lines
  // ---------------------------------------------------------------------

  lemma PositionsOfFour(a: bool, b: bool, c: bool, d: bool)
    ensures Positions([a, b, c, d]) ==
      (if a then [0] else []) + (if b then [1] else []) + (if c then [2] else []) + (if d then [3] else [])
  {
    Scenarios.PositionsOfThree(a, b, c);
    assert [a, b, c, d][..3] == [a, b, c];
  }

  lemma PositionsOfFive(a: bool, b: bool, c: bool, d: bool, e: bool)
    ensures Positions([a, b, c, d, e]) ==
      (if a then [0] else []) + (if b then [1] else []) + (if c then [2] else []) + (if d then [3] else [])
        + (if e then [4] else [])
  {
    PositionsOfFour(a, b, c, d);
    assert [a, b, c, d, e][..4] == [a, b, c, d];
  }

  /** Under a budget of 2, verdicts on five lines whose first hits are the second and third record those two. */
  lemma SelectedSecondThird(f: seq<bool>)
    requires |f| == 5 && !f[0] && f[1] && f[2]
    ensures Selected(f, Wrappers.Some(2)) == [1, 2]
  {
    assert f[..3] == [f[0], f[1], f[2]];
    Scenarios.PositionsOfThree(f[0], f[1], f[2]);
    SpentBudgetIgnoresRest(f[..3], f[3..], 2);
    assert f[..3] + f[3..] == f;
  }

  /** Under a budget of 1, verdicts on five lines whose first hit is the second record that one. */
  lemma SelectedSecond(f: seq<bool>)
    requires |f| == 5 && !f[0] && f[1]
    ensures Selected(f, Wrappers.Some(1)) == [1]
  {
    assert f[..2] == [f[0], f[1]];
    Scenarios.PositionsOfTwo(f[0], f[1]);
    SpentBudgetIgnoresRest(f[..2], f[2..], 1);
    assert f[..2] + f[2..] == f;
  }

  /** Without a budget, verdicts on five lines that hold on the second, third and fifth record those three. */
  lemma SelectedSecondThirdFifth(f: seq<bool>)
    requires |f| == 5 && !f[0] && f[1] && f[2] && !f[3] && f[4]
    ensures Selected(f, Wrappers.None) == [1, 2, 4]
  {
    assert f == [false, true, true, false, true];
    PositionsOfFive(false, true, true, false, true);
  }

  /** Without a budget, verdicts on five lines that hold on the fourth alone record that one. */
  lemma SelectedFourth(f: seq<bool>)
    requires |f| == 5 && !f[0] && !f[1] && !f[2] && f[3] && !f[4]
    ensures Selected(f, Wrappers.None) == [3]
  {
    assert f == [false, false, false, true, false];
    PositionsOfFive(false, false, false, true, false);
  }

  /** A search of a readable text returns what it records, numbered in a numbered search. */
  lemma SearchOfSelected(d: Driver, s: Searcher, check: Check, u: Tables, idx: seq<nat>)
    requires d.mode != Cnt && Runnable(d, s) && s.reader.failure.None?
    requires Selected(Flags(ProbeOf(d, s, check, u), s.reader.lines), BudgetOf(d, s)) == idx
    ensures Expected(d, s, check, u) == UpcastSearch(Stored(s.reader.lines, idx), if d.mode == LineNumber then Numbered(idx) else [])
  {
  }

  // ---------------------------------------------------------------------
  // What a scan of five lines stores
  // ---------------------------------------------------------------------

  /**
   * Under a budget of 2, a search whose first hits are the second and third
   * lines stores those two, numbered 2 and 3, whatever the last two lines are.
   */
  lemma SecondThirdUnderBudgetTwo(d: Driver, s: Searcher, check: Check, u: Tables)
    requires d.mode != Cnt && d.budgeted && s.matcher.config.maxCount == Wrappers.Some(2)
    requires s.reader.failure.None? && |s.reader.lines| == 5
    requires var pr, lines := ProbeOf(d, s, check, u), s.reader.lines;
      !Hit(pr, lines[0]) && Hit(pr, lines[1]) && Hit(pr, lines[2])
    ensures var lines := s.reader.lines;
      Expected(d, s, check, u) == Wrappers.Ok(Search(SearchResult([Ext.TrimTerminator(lines[1]), Ext.TrimTerminator(lines[2])],
        if d.mode == LineNumber then Some([2, 3]) else None)))
  {
    var lines := s.reader.lines;
    SelectedSecondThird(Flags(ProbeOf(d, s, check, u), lines));
    SearchOfSelected(d, s, check, u, [1, 2]);
    assert Stored(lines, [1, 2]) == [Ext.TrimTerminator(lines[1]), Ext.TrimTerminator(lines[2])];
    assert Numbered([1, 2]) == [2, 3];
  }

  /** Under a budget of 1, a search whose first hit is the second line stores that line alone, numbered 2. */
  lemma SecondUnderBudgetOne(d: Driver, s: Searcher, check: Check, u: Tables)
    requires d.mode != Cnt && d.budgeted && s.matcher.config.maxCount == Wrappers.Some(1)
    requires s.reader.failure.None? && |s.reader.lines| == 5
    requires var pr, lines := ProbeOf(d, s, check, u), s.reader.lines;
      !Hit(pr, lines[0]) && Hit(pr, lines[1])
    ensures Expected(d, s, check, u) == Wrappers.Ok(Search(SearchResult([Ext.TrimTerminator(s.reader.lines[1])],
      if d.mode == LineNumber then Some([2]) else None)))
  {
    var lines := s.reader.lines;
    SelectedSecond(Flags(ProbeOf(d, s, check, u), lines));
    SearchOfSelected(d, s, check, u, [1]);
    assert Stored(lines, [1]) == [Ext.TrimTerminator(lines[1])];
    assert Numbered([1]) == [2];
  }

  /** An unbudgeted search whose hits are the second, third and fifth lines stores those three. */
  lemma SecondThirdFifthOfFive(d: Driver, s: Searcher, check: Check, u: Tables)
    requires d.mode != Cnt && !d.budgeted && s.reader.failure.None? && |s.reader.lines| == 5
    requires var pr, lines := ProbeOf(d, s, check, u), s.reader.lines;
      !Hit(pr, lines[0]) && Hit(pr, lines[1]) && Hit(pr, lines[2]) && !Hit(pr, lines[3]) && Hit(pr, lines[4])
    ensures var lines := s.reader.lines;
      Expected(d, s, check, u) == Wrappers.Ok(Search(SearchResult(
        [Ext.TrimTerminator(lines[1]), Ext.TrimTerminator(lines[2]), Ext.TrimTerminator(lines[4])],
        if d.mode == LineNumber then Some([2, 3, 5]) else None)))
  {
    var lines := s.reader.lines;
    SelectedSecondThirdFifth(Flags(ProbeOf(d, s, check, u), lines));
    SearchOfSelected(d, s, check, u, [1, 2, 4]);
    assert Stored(lines, [1, 2, 4]) == [Ext.TrimTerminator(lines[1]), Ext.TrimTerminator(lines[2]), Ext.TrimTerminator(lines[4])];
    assert Numbered([1, 2, 4]) == [2, 3, 5];
  }

  /** An unbudgeted search whose only hit is the fourth line stores that line, numbered 4. */
  lemma FourthOfFive(d: Driver, s: Searcher, check: Check, u: Tables)
    requires d.mode != Cnt && !d.budgeted && s.reader.failure.None? && |s.reader.lines| == 5
    requires var pr, lines := ProbeOf(d, s, check, u), s.reader.lines;
      !Hit(pr, lines[0]) && !Hit(pr, lines[1]) && !Hit(pr, lines[2]) && Hit(pr, lines[3]) && !Hit(pr, lines[4])
    ensures Expected(d, s, check, u) == Wrappers.Ok(Search(SearchResult([Ext.TrimTerminator(s.reader.lines[3])],
      if d.mode == LineNumber then Some([4]) else None)))
  {
    var lines := s.reader.lines;
    SelectedFourth(Flags(ProbeOf(d, s, check, u), lines));
    SearchOfSelected(d, s, check, u, [3]);
    assert Stored(lines, [3]) == [Ext.TrimTerminator(lines[3])];
    assert Numbered([3]) == [4];
  }

  /** The number of hits among five verdicts. */
  lemma CountOfFiveFlags(a: bool, b: bool, c: bool, d: bool, e: bool)
    ensures |Positions([a, b, c, d, e])| ==
      (if a then 1 else 0) + (if b then 1 else 0) + (if c then 1 else 0) + (if d then 1 else 0) + (if e then 1 else 0)
  {
    PositionsOfFive(a, b, c, d, e);
  }

  /** A count of five lines under no budget or a non-zero one is the number of hits among them. */
  lemma CountOfFive(d: Driver, s: Searcher, check: Check, u: Tables)
    requires d.mode == Cnt && Runnable(d, s) && BudgetOf(d, s) != Wrappers.Some(0)
    requires s.reader.failure.None? && |s.reader.lines| == 5
    ensures var pr, lines := ProbeOf(d, s, check, u), s.reader.lines;
      Expected(d, s, check, u) == Wrappers.Ok(Count(
        (if Hit(pr, lines[0]) then 1 else 0) + (if Hit(pr, lines[1]) then 1 else 0) + (if Hit(pr, lines[2]) then 1 else 0)
          + (if Hit(pr, lines[3]) then 1 else 0) + (if Hit(pr, lines[4]) then 1 else 0)))
  {
    var pr, lines := ProbeOf(d, s, check, u), s.reader.lines;
    var f := Flags(pr, lines);
    assert f == [f[0], f[1], f[2], f[3], f[4]];
    CountOfFiveFlags(f[0], f[1], f[2], f[3], f[4]);
  }

  // ---------------------------------------------------------------------
  // Probes, fields and folding
  // ---------------------------------------------------------------------

  /** A probe that keeps case evaluates the predicate on the line itself. */
  lemma PlainProbe(pr: Probe, line: Bytes)
    requires !pr.caseless
    ensures Hit(pr, line) == Holds(pr.check, line, pr.pattern)
  {
  }

  /** A caseless probe evaluates the predicate on an ASCII line lowercased byte by byte, and on any other line lowercased through the tables. */
  lemma CaselessProbe(pr: Probe, line: Bytes)
    requires pr.caseless
    ensures IsAscii(line) ==> Hit(pr, line) == Holds(pr.check, AsciiLower(line), pr.pattern)
    ensures !IsAscii(line) ==> Hit(pr, line) == Holds(pr.check, pr.tables.lower(line), pr.pattern)
  {
  }

  /** A line without a capital ASCII letter is its own ASCII lowercasing. */
  lemma LowerKeeps(line: Bytes)
    requires forall i | 0 <= i < |line| :: !IsAsciiUpper(line[i])
    ensures AsciiLower(line) == line
  {
  }

  predicate IsToken(a: Bytes) {
    a != [] && forall j | 0 <= j < |a| :: IsTokenByte(a[j])
  }

  /** A line that is one token, with or without its `\n`, is one field. */
  lemma FieldsOfOne(a: Bytes, t: Bytes)
    requires IsToken(a) && (t == [] || t == [0x0A])
    ensures Fields(a + t) == [a]
  {
    if t == [] {
      assert a + t == a + [];
    } else {
      assert WsLen(t) == 1;
      FieldsSkip(t, []);
      assert t + [] == t;
    }
    FieldsPrepend(a, t);
  }

  /** Two tokens around one whitespace character, with or without a final `\n`, are two fields. */
  lemma FieldsOfTwoTokens(a: Bytes, w: Bytes, b: Bytes, t: Bytes)
    requires IsToken(a) && IsToken(b) && (t == [] || t == [0x0A])
    requires WsLen(w + (b + t)) == |w| > 0
    ensures Fields(a + (w + (b + t))) == [a, b]
  {
    FieldsOfOne(b, t);
    FieldsSkip(w, b + t);
    FieldsPrepend(a, w + (b + t));
  }

  /** On a line that is one token, each token predicate asks about that token alone. */
  lemma TokenChecksOfOne(a: Bytes, t: Bytes, p: Bytes)
    requires IsToken(a) && (t == [] || t == [0x0A])
    ensures CheckStartsWith(a + t, p) <==> p <= a
    ensures CheckEndsWith(a + t, p) <==> IsSuffix(p, a)
    ensures CheckStartsEndsWith(a + t, p) <==> p <= a && IsSuffix(p, a)
  {
    FieldsOfOne(a, t);
    assert Fields(a + t)[0] == a;
  }

  /** On a line of two tokens, each token predicate holds exactly when it holds for one of them. */
  lemma TokenChecksOfTwo(a: Bytes, w: Bytes, b: Bytes, t: Bytes, p: Bytes)
    requires IsToken(a) && IsToken(b) && (t == [] || t == [0x0A])
    requires WsLen(w + (b + t)) == |w| > 0
    ensures var line := a + (w + (b + t));
      CheckStartsWith(line, p) <==> p <= a || p <= b
    ensures var line := a + (w + (b + t));
      CheckEndsWith(line, p) <==> IsSuffix(p, a) || IsSuffix(p, b)
    ensures var line := a + (w + (b + t));
      CheckStartsEndsWith(line, p) <==> (p <= a && IsSuffix(p, a)) || (p <= b && IsSuffix(p, b))
  {
    FieldsOfTwoTokens(a, w, b, t);
    var f := Fields(a + (w + (b + t)));
    assert f[0] == a && f[1] == b;
  }

  /** A pattern is not a suffix of a line that differs from it at one aligned byte. */
  lemma NoSuffixAt(s: Bytes, p: Bytes, j: nat)
    requires |p| <= |s| && j < |p| && s[|s| - |p| + j] != p[j]
    ensures !IsSuffix(p, s)
  {
    assert s[|s| - |p|..][j] == s[|s| - |p| + j];
  }

  /** A pattern byte the line lacks rules out every token predicate. */
  lemma NoFieldWithMissingByte(line: Bytes, p: Bytes, j: nat)
    requires j < |p| && p[j] !in line
    ensures !CheckStartsWith(line, p) && !CheckEndsWith(line, p) && !CheckStartsEndsWith(line, p)
  {
    FieldBytesOccur(line);
    var f := Fields(line);
    assert forall k | 0 <= k < |f| :: !(p <= f[k]) && !IsSuffix(p, f[k]);
  }

  /** An ASCII line, lowercased, matches no token predicate with a non-ASCII pattern byte. */
  lemma AsciiNoTokenHit(line: Bytes, p: Bytes, j: nat)
    requires IsAscii(line) && j < |p| && p[j] >= 0x80
    ensures var l := AsciiLower(line);
      !CheckStartsWith(l, p) && !CheckEndsWith(l, p) && !CheckStartsEndsWith(l, p)
  {
    AsciiLowerProperties(line);
    var l := AsciiLower(line);
    assert p[j] !in l;
    NoFieldWithMissingByte(l, p, j);
  }
}
