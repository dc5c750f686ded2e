/**
 * The unit tests of the current base and budgeted searches, stated on the
 * model: each test's three-line text, pattern and flags, and the result
 * the test expects. Every example is split in two: a lemma over any
 * three-line text that only says which lines are hits, and the example
 * itself, which supplies those hits for the test's own bytes. The Unicode
 * lowercasing of a non-ASCII line is not computed by the model, so the
 * caseless examples take it as a hypothesis.
 */
module Scenarios {
  import opened Bytes
  import ByteOps = Bytes
  import opened Ext
  import opened Unicode
  import opened Results
  import opened Matchers
  import opened Scan
  import opened GenCheck
  import SearchBase
  import SearchMaxCount
  import Wrappers

  /** `LINE`: `"He started\nmade a run\n& stopped"`, line by line with terminators. */
  function Line(): seq<Bytes> {
    [B("He started\n"), B("made a run\n"), B("& stopped")]
  }

  /** `LINE_BIN`: a NUL inside the word `made` of the second line. */
  function LineBin(): seq<Bytes> {
    [B("He started\n"), B("mad\0e a run\n"), B("& stopped")]
  }

  /** `LINE_BIN3`: CRLF terminators and a NUL in the second line. */
  function LineBin3(): seq<Bytes> {
    [B("He started\r\n"), B("made a r\0un\r\n"), B("& stopped")]
  }

  /** `LINE_MAX_NON_ASCII`: the last line holds a capital gamma, bytes CE 93. */
  function LineMaxNonAscii(): seq<Bytes> {
    [B("He started again\n"), B("a\0nd again\n"), B("& A\U{CE}\U{93}ain")]
  }

  /** The third line of `LINE_MAX_NON_ASCII` lowercased: the gamma becomes bytes CE B3. */
  function LowerThird(): Bytes {
    B("& a\U{CE}\U{B3}ain")
  }

  function SearcherOf(lines: seq<Bytes>, pattern: Bytes, c: Config): Searcher {
    Searcher(Reader(lines, Wrappers.None), Matcher(pattern, c, SelectType(c)))
  }

  // ---------------------------------------------------------------------
  // Scans of any three lines
  // ---------------------------------------------------------------------

  lemma PositionsOfTwo(a: bool, b: bool)
    ensures Positions([a, b]) == (if a then [0] else []) + (if b then [1] else [])
  {
    assert [a][..0] == [];
    assert [a, b][..1] == [a];
  }

  /** The positions of three verdicts. */
  lemma PositionsOfThree(a: bool, b: bool, c: bool)
    ensures Positions([a, b, c]) == (if a then [0] else []) + (if b then [1] else []) + (if c then [2] else [])
  {
    PositionsOfTwo(a, b);
    assert [a, b, c][..2] == [a, b];
  }

  /** The lines of a three-line text that the predicate holds on. */
  lemma HitsOfThree(pr: Probe, lines: seq<Bytes>)
    requires |lines| == 3
    ensures Hits(pr, lines) ==
      (if Hit(pr, lines[0]) then [0] else []) + (if Hit(pr, lines[1]) then [1] else []) + (if Hit(pr, lines[2]) then [2] else [])
  {
    assert Flags(pr, lines) == [Hit(pr, lines[0]), Hit(pr, lines[1]), Hit(pr, lines[2])];
    PositionsOfThree(Hit(pr, lines[0]), Hit(pr, lines[1]), Hit(pr, lines[2]));
  }

  /** An unbudgeted search of a readable text stores all its hits, numbered in a numbered search. */
  lemma UnbudgetedSearch(d: Driver, s: Searcher, check: Check, u: Tables)
    requires d.mode != Cnt && !d.budgeted && s.reader.failure.None?
    ensures var idx := Hits(ProbeOf(d, s, check, u), s.reader.lines);
      Expected(d, s, check, u) == UpcastSearch(Stored(s.reader.lines, idx), if d.mode == LineNumber then Numbered(idx) else [])
  {
  }

  /** Three lines without a hit give the default, empty search result. */
  lemma NoneOfThree(d: Driver, s: Searcher, check: Check, u: Tables)
    requires d.mode != Cnt && !d.budgeted && s.reader.failure.None? && |s.reader.lines| == 3
    requires var pr, lines := ProbeOf(d, s, check, u), s.reader.lines;
      !Hit(pr, lines[0]) && !Hit(pr, lines[1]) && !Hit(pr, lines[2])
    ensures Expected(d, s, check, u) == Wrappers.Ok(Search(DefaultSearchResult()))
  {
    HitsOfThree(ProbeOf(d, s, check, u), s.reader.lines);
    UnbudgetedSearch(d, s, check, u);
  }

  /** A numbered search of three lines of which only the second is a hit stores that line, numbered 2. */
  lemma StoresSecondOfThree(d: Driver, s: Searcher, check: Check, u: Tables)
    requires d.mode == LineNumber && !d.budgeted && s.reader.failure.None? && |s.reader.lines| == 3
    requires var pr, lines := ProbeOf(d, s, check, u), s.reader.lines;
      !Hit(pr, lines[0]) && Hit(pr, lines[1]) && !Hit(pr, lines[2])
    ensures Expected(d, s, check, u) == Wrappers.Ok(Search(SearchResult([TrimTerminator(s.reader.lines[1])], Some([2]))))
  {
    var pr, lines := ProbeOf(d, s, check, u), s.reader.lines;
    HitsOfThree(pr, lines);
    assert Hits(pr, lines) == [1];
    UnbudgetedSearch(d, s, check, u);
    assert Stored(lines, [1]) == [TrimTerminator(lines[1])];
    assert Numbered([1]) == [2];
  }

  /** A search without numbers of three lines of which only the third is a hit stores that line, and no numbers. */
  lemma StoresThirdOfThree(d: Driver, s: Searcher, check: Check, u: Tables)
    requires d.mode == NoLineNumber && !d.budgeted && s.reader.failure.None? && |s.reader.lines| == 3
    requires var pr, lines := ProbeOf(d, s, check, u), s.reader.lines;
      !Hit(pr, lines[0]) && !Hit(pr, lines[1]) && Hit(pr, lines[2])
    ensures Expected(d, s, check, u) == Wrappers.Ok(Search(SearchResult([TrimTerminator(s.reader.lines[2])], None)))
  {
    var pr, lines := ProbeOf(d, s, check, u), s.reader.lines;
    HitsOfThree(pr, lines);
    assert Hits(pr, lines) == [2];
    UnbudgetedSearch(d, s, check, u);
    assert Stored(lines, [2]) == [TrimTerminator(lines[2])];
  }

  /** A search of three lines whose first two are hits stores those two, numbered 1 and 2 in a numbered search. */
  lemma StoresFirstTwoOfThree(d: Driver, s: Searcher, check: Check, u: Tables)
    requires d.mode != Cnt && !d.budgeted && s.reader.failure.None? && |s.reader.lines| == 3
    requires var pr, lines := ProbeOf(d, s, check, u), s.reader.lines;
      Hit(pr, lines[0]) && Hit(pr, lines[1]) && !Hit(pr, lines[2])
    ensures var lines := s.reader.lines;
      Expected(d, s, check, u) == Wrappers.Ok(Search(SearchResult([TrimTerminator(lines[0]), TrimTerminator(lines[1])],
        if d.mode == LineNumber then Some([1, 2]) else None)))
  {
    var pr, lines := ProbeOf(d, s, check, u), s.reader.lines;
    HitsOfThree(pr, lines);
    assert Hits(pr, lines) == [0, 1];
    UnbudgetedSearch(d, s, check, u);
    assert Stored(lines, [0, 1]) == [TrimTerminator(lines[0]), TrimTerminator(lines[1])];
    assert Numbered([0, 1]) == [1, 2];
  }

  /** A numbered search under a budget of 1 whose first line is a hit stores that line alone, numbered 1. */
  lemma FirstUnderBudgetOne(d: Driver, s: Searcher, check: Check, u: Tables)
    requires d.mode == LineNumber && d.budgeted && s.matcher.config.maxCount == Wrappers.Some(1)
    requires s.reader.failure.None? && s.reader.lines != [] && Hit(ProbeOf(d, s, check, u), s.reader.lines[0])
    ensures Expected(d, s, check, u) == Wrappers.Ok(Search(SearchResult([TrimTerminator(s.reader.lines[0])], Some([1]))))
  {
    var pr, lines := ProbeOf(d, s, check, u), s.reader.lines;
    var flags := Flags(pr, lines);
    var h := Positions(flags);
    assert 0 in h;
    assert h[0] == 0;
    assert Selected(flags, Wrappers.Some(1)) == [0];
    assert Stored(lines, [0]) == [TrimTerminator(lines[0])];
    assert Numbered([0]) == [1];
  }

  /** A count of three lines under no budget or a non-zero one is the number of hits among them. */
  lemma CountOfThree(d: Driver, s: Searcher, check: Check, u: Tables)
    requires d.mode == Cnt && Runnable(d, s) && BudgetOf(d, s) != Wrappers.Some(0)
    requires s.reader.failure.None? && |s.reader.lines| == 3
    ensures var pr, lines := ProbeOf(d, s, check, u), s.reader.lines;
      Expected(d, s, check, u) == Wrappers.Ok(Count(
        (if Hit(pr, lines[0]) then 1 else 0) + (if Hit(pr, lines[1]) then 1 else 0) + (if Hit(pr, lines[2]) then 1 else 0)))
  {
    var pr, lines := ProbeOf(d, s, check, u), s.reader.lines;
    assert Expected(d, s, check, u) == UpcastCount(|Hits(pr, lines)|);
    HitsOfThree(pr, lines);
  }

  /** A substring probe that keeps case tests the line itself. */
  lemma PlainHit(pr: Probe, line: Bytes)
    requires pr.check == Check.Contains && !pr.caseless
    ensures Hit(pr, line) == ByteOps.Contains(line, pr.pattern)
  {
  }

  /** A caseless substring probe tests an ASCII line lowercased byte by byte, and any other line through the tables. */
  lemma CaselessHit(pr: Probe, line: Bytes)
    requires pr.check == Check.Contains && pr.caseless
    ensures IsAscii(line) ==> Hit(pr, line) == ByteOps.Contains(AsciiLower(line), pr.pattern)
    ensures !IsAscii(line) ==> Hit(pr, line) == ByteOps.Contains(pr.tables.lower(line), pr.pattern)
  {
  }

  // ---------------------------------------------------------------------
  // The tests of the base search
  // ---------------------------------------------------------------------

  /** `find_no_match`: no line holds `"Made"`, so the result is the default one. */
  lemma FindNoMatch(u: Tables)
    ensures var c := DefaultConfig().(noLineNumber := true);
      Expected(SearchBase.Select(c), SearcherOf(Line(), B("Made"), c), Check.Contains, u)
        == Wrappers.Ok(Search(DefaultSearchResult()))
  {
    var c := DefaultConfig().(noLineNumber := true);
    var s := SearcherOf(Line(), B("Made"), c);
    var d := SearchBase.Select(c);
    var pr := ProbeOf(d, s, Check.Contains, u);
    CapitalMadeNotInFirst();
    CapitalMadeNotInSecond();
    CapitalMadeNotInThird();
    PlainHit(pr, Line()[0]);
    PlainHit(pr, Line()[1]);
    PlainHit(pr, Line()[2]);
    NoneOfThree(d, s, Check.Contains, u);
  }

  /** `find_a_match`: `"made"` is found on line 2 only. */
  lemma FindAMatch(u: Tables)
    ensures var c := DefaultConfig();
      Expected(SearchBase.Select(c), SearcherOf(Line(), B("made"), c), Check.Contains, u)
        == Wrappers.Ok(Search(SearchResult([B("made a run")], Some([2]))))
  {
    var c := DefaultConfig();
    var s := SearcherOf(Line(), B("made"), c);
    var d := SearchBase.Select(c);
    var pr := ProbeOf(d, s, Check.Contains, u);
    MadeNotInFirst();
    MadeInSecond();
    MadeNotInThird();
    PlainHit(pr, Line()[0]);
    PlainHit(pr, Line()[1]);
    PlainHit(pr, Line()[2]);
    StoresSecondOfThree(d, s, Check.Contains, u);
    TrimMadeARun();
  }

  /** `search_binary_text`: a NUL inside `made` breaks the match. */
  lemma SearchBinaryText(u: Tables)
    ensures var c := DefaultConfig();
      Expected(SearchBase.Select(c), SearcherOf(LineBin(), B("made"), c), Check.Contains, u)
        == Wrappers.Ok(Search(DefaultSearchResult()))
  {
    var c := DefaultConfig();
    var s := SearcherOf(LineBin(), B("made"), c);
    var d := SearchBase.Select(c);
    var pr := ProbeOf(d, s, Check.Contains, u);
    MadeNotInFirst();
    MadeNotInBinarySecond();
    MadeNotInThird();
    PlainHit(pr, LineBin()[0]);
    PlainHit(pr, LineBin()[1]);
    PlainHit(pr, LineBin()[2]);
    NoneOfThree(d, s, Check.Contains, u);
  }

  /** `line_number_caseless`: `"again"` is found, caseless, on lines 1 and 2 but not in the lowercased third line. */
  lemma LineNumberCaseless(u: Tables)
    requires u.lower(LineMaxNonAscii()[2]) == LowerThird()
    ensures var c := DefaultConfig().(ignoreCase := true);
      Expected(SearchBase.Select(c), SearcherOf(LineMaxNonAscii(), B("again"), c), Check.Contains, u)
        == Wrappers.Ok(Search(SearchResult([B("He started again"), B("a\0nd again")], Some([1, 2]))))
  {
    var c := DefaultConfig().(ignoreCase := true);
    var s := SearcherOf(LineMaxNonAscii(), B("again"), c);
    var d := SearchBase.Select(c);
    var pr := ProbeOf(d, s, Check.Contains, u);
    FirstTwoAscii();
    ThirdNotAscii();
    CaselessAgainInFirst();
    CaselessAgainInSecond();
    AgainNotInLowerThird();
    CaselessHit(pr, LineMaxNonAscii()[0]);
    CaselessHit(pr, LineMaxNonAscii()[1]);
    CaselessHit(pr, LineMaxNonAscii()[2]);
    StoresFirstTwoOfThree(d, s, Check.Contains, u);
    TrimHeStartedAgain();
    TrimAndAgain();
  }

  /** `no_line_number_caseless`: `"a\u{3b3}ain"` is found only in the third line, once lowercased. */
  lemma NoLineNumberCaseless(u: Tables)
    requires u.lower(LineMaxNonAscii()[2]) == LowerThird()
    ensures var c := DefaultConfig().(ignoreCase := true, noLineNumber := true);
      Expected(SearchBase.Select(c), SearcherOf(LineMaxNonAscii(), B("a\U{CE}\U{B3}ain"), c), Check.Contains, u)
        == Wrappers.Ok(Search(SearchResult([B("& A\U{CE}\U{93}ain")], None)))
  {
    var c := DefaultConfig().(ignoreCase := true, noLineNumber := true);
    var s := SearcherOf(LineMaxNonAscii(), B("a\U{CE}\U{B3}ain"), c);
    var d := SearchBase.Select(c);
    var pr := ProbeOf(d, s, Check.Contains, u);
    var lines := LineMaxNonAscii();
    FirstTwoAscii();
    ThirdNotAscii();
    GammaAgainNotInFirst();
    GammaAgainNotInSecond();
    GammaAgainInLowerThird();
    CaselessHit(pr, lines[0]);
    CaselessHit(pr, lines[1]);
    CaselessHit(pr, lines[2]);
    StoresThirdOfThree(d, s, Check.Contains, u);
  }

  /** `cnt`: two lines of `LINE_BIN3` hold a `t`. */
  lemma CntLineBin3(u: Tables)
    ensures var c := DefaultConfig().(count := true);
      Expected(SearchBase.Select(c), SearcherOf(LineBin3(), B("t"), c), Check.Contains, u) == Wrappers.Ok(Count(2))
  {
    var c := DefaultConfig().(count := true);
    var s := SearcherOf(LineBin3(), B("t"), c);
    var d := SearchBase.Select(c);
    var pr := ProbeOf(d, s, Check.Contains, u);
    TInFirst();
    TNotInBinarySecond();
    TInThird();
    PlainHit(pr, LineBin3()[0]);
    PlainHit(pr, LineBin3()[1]);
    PlainHit(pr, LineBin3()[2]);
    CountOfThree(d, s, Check.Contains, u);
  }

  /** `cnt_caseless`: only the lowercased third line holds a small gamma. */
  lemma CntCaseless(u: Tables)
    requires u.lower(LineMaxNonAscii()[2]) == LowerThird()
    ensures var c := DefaultConfig().(count := true, ignoreCase := true);
      Expected(SearchBase.Select(c), SearcherOf(LineMaxNonAscii(), B("\U{CE}\U{B3}"), c), Check.Contains, u)
        == Wrappers.Ok(Count(1))
  {
    var c := DefaultConfig().(count := true, ignoreCase := true);
    var s := SearcherOf(LineMaxNonAscii(), B("\U{CE}\U{B3}"), c);
    var d := SearchBase.Select(c);
    var pr := ProbeOf(d, s, Check.Contains, u);
    FirstTwoAscii();
    ThirdNotAscii();
    GammaNotInFirst();
    GammaNotInSecond();
    GammaInLowerThird();
    CaselessHit(pr, LineMaxNonAscii()[0]);
    CaselessHit(pr, LineMaxNonAscii()[1]);
    CaselessHit(pr, LineMaxNonAscii()[2]);
    CountOfThree(d, s, Check.Contains, u);
  }

  // ---------------------------------------------------------------------
  // The tests of the budgeted search
  // ---------------------------------------------------------------------

  /** `max_count_empty`: a zero budget stores nothing. */
  lemma MaxCountEmpty(u: Tables)
    ensures var c := DefaultConfig().(maxCount := Wrappers.Some(0));
      Expected(SearchMaxCount.Select(c), SearcherOf(LineMaxNonAscii(), B("again"), c), Check.Contains, u)
        == Wrappers.Ok(Search(DefaultSearchResult()))
  {
    var c := DefaultConfig().(maxCount := Wrappers.Some(0));
    var s := SearcherOf(LineMaxNonAscii(), B("again"), c);
    var d := SearchMaxCount.Select(c);
    ZeroBudget(d, s, Check.Contains, u);
  }

  /** `max_count_one`: of the two lines holding `"again"`, a budget of 1 stores the first. */
  lemma MaxCountOne(u: Tables)
    ensures var c := DefaultConfig().(maxCount := Wrappers.Some(1));
      Expected(SearchMaxCount.Select(c), SearcherOf(LineMaxNonAscii(), B("again"), c), Check.Contains, u)
        == Wrappers.Ok(Search(SearchResult([B("He started again")], Some([1]))))
  {
    var c := DefaultConfig().(maxCount := Wrappers.Some(1));
    var s := SearcherOf(LineMaxNonAscii(), B("again"), c);
    var d := SearchMaxCount.Select(c);
    var pr := ProbeOf(d, s, Check.Contains, u);
    AgainInFirst();
    PlainHit(pr, LineMaxNonAscii()[0]);
    FirstUnderBudgetOne(d, s, Check.Contains, u);
    TrimHeStartedAgain();
  }

  /** `max_count_large`: a budget of 1000 is the unbudgeted search. */
  lemma MaxCountLarge(u: Tables)
    ensures var c := DefaultConfig().(maxCount := Wrappers.Some(1000));
      Expected(SearchMaxCount.Select(c), SearcherOf(Line(), B("made"), c), Check.Contains, u)
        == Wrappers.Ok(Search(SearchResult([B("made a run")], Some([2]))))
  {
    var c := DefaultConfig().(maxCount := Wrappers.Some(1000));
    var s := SearcherOf(Line(), B("made"), c);
    var d := SearchMaxCount.Select(c);
    var pr := ProbeOf(d, s, Check.Contains, u);
    MadeNotInFirst();
    MadeInSecond();
    MadeNotInThird();
    PlainHit(pr, Line()[0]);
    PlainHit(pr, Line()[1]);
    PlainHit(pr, Line()[2]);
    HitsOfThree(pr, Line());
    LargeBudget(d, s, Check.Contains, u);
    StoresSecondOfThree(d.(budgeted := false), s, Check.Contains, u);
    TrimMadeARun();
  }

  /** `no_line_number_caseless`: a budget of 2 lets both ASCII lines holding `"again"` through. */
  lemma NoLineNumberCaselessMaxCount(u: Tables)
    requires u.lower(LineMaxNonAscii()[2]) == LowerThird()
    ensures var c := DefaultConfig().(ignoreCase := true, maxCount := Wrappers.Some(2), noLineNumber := true);
      Expected(SearchMaxCount.Select(c), SearcherOf(LineMaxNonAscii(), B("again"), c), Check.Contains, u)
        == Wrappers.Ok(Search(SearchResult([B("He started again"), B("a\0nd again")], None)))
  {
    var c := DefaultConfig().(ignoreCase := true, maxCount := Wrappers.Some(2), noLineNumber := true);
    var s := SearcherOf(LineMaxNonAscii(), B("again"), c);
    var d := SearchMaxCount.Select(c);
    var pr := ProbeOf(d, s, Check.Contains, u);
    FirstTwoAscii();
    ThirdNotAscii();
    CaselessAgainInFirst();
    CaselessAgainInSecond();
    AgainNotInLowerThird();
    CaselessHit(pr, LineMaxNonAscii()[0]);
    CaselessHit(pr, LineMaxNonAscii()[1]);
    CaselessHit(pr, LineMaxNonAscii()[2]);
    HitsOfThree(pr, LineMaxNonAscii());
    LargeBudget(d, s, Check.Contains, u);
    StoresFirstTwoOfThree(d.(budgeted := false), s, Check.Contains, u);
    TrimHeStartedAgain();
    TrimAndAgain();
  }

  /** `cnt_max_count_zero`: a zero budget makes the count 0. */
  lemma CntMaxCountZero(u: Tables)
    ensures var c := DefaultConfig().(count := true, maxCount := Wrappers.Some(0));
      Expected(SearchMaxCount.Select(c), SearcherOf(LineMaxNonAscii(), B(" "), c), Check.Contains, u) == Wrappers.Ok(Count(0))
  {
    var c := DefaultConfig().(count := true, maxCount := Wrappers.Some(0));
    var s := SearcherOf(LineMaxNonAscii(), B(" "), c);
    var d := SearchMaxCount.Select(c);
    ZeroBudget(d, s, Check.Contains, u);
  }

  /** `cnt_max_count_two`: all three lines hold a space, and a budget of 2 does not cap the count. */
  lemma CntMaxCountTwo(u: Tables)
    ensures var c := DefaultConfig().(count := true, maxCount := Wrappers.Some(2));
      Expected(SearchMaxCount.Select(c), SearcherOf(LineMaxNonAscii(), B(" "), c), Check.Contains, u) == Wrappers.Ok(Count(3))
  {
    var c := DefaultConfig().(count := true, maxCount := Wrappers.Some(2));
    var s := SearcherOf(LineMaxNonAscii(), B(" "), c);
    var d := SearchMaxCount.Select(c);
    var pr := ProbeOf(d, s, Check.Contains, u);
    SpaceInFirst();
    SpaceInSecond();
    SpaceInThird();
    PlainHit(pr, LineMaxNonAscii()[0]);
    PlainHit(pr, LineMaxNonAscii()[1]);
    PlainHit(pr, LineMaxNonAscii()[2]);
    CountOfThree(d, s, Check.Contains, u);
  }

  // ---------------------------------------------------------------------
  // Byte facts about the example lines
  // ---------------------------------------------------------------------

  /** A pattern whose first byte starts `s` only at its first byte, where the pattern does not follow, is not in `s`. */
  lemma NotContainsSoleStart(s: Bytes, p: Bytes)
    requires p != [] && !(p <= s)
    requires forall i | 1 <= i < |s| :: s[i] != p[0]
    ensures !ByteOps.Contains(s, p)
  {
    if s != [] {
      NotContainsMissingByte(s[1..], p, 0);
    }
  }

  /** An occurrence of a lowercase pattern survives ASCII lowercasing of the line. */
  lemma FoldedWitness(line: Bytes, p: Bytes, i: nat)
    requires OccursAt(line, p, i) && AsciiLower(p) == p
    ensures ByteOps.Contains(AsciiLower(line), p)
  {
    assert AsciiLower(line)[i..i + |p|] == AsciiLower(line[i..i + |p|]);
    ContainsWitness(AsciiLower(line), p, i);
  }

  /** An ASCII line, lowercased, holds no non-ASCII byte of a pattern. */
  lemma AsciiLowerMisses(line: Bytes, p: Bytes, j: nat)
    requires IsAscii(line) && j < |p| && p[j] >= 0x80
    ensures !ByteOps.Contains(AsciiLower(line), p)
  {
    AsciiLowerProperties(line);
    NotContainsMissingByte(AsciiLower(line), p, j);
  }

  lemma MadeNotInFirst()
    ensures !ByteOps.Contains(B("He started\n"), B("made"))
  {
    NotContainsMissingByte(B("He started\n"), B("made"), 0);
  }

  lemma MadeInSecond()
    ensures ByteOps.Contains(B("made a run\n"), B("made"))
  {
    ContainsWitness(B("made a run\n"), B("made"), 0);
  }

  lemma MadeNotInThird()
    ensures !ByteOps.Contains(B("& stopped"), B("made"))
  {
    NotContainsMissingByte(B("& stopped"), B("made"), 0);
  }

  lemma TrimMadeARun()
    ensures TrimTerminator(B("made a run\n")) == B("made a run")
  {
    TrimTerminatorUnique(B("made a run\n"), B("made a run"));
  }

  lemma CapitalMadeNotInFirst()
    ensures !ByteOps.Contains(B("He started\n"), B("Made"))
  {
    NotContainsMissingByte(B("He started\n"), B("Made"), 0);
  }

  lemma CapitalMadeNotInSecond()
    ensures !ByteOps.Contains(B("made a run\n"), B("Made"))
  {
    NotContainsMissingByte(B("made a run\n"), B("Made"), 0);
  }

  lemma CapitalMadeNotInThird()
    ensures !ByteOps.Contains(B("& stopped"), B("Made"))
  {
    NotContainsMissingByte(B("& stopped"), B("Made"), 0);
  }

  lemma MadeNotInBinarySecond()
    ensures !ByteOps.Contains(B("mad\0e a run\n"), B("made"))
  {
    var s := B("mad\0e a run\n");
    assert s[3] != B("made")[3];
    NotContainsSoleStart(s, B("made"));
  }

  lemma TInFirst()
    ensures ByteOps.Contains(B("He started\r\n"), B("t"))
  {
    ContainsWitness(B("He started\r\n"), B("t"), 4);
  }

  lemma TNotInBinarySecond()
    ensures !ByteOps.Contains(B("made a r\0un\r\n"), B("t"))
  {
    NotContainsMissingByte(B("made a r\0un\r\n"), B("t"), 0);
  }

  lemma TInThird()
    ensures ByteOps.Contains(B("& stopped"), B("t"))
  {
    ContainsWitness(B("& stopped"), B("t"), 3);
  }

  lemma AgainInFirst()
    ensures ByteOps.Contains(B("He started again\n"), B("again"))
  {
    ContainsWitness(B("He started again\n"), B("again"), 11);
  }

  lemma TrimHeStartedAgain()
    ensures TrimTerminator(B("He started again\n")) == B("He started again")
  {
    TrimTerminatorUnique(B("He started again\n"), B("He started again"));
  }

  lemma TrimAndAgain()
    ensures TrimTerminator(B("a\0nd again\n")) == B("a\0nd again")
  {
    TrimTerminatorUnique(B("a\0nd again\n"), B("a\0nd again"));
  }

  lemma SpaceInFirst()
    ensures ByteOps.Contains(B("He started again\n"), B(" "))
  {
    ContainsWitness(B("He started again\n"), B(" "), 2);
  }

  lemma SpaceInSecond()
    ensures ByteOps.Contains(B("a\0nd again\n"), B(" "))
  {
    ContainsWitness(B("a\0nd again\n"), B(" "), 4);
  }

  lemma SpaceInThird()
    ensures ByteOps.Contains(B("& A\U{CE}\U{93}ain"), B(" "))
  {
    ContainsWitness(B("& A\U{CE}\U{93}ain"), B(" "), 1);
  }

  lemma FirstTwoAscii()
    ensures IsAscii(B("He started again\n")) && IsAscii(B("a\0nd again\n"))
  {
  }

  /** The third line is not ASCII, and it has no terminator to trim. */
  lemma ThirdNotAscii()
    ensures !IsAscii(B("& A\U{CE}\U{93}ain"))
    ensures TrimTerminator(B("& A\U{CE}\U{93}ain")) == B("& A\U{CE}\U{93}ain")
  {
    assert B("& A\U{CE}\U{93}ain")[3] == 0xCE;
    TrimTerminatorKeepsUnterminated(B("& A\U{CE}\U{93}ain"));
  }

  lemma CaselessAgainInFirst()
    ensures ByteOps.Contains(AsciiLower(B("He started again\n")), B("again"))
  {
    FoldedWitness(B("He started again\n"), B("again"), 11);
  }

  lemma CaselessAgainInSecond()
    ensures ByteOps.Contains(AsciiLower(B("a\0nd again\n")), B("again"))
  {
    FoldedWitness(B("a\0nd again\n"), B("again"), 5);
  }

  lemma AgainNotInLowerThird()
    ensures !ByteOps.Contains(LowerThird(), B("again"))
  {
    var s := LowerThird();
    assert B("again")[1] == 0x67;
    assert forall i | 0 <= i < |s| :: s[i] != 0x67;
    NotContainsMissingByte(s, B("again"), 1);
  }

  lemma GammaAgainNotInFirst()
    ensures !ByteOps.Contains(AsciiLower(B("He started again\n")), B("a\U{CE}\U{B3}ain"))
  {
    AsciiLowerMisses(B("He started again\n"), B("a\U{CE}\U{B3}ain"), 1);
  }

  lemma GammaAgainNotInSecond()
    ensures !ByteOps.Contains(AsciiLower(B("a\0nd again\n")), B("a\U{CE}\U{B3}ain"))
  {
    AsciiLowerMisses(B("a\0nd again\n"), B("a\U{CE}\U{B3}ain"), 1);
  }

  lemma GammaAgainInLowerThird()
    ensures ByteOps.Contains(LowerThird(), B("a\U{CE}\U{B3}ain"))
  {
    ContainsWitness(LowerThird(), B("a\U{CE}\U{B3}ain"), 2);
  }

  lemma GammaNotInFirst()
    ensures !ByteOps.Contains(AsciiLower(B("He started again\n")), B("\U{CE}\U{B3}"))
  {
    AsciiLowerMisses(B("He started again\n"), B("\U{CE}\U{B3}"), 0);
  }

  lemma GammaNotInSecond()
    ensures !ByteOps.Contains(AsciiLower(B("a\0nd again\n")), B("\U{CE}\U{B3}"))
  {
    AsciiLowerMisses(B("a\0nd again\n"), B("\U{CE}\U{B3}"), 0);
  }

  lemma GammaInLowerThird()
    ensures ByteOps.Contains(LowerThird(), B("\U{CE}\U{B3}"))
  {
    ContainsWitness(LowerThird(), B("\U{CE}\U{B3}"), 3);
  }
}
