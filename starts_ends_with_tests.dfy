/**
 * The unit tests of the starts-and-ends-with search, stated on the model:
 * the test's five-line text, pattern and flags, and the result the test
 * expects, reached through the twelve-arm table every token search shares
 * and the lemmas over any five lines in `FiveLines`. The Unicode
 * lowercasing of the one non-ASCII line is taken as a hypothesis.
 */
module StartsEndsWithTests {
  import opened Bytes
  import Ext
  import opened Unicode
  import opened Results
  import opened Matchers
  import opened Scan
  import opened GenCheck
  import opened FiveLines
  import Scenarios
  import Wrappers

  /** `LINE`: line 4 holds `Î` (C3 8E) and a left double quotation mark (E2 80 9C), which is not whitespace. */
  function Line(): seq<Bytes> {
    [B("gain\n"), B("gain,\n"), B("a\0nd, Gain,\n"), B("& A\U{C3}\U{8E}\U{E2}\U{80}\U{9C}ain\n"), B("gain,")]
  }

  /** The fourth line lowercased: `Î` becomes `î` (C3 AE). */
  function LowerFourth(): Bytes {
    B("& a\U{C3}\U{AE}\U{E2}\U{80}\U{9C}ain\n")
  }

  function TokenConfig(): Config {
    DefaultConfig().(startsWith := true, endsWith := true)
  }

  // ---------------------------------------------------------------------
  // The tests
  // ---------------------------------------------------------------------

  /** `line_number`: under a budget of 1, line 2 is the first whose field starts and ends with `gain,`. */
  lemma LineNumber(u: Tables)
    ensures var c := TokenConfig().(maxCount := Wrappers.Some(1));
      Expected(Dispatch(c), Scenarios.SearcherOf(Line(), B("gain,"), c), Check.StartsEndsWith, u)
        == Wrappers.Ok(Search(SearchResult([B("gain,")], Some([2]))))
  {
    var c := TokenConfig().(maxCount := Wrappers.Some(1));
    var s := Scenarios.SearcherOf(Line(), B("gain,"), c);
    var d := Dispatch(c);
    var pr := ProbeOf(d, s, Check.StartsEndsWith, u);
    FirstLower();
    SecondLower();
    KeptFirst(pr, Line()[0]);
    KeptSecond(pr, Line()[1]);
    SecondUnderBudgetOne(d, s, Check.StartsEndsWith, u);
    TrimSecond();
  }

  /** `cnt_caseless_max_count`: lines 2, 3 and 5 match once lowercased, and a budget of 1 does not cap the count. */
  lemma CntCaselessMaxCount(u: Tables)
    requires u.lower(Line()[3]) == LowerFourth()
    ensures var c := TokenConfig().(count := true, ignoreCase := true, maxCount := Wrappers.Some(1));
      Expected(Dispatch(c), Scenarios.SearcherOf(Line(), B("gain,"), c), Check.StartsEndsWith, u) == Wrappers.Ok(Count(3))
  {
    var c := TokenConfig().(count := true, ignoreCase := true, maxCount := Wrappers.Some(1));
    var s := Scenarios.SearcherOf(Line(), B("gain,"), c);
    var d := Dispatch(c);
    var pr := ProbeOf(d, s, Check.StartsEndsWith, u);
    FirstLower();
    SecondLower();
    FifthLower();
    KeptFirst(pr, Line()[0]);
    KeptSecond(pr, Line()[1]);
    CaselessThird(pr, Line()[2]);
    CaselessFourth(pr, Line()[3]);
    KeptFifth(pr, Line()[4]);
    CountOfFive(d, s, Check.StartsEndsWith, u);
  }

  // ---------------------------------------------------------------------
  // The verdicts on each line
  // ---------------------------------------------------------------------

  /** A probe sees an ASCII line without capitals as it is, whether or not it folds case. */
  lemma KeptLine(pr: Probe, line: Bytes)
    requires IsAscii(line) && AsciiLower(line) == line
    ensures Hit(pr, line) == Holds(pr.check, line, pr.pattern)
  {
  }

  lemma KeptFirst(pr: Probe, line: Bytes)
    requires line == B("gain\n") && IsAscii(line) && AsciiLower(line) == line
    requires pr.check == Check.StartsEndsWith && pr.pattern == B("gain,")
    ensures !Hit(pr, line)
  {
    KeptLine(pr, line);
    FirstNoGain();
  }

  lemma KeptSecond(pr: Probe, line: Bytes)
    requires line == B("gain,\n") && IsAscii(line) && AsciiLower(line) == line
    requires pr.check == Check.StartsEndsWith && pr.pattern == B("gain,")
    ensures Hit(pr, line)
  {
    KeptLine(pr, line);
    SecondGain();
  }

  lemma KeptFifth(pr: Probe, line: Bytes)
    requires line == B("gain,") && IsAscii(line) && AsciiLower(line) == line
    requires pr.check == Check.StartsEndsWith && pr.pattern == B("gain,")
    ensures Hit(pr, line)
  {
    KeptLine(pr, line);
    FifthGain();
  }

  lemma CaselessThird(pr: Probe, line: Bytes)
    requires line == B("a\0nd, Gain,\n")
    requires pr.caseless && pr.check == Check.StartsEndsWith && pr.pattern == B("gain,")
    ensures Hit(pr, line)
  {
    ThirdLower();
    ThirdGain();
  }

  lemma CaselessFourth(pr: Probe, line: Bytes)
    requires line == Line()[3]
    requires pr.caseless && pr.check == Check.StartsEndsWith && pr.pattern == B("gain,") && pr.tables.lower(line) == LowerFourth()
    ensures !Hit(pr, line)
  {
    FourthNotAscii();
    CaselessProbe(pr, line);
    NoFieldWithMissingByte(LowerFourth(), B("gain,"), 0);
  }

  // ---------------------------------------------------------------------
  // Byte facts about the example lines
  // ---------------------------------------------------------------------

  lemma FirstNoGain()
    ensures !CheckStartsEndsWith(B("gain\n"), B("gain,"))
  {
    var a, t, p := B("gain"), B("\n"), B("gain,");
    assert B("gain\n") == a + t;
    TokenChecksOfOne(a, t, p);
  }

  lemma SecondGain()
    ensures CheckStartsEndsWith(B("gain,\n"), B("gain,"))
  {
    var a, t := B("gain,"), B("\n");
    assert B("gain,\n") == a + t;
    TokenChecksOfOne(a, t, a);
  }

  lemma ThirdGain()
    ensures CheckStartsEndsWith(B("a\0nd, gain,\n"), B("gain,"))
  {
    var a, w, b, t := B("a\0nd,"), B(" "), B("gain,"), B("\n");
    assert B("a\0nd, gain,\n") == a + (w + (b + t));
    TokenChecksOfTwo(a, w, b, t, b);
  }

  lemma FifthGain()
    ensures CheckStartsEndsWith(B("gain,"), B("gain,"))
  {
    var a := B("gain,");
    assert a + [] == a;
    TokenChecksOfOne(a, [], a);
  }

  lemma FirstLower()
    ensures IsAscii(B("gain\n")) && AsciiLower(B("gain\n")) == B("gain\n")
  {
    LowerKeeps(B("gain\n"));
  }

  lemma SecondLower()
    ensures IsAscii(B("gain,\n")) && AsciiLower(B("gain,\n")) == B("gain,\n")
  {
    LowerKeeps(B("gain,\n"));
  }

  lemma ThirdLower()
    ensures IsAscii(B("a\0nd, Gain,\n")) && AsciiLower(B("a\0nd, Gain,\n")) == B("a\0nd, gain,\n")
  {
  }

  lemma FourthNotAscii()
    ensures !IsAscii(Line()[3])
  {
    assert Line()[3][3] == 0xC3;
  }

  lemma FifthLower()
    ensures IsAscii(B("gain,")) && AsciiLower(B("gain,")) == B("gain,")
  {
    LowerKeeps(B("gain,"));
  }

  lemma TrimSecond()
    ensures Ext.TrimTerminator(B("gain,\n")) == B("gain,")
  {
    Ext.TrimTerminatorUnique(B("gain,\n"), B("gain,"));
  }
}
