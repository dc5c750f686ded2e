/**
 * The unit tests of the starts-with search, stated on the model: each
 * test's five-line text, pattern and flags, and the result the test
 * expects. The searches go through the twelve-arm table that every token
 * search shares; the lemmas over any five lines in `FiveLines` turn the
 * verdicts on each line into the stored result. The Unicode lowercasing
 * of the one non-ASCII line is taken as a hypothesis.
 */
module StartsWithTests {
  import opened Bytes
  import Ext
  import opened Unicode
  import opened Results
  import opened Matchers
  import opened Scan
  import opened GenCheck
  import opened FiveLines
  import Scenarios
  import Wrappers

  /** `LINE`: a tab, a NUL and an EM SPACE (bytes E2 80 83) among the separators; a capital gamma (CE 93) in line 4. */
  function Line(): seq<Bytes> {
    [B("again\n"), B("a\tgain\n"), B("a\0nd, gain\n"), B("&\U{E2}\U{80}\U{83}A\U{CE}\U{93}ain\n"), B("Gain")]
  }

  /** `LINE2`: `Gain` in line 2, and an ASCII space in line 4. */
  function Line2(): seq<Bytes> {
    [B("again\n"), B("Gain\n"), B("a\0nd, gain\n"), B("& A\U{CE}\U{93}ain\n"), B("Gain")]
  }

  /** The fourth line of `LINE` lowercased: the gamma becomes CE B3. */
  function LowerFourth(): Bytes {
    B("&\U{E2}\U{80}\U{83}a\U{CE}\U{B3}ain\n")
  }

  function TokenConfig(): Config {
    DefaultConfig().(startsWith := true)
  }

  // ---------------------------------------------------------------------
  // The tests
  // ---------------------------------------------------------------------

  /** `line_number`: under a budget of 2, lines 2 and 3 hold a field starting with `gain`. */
  lemma LineNumber(u: Tables)
    ensures var c := TokenConfig().(maxCount := Wrappers.Some(2));
      Expected(Dispatch(c), Scenarios.SearcherOf(Line(), B("gain"), c), Check.StartsWith, u)
        == Wrappers.Ok(Search(SearchResult([B("a\tgain"), B("a\0nd, gain")], Some([2, 3]))))
  {
    var c := TokenConfig().(maxCount := Wrappers.Some(2));
    var s := Scenarios.SearcherOf(Line(), B("gain"), c);
    var d := Dispatch(c);
    PlainVerdicts(ProbeOf(d, s, Check.StartsWith, u));
    SecondThirdUnderBudgetTwo(d, s, Check.StartsWith, u);
    TrimSecond();
    TrimThird();
  }

  /** `line_number_caseless`: only the lowercased fourth line has a field starting with `aγain`. */
  lemma LineNumberCaseless(u: Tables)
    requires u.lower(Line()[3]) == LowerFourth()
    ensures var c := TokenConfig().(ignoreCase := true);
      Expected(Dispatch(c), Scenarios.SearcherOf(Line(), B("a\U{CE}\U{B3}ain"), c), Check.StartsWith, u)
        == Wrappers.Ok(Search(SearchResult([B("&\U{E2}\U{80}\U{83}A\U{CE}\U{93}ain")], Some([4]))))
  {
    var c := TokenConfig().(ignoreCase := true);
    var s := Scenarios.SearcherOf(Line(), B("a\U{CE}\U{B3}ain"), c);
    var d := Dispatch(c);
    GammaVerdicts(ProbeOf(d, s, Check.StartsWith, u));
    FourthOfFive(d, s, Check.StartsWith, u);
    TrimFourth();
  }

  /** `no_line_number_caseless`: lines 2, 3 and 5 hold a field starting with `gain` once lowercased. */
  lemma NoLineNumberCaseless(u: Tables)
    requires u.lower(Line()[3]) == LowerFourth()
    ensures var c := TokenConfig().(ignoreCase := true, noLineNumber := true);
      Expected(Dispatch(c), Scenarios.SearcherOf(Line(), B("gain"), c), Check.StartsWith, u)
        == Wrappers.Ok(Search(SearchResult([B("a\tgain"), B("a\0nd, gain"), B("Gain")], None)))
  {
    var c := TokenConfig().(ignoreCase := true, noLineNumber := true);
    var s := Scenarios.SearcherOf(Line(), B("gain"), c);
    var d := Dispatch(c);
    CaselessVerdicts(ProbeOf(d, s, Check.StartsWith, u));
    SecondThirdFifthOfFive(d, s, Check.StartsWith, u);
    TrimSecond();
    TrimThird();
    TrimFifth();
  }

  /** `no_line_number_max_count`: under a budget of 2, the same two lines as `line_number`, without numbers. */
  lemma NoLineNumberMaxCount(u: Tables)
    ensures var c := TokenConfig().(maxCount := Wrappers.Some(2), noLineNumber := true);
      Expected(Dispatch(c), Scenarios.SearcherOf(Line(), B("gain"), c), Check.StartsWith, u)
        == Wrappers.Ok(Search(SearchResult([B("a\tgain"), B("a\0nd, gain")], None)))
  {
    var c := TokenConfig().(maxCount := Wrappers.Some(2), noLineNumber := true);
    var s := Scenarios.SearcherOf(Line(), B("gain"), c);
    var d := Dispatch(c);
    PlainVerdicts(ProbeOf(d, s, Check.StartsWith, u));
    SecondThirdUnderBudgetTwo(d, s, Check.StartsWith, u);
    TrimSecond();
    TrimThird();
  }

  /** `no_line_number_caseless_max_count`: in `LINE2`, `Gain` lowercased and line 3 use up a budget of 2. */
  lemma NoLineNumberCaselessMaxCount(u: Tables)
    ensures var c := TokenConfig().(ignoreCase := true, maxCount := Wrappers.Some(2), noLineNumber := true);
      Expected(Dispatch(c), Scenarios.SearcherOf(Line2(), B("gain"), c), Check.StartsWith, u)
        == Wrappers.Ok(Search(SearchResult([B("Gain"), B("a\0nd, gain")], None)))
  {
    var c := TokenConfig().(ignoreCase := true, maxCount := Wrappers.Some(2), noLineNumber := true);
    var s := Scenarios.SearcherOf(Line2(), B("gain"), c);
    var d := Dispatch(c);
    CaselessVerdictsLine2(ProbeOf(d, s, Check.StartsWith, u));
    SecondThirdUnderBudgetTwo(d, s, Check.StartsWith, u);
    TrimGainLine();
    TrimThird();
  }

  /** `cnt_caseless`: three lines hold a field starting with `gain` once lowercased. */
  lemma CntCaseless(u: Tables)
    requires u.lower(Line()[3]) == LowerFourth()
    ensures var c := TokenConfig().(count := true, ignoreCase := true);
      Expected(Dispatch(c), Scenarios.SearcherOf(Line(), B("gain"), c), Check.StartsWith, u) == Wrappers.Ok(Count(3))
  {
    var c := TokenConfig().(count := true, ignoreCase := true);
    var s := Scenarios.SearcherOf(Line(), B("gain"), c);
    var d := Dispatch(c);
    CaselessVerdicts(ProbeOf(d, s, Check.StartsWith, u));
    CountOfFive(d, s, Check.StartsWith, u);
  }

  // ---------------------------------------------------------------------
  // The verdicts on each line
  // ---------------------------------------------------------------------

  /** Keeping case, `gain` starts a field of lines 2 and 3 but not of line 1. */
  lemma PlainVerdicts(pr: Probe)
    requires !pr.caseless && pr.check == Check.StartsWith && pr.pattern == B("gain")
    ensures !Hit(pr, Line()[0]) && Hit(pr, Line()[1]) && Hit(pr, Line()[2])
  {
    PlainFirst(pr, Line()[0]);
    PlainSecond(pr, Line()[1]);
    PlainThird(pr, Line()[2]);
  }

  /** Folding case, `gain` starts a field of lines 2, 3 and 5. */
  lemma CaselessVerdicts(pr: Probe)
    requires pr.caseless && pr.check == Check.StartsWith && pr.pattern == B("gain") && pr.tables.lower(Line()[3]) == LowerFourth()
    ensures !Hit(pr, Line()[0]) && Hit(pr, Line()[1]) && Hit(pr, Line()[2]) && !Hit(pr, Line()[3]) && Hit(pr, Line()[4])
  {
    CaselessFirst(pr, Line()[0]);
    CaselessSecond(pr, Line()[1]);
    CaselessThird(pr, Line()[2]);
    CaselessFourth(pr, Line()[3]);
    CaselessFifth(pr, Line()[4]);
  }

  /** Folding case, `gain` starts a field of lines 2 and 3 of `LINE2`, not of line 1. */
  lemma CaselessVerdictsLine2(pr: Probe)
    requires pr.caseless && pr.check == Check.StartsWith && pr.pattern == B("gain")
    ensures !Hit(pr, Line2()[0]) && Hit(pr, Line2()[1]) && Hit(pr, Line2()[2])
  {
    CaselessFirst(pr, Line2()[0]);
    CaselessGainLine(pr, Line2()[1]);
    CaselessThird(pr, Line2()[2]);
  }

  /** Folding case, `aγain` starts a field of line 4 alone: the other lines are ASCII and have no gamma. */
  lemma GammaVerdicts(pr: Probe)
    requires pr.caseless && pr.check == Check.StartsWith && pr.pattern == B("a\U{CE}\U{B3}ain") && pr.tables.lower(Line()[3]) == LowerFourth()
    ensures !Hit(pr, Line()[0]) && !Hit(pr, Line()[1]) && !Hit(pr, Line()[2]) && Hit(pr, Line()[3]) && !Hit(pr, Line()[4])
  {
    FirstLower();
    SecondLower();
    ThirdLower();
    FifthLower();
    GammaMissesAscii(pr, Line()[0]);
    GammaMissesAscii(pr, Line()[1]);
    GammaMissesAscii(pr, Line()[2]);
    GammaMissesAscii(pr, Line()[4]);
    GammaFourth(pr, Line()[3]);
  }

  lemma GammaMissesAscii(pr: Probe, line: Bytes)
    requires pr.caseless && pr.check == Check.StartsWith && pr.pattern == B("a\U{CE}\U{B3}ain") && IsAscii(line)
    ensures !Hit(pr, line)
  {
    CaselessProbe(pr, line);
    AsciiNoTokenHit(line, pr.pattern, 1);
  }

  lemma GammaFourth(pr: Probe, line: Bytes)
    requires line == Line()[3]
    requires pr.caseless && pr.check == Check.StartsWith && pr.pattern == B("a\U{CE}\U{B3}ain") && pr.tables.lower(line) == LowerFourth()
    ensures Hit(pr, line)
  {
    FourthNotAscii();
    CaselessProbe(pr, line);
    GammaInLowerFourth();
  }

  lemma PlainFirst(pr: Probe, line: Bytes)
    requires line == B("again\n")
    requires !pr.caseless && pr.check == Check.StartsWith && pr.pattern == B("gain")
    ensures !Hit(pr, line)
  {
    FirstNoGain();
  }

  lemma PlainSecond(pr: Probe, line: Bytes)
    requires line == B("a\tgain\n")
    requires !pr.caseless && pr.check == Check.StartsWith && pr.pattern == B("gain")
    ensures Hit(pr, line)
  {
    SecondGain();
  }

  lemma PlainThird(pr: Probe, line: Bytes)
    requires line == B("a\0nd, gain\n")
    requires !pr.caseless && pr.check == Check.StartsWith && pr.pattern == B("gain")
    ensures Hit(pr, line)
  {
    ThirdGain();
  }

  lemma CaselessFirst(pr: Probe, line: Bytes)
    requires line == B("again\n")
    requires pr.caseless && pr.check == Check.StartsWith && pr.pattern == B("gain")
    ensures !Hit(pr, line)
  {
    FirstLower();
    FirstNoGain();
  }

  lemma CaselessSecond(pr: Probe, line: Bytes)
    requires line == B("a\tgain\n")
    requires pr.caseless && pr.check == Check.StartsWith && pr.pattern == B("gain")
    ensures Hit(pr, line)
  {
    SecondLower();
    SecondGain();
  }

  lemma CaselessThird(pr: Probe, line: Bytes)
    requires line == B("a\0nd, gain\n")
    requires pr.caseless && pr.check == Check.StartsWith && pr.pattern == B("gain")
    ensures Hit(pr, line)
  {
    ThirdLower();
    ThirdGain();
  }

  lemma CaselessFourth(pr: Probe, line: Bytes)
    requires line == Line()[3]
    requires pr.caseless && pr.check == Check.StartsWith && pr.pattern == B("gain") && pr.tables.lower(line) == LowerFourth()
    ensures !Hit(pr, line)
  {
    FourthNotAscii();
    CaselessProbe(pr, line);
    NoFieldWithMissingByte(LowerFourth(), B("gain"), 0);
  }

  lemma CaselessFifth(pr: Probe, line: Bytes)
    requires line == B("Gain")
    requires pr.caseless && pr.check == Check.StartsWith && pr.pattern == B("gain")
    ensures Hit(pr, line)
  {
    FifthLower();
    LoweredGain();
  }

  lemma CaselessGainLine(pr: Probe, line: Bytes)
    requires line == B("Gain\n")
    requires pr.caseless && pr.check == Check.StartsWith && pr.pattern == B("gain")
    ensures Hit(pr, line)
  {
    GainLineLower();
    LoweredGainLine();
  }

  // ---------------------------------------------------------------------
  // Byte facts about the example lines
  // ---------------------------------------------------------------------

  lemma FirstNoGain()
    ensures !CheckStartsWith(B("again\n"), B("gain"))
  {
    assert B("again\n") == B("again") + B("\n");
    TokenChecksOfOne(B("again"), B("\n"), B("gain"));
  }

  lemma SecondGain()
    ensures CheckStartsWith(B("a\tgain\n"), B("gain"))
  {
    assert B("a\tgain\n") == B("a") + (B("\t") + (B("gain") + B("\n")));
    TokenChecksOfTwo(B("a"), B("\t"), B("gain"), B("\n"), B("gain"));
  }

  lemma ThirdGain()
    ensures CheckStartsWith(B("a\0nd, gain\n"), B("gain"))
  {
    assert B("a\0nd, gain\n") == B("a\0nd,") + (B(" ") + (B("gain") + B("\n")));
    TokenChecksOfTwo(B("a\0nd,"), B(" "), B("gain"), B("\n"), B("gain"));
  }

  lemma LoweredGain()
    ensures CheckStartsWith(B("gain"), B("gain"))
  {
    assert B("gain") + [] == B("gain");
    TokenChecksOfOne(B("gain"), [], B("gain"));
  }

  lemma LoweredGainLine()
    ensures CheckStartsWith(B("gain\n"), B("gain"))
  {
    assert B("gain\n") == B("gain") + B("\n");
    TokenChecksOfOne(B("gain"), B("\n"), B("gain"));
  }

  lemma GammaInLowerFourth()
    ensures CheckStartsWith(LowerFourth(), B("a\U{CE}\U{B3}ain"))
  {
    var w := B("\U{E2}\U{80}\U{83}");
    var b := B("a\U{CE}\U{B3}ain");
    assert WsLen(w + (b + B("\n"))) == 3;
    assert LowerFourth() == B("&") + (w + (b + B("\n")));
    TokenChecksOfTwo(B("&"), w, b, B("\n"), b);
  }

  lemma FirstLower()
    ensures IsAscii(B("again\n")) && AsciiLower(B("again\n")) == B("again\n")
  {
    LowerKeeps(B("again\n"));
  }

  lemma SecondLower()
    ensures IsAscii(B("a\tgain\n")) && AsciiLower(B("a\tgain\n")) == B("a\tgain\n")
  {
    LowerKeeps(B("a\tgain\n"));
  }

  lemma ThirdLower()
    ensures IsAscii(B("a\0nd, gain\n")) && AsciiLower(B("a\0nd, gain\n")) == B("a\0nd, gain\n")
  {
    LowerKeeps(B("a\0nd, gain\n"));
  }

  lemma FourthNotAscii()
    ensures !IsAscii(Line()[3])
  {
    assert Line()[3][1] == 0xE2;
  }

  lemma FifthLower()
    ensures IsAscii(B("Gain")) && AsciiLower(B("Gain")) == B("gain")
  {
  }

  lemma GainLineLower()
    ensures IsAscii(B("Gain\n")) && AsciiLower(B("Gain\n")) == B("gain\n")
  {
  }

  lemma TrimSecond()
    ensures Ext.TrimTerminator(B("a\tgain\n")) == B("a\tgain")
  {
    Ext.TrimTerminatorUnique(B("a\tgain\n"), B("a\tgain"));
  }

  lemma TrimThird()
    ensures Ext.TrimTerminator(B("a\0nd, gain\n")) == B("a\0nd, gain")
  {
    Ext.TrimTerminatorUnique(B("a\0nd, gain\n"), B("a\0nd, gain"));
  }

  lemma TrimFourth()
    ensures Ext.TrimTerminator(Line()[3]) == B("&\U{E2}\U{80}\U{83}A\U{CE}\U{93}ain")
  {
    Ext.TrimTerminatorUnique(Line()[3], B("&\U{E2}\U{80}\U{83}A\U{CE}\U{93}ain"));
  }

  lemma TrimFifth()
    ensures Ext.TrimTerminator(B("Gain")) == B("Gain")
  {
    Ext.TrimTerminatorKeepsUnterminated(B("Gain"));
  }

  lemma TrimGainLine()
    ensures Ext.TrimTerminator(B("Gain\n")) == B("Gain")
  {
    Ext.TrimTerminatorUnique(B("Gain\n"), B("Gain"));
  }
}
