/**
 * The unit tests of the ends-with search, stated on the model: each
 * test's five-line text, pattern and flags, and the result the test
 * expects, reached through the twelve-arm table every token search shares
 * and the lemmas over any five lines in `FiveLines`. The Unicode
 * lowercasing of the one non-ASCII line is taken as a hypothesis.
 */
module EndsWithTests {
  import opened Bytes
  import Ext
  import opened Unicode
  import opened Results
  import opened Matchers
  import opened Scan
  import opened GenCheck
  import opened FiveLines
  import Scenarios
  import Wrappers

  /** `LINE`: a capital gamma (CE 93) in line 4. */
  function Line(): seq<Bytes> {
    [B("againn\n"), B("gain\n"), B("a\0nd, again\n"), B("& A\U{CE}\U{93}ain\n"), B("Gain")]
  }

  /** `LINE2`: capitals in lines 2 and 3. */
  function Line2(): seq<Bytes> {
    [B("againn\n"), B("Gain\n"), B("a\0nd, aGain\n"), B("& A\U{CE}\U{93}ain\n"), B("Gain")]
  }

  /** The fourth line of both texts lowercased: the gamma becomes CE B3. */
  function LowerFourth(): Bytes {
    B("& a\U{CE}\U{B3}ain\n")
  }

  function TokenConfig(): Config {
    DefaultConfig().(endsWith := true)
  }

  // ---------------------------------------------------------------------
  // The tests
  // ---------------------------------------------------------------------

  /** `line_number`: under a budget of 2, lines 2 and 3 hold a field ending with `gain`. */
  lemma LineNumber(u: Tables)
    ensures var c := TokenConfig().(maxCount := Wrappers.Some(2));
      Expected(Dispatch(c), Scenarios.SearcherOf(Line(), B("gain"), c), Check.EndsWith, u)
        == Wrappers.Ok(Search(SearchResult([B("gain"), B("a\0nd, again")], Some([2, 3]))))
  {
    var c := TokenConfig().(maxCount := Wrappers.Some(2));
    var s := Scenarios.SearcherOf(Line(), B("gain"), c);
    var d := Dispatch(c);
    var pr := ProbeOf(d, s, Check.EndsWith, u);
    PlainFirst(pr, Line()[0]);
    PlainSecond(pr, Line()[1]);
    PlainThird(pr, Line()[2]);
    SecondThirdUnderBudgetTwo(d, s, Check.EndsWith, u);
    TrimSecond();
    TrimThird();
  }

  /** `line_number_caseless`: only the lowercased fourth line has a field ending with `aγain`. */
  lemma LineNumberCaseless(u: Tables)
    requires u.lower(Line()[3]) == LowerFourth()
    ensures var c := TokenConfig().(ignoreCase := true);
      Expected(Dispatch(c), Scenarios.SearcherOf(Line(), B("a\U{CE}\U{B3}ain"), c), Check.EndsWith, u)
        == Wrappers.Ok(Search(SearchResult([B("& A\U{CE}\U{93}ain")], Some([4]))))
  {
    var c := TokenConfig().(ignoreCase := true);
    var s := Scenarios.SearcherOf(Line(), B("a\U{CE}\U{B3}ain"), c);
    var d := Dispatch(c);
    GammaVerdicts(ProbeOf(d, s, Check.EndsWith, u));
    FourthOfFive(d, s, Check.EndsWith, u);
    TrimFourth();
  }

  /** `no_line_number_caseless`: lines 2, 3 and 5 of `LINE2` hold a field ending with `gain` once lowercased. */
  lemma NoLineNumberCaseless(u: Tables)
    requires u.lower(Line2()[3]) == LowerFourth()
    ensures var c := TokenConfig().(ignoreCase := true, noLineNumber := true);
      Expected(Dispatch(c), Scenarios.SearcherOf(Line2(), B("gain"), c), Check.EndsWith, u)
        == Wrappers.Ok(Search(SearchResult([B("Gain"), B("a\0nd, aGain"), B("Gain")], None)))
  {
    var c := TokenConfig().(ignoreCase := true, noLineNumber := true);
    var s := Scenarios.SearcherOf(Line2(), B("gain"), c);
    var d := Dispatch(c);
    var pr := ProbeOf(d, s, Check.EndsWith, u);
    CaselessFirst(pr, Line2()[0]);
    CaselessGainLine(pr, Line2()[1]);
    CaselessCapitalThird(pr, Line2()[2]);
    CaselessFourth(pr, Line2()[3]);
    CaselessFifth(pr, Line2()[4]);
    SecondThirdFifthOfFive(d, s, Check.EndsWith, u);
    TrimGainLine();
    TrimCapitalThird();
    TrimFifth();
  }

  /** `no_line_number_max_count`: a budget of 1 lets only line 2 through. */
  lemma NoLineNumberMaxCount(u: Tables)
    ensures var c := TokenConfig().(maxCount := Wrappers.Some(1), noLineNumber := true);
      Expected(Dispatch(c), Scenarios.SearcherOf(Line(), B("gain"), c), Check.EndsWith, u)
        == Wrappers.Ok(Search(SearchResult([B("gain")], None)))
  {
    var c := TokenConfig().(maxCount := Wrappers.Some(1), noLineNumber := true);
    var s := Scenarios.SearcherOf(Line(), B("gain"), c);
    var d := Dispatch(c);
    var pr := ProbeOf(d, s, Check.EndsWith, u);
    PlainFirst(pr, Line()[0]);
    PlainSecond(pr, Line()[1]);
    SecondUnderBudgetOne(d, s, Check.EndsWith, u);
    TrimSecond();
  }

  /** `no_line_number_caseless_max_count`: in `LINE2`, lines 2 and 3 lowercased use up a budget of 2. */
  lemma NoLineNumberCaselessMaxCount(u: Tables)
    ensures var c := TokenConfig().(ignoreCase := true, maxCount := Wrappers.Some(2), noLineNumber := true);
      Expected(Dispatch(c), Scenarios.SearcherOf(Line2(), B("gain"), c), Check.EndsWith, u)
        == Wrappers.Ok(Search(SearchResult([B("Gain"), B("a\0nd, aGain")], None)))
  {
    var c := TokenConfig().(ignoreCase := true, maxCount := Wrappers.Some(2), noLineNumber := true);
    var s := Scenarios.SearcherOf(Line2(), B("gain"), c);
    var d := Dispatch(c);
    var pr := ProbeOf(d, s, Check.EndsWith, u);
    CaselessFirst(pr, Line2()[0]);
    CaselessGainLine(pr, Line2()[1]);
    CaselessCapitalThird(pr, Line2()[2]);
    SecondThirdUnderBudgetTwo(d, s, Check.EndsWith, u);
    TrimGainLine();
    TrimCapitalThird();
  }

  /** `cnt_max_count`: two lines hold a field ending with `gain`, and a budget of 3 changes nothing. */
  lemma CntMaxCount(u: Tables)
    ensures var c := TokenConfig().(count := true, maxCount := Wrappers.Some(3));
      Expected(Dispatch(c), Scenarios.SearcherOf(Line(), B("gain"), c), Check.EndsWith, u) == Wrappers.Ok(Count(2))
  {
    var c := TokenConfig().(count := true, maxCount := Wrappers.Some(3));
    var s := Scenarios.SearcherOf(Line(), B("gain"), c);
    var d := Dispatch(c);
    var pr := ProbeOf(d, s, Check.EndsWith, u);
    PlainFirst(pr, Line()[0]);
    PlainSecond(pr, Line()[1]);
    PlainThird(pr, Line()[2]);
    PlainWithoutG(pr, Line()[3]);
    PlainWithoutG(pr, Line()[4]);
    CountOfFive(d, s, Check.EndsWith, u);
  }

  // ---------------------------------------------------------------------
  // The verdicts on each line
  // ---------------------------------------------------------------------

  /** Folding case, `aγain` ends a field of line 4 alone: the other lines are ASCII and have no gamma. */
  lemma GammaVerdicts(pr: Probe)
    requires pr.caseless && pr.check == Check.EndsWith && pr.pattern == B("a\U{CE}\U{B3}ain") && pr.tables.lower(Line()[3]) == LowerFourth()
    ensures !Hit(pr, Line()[0]) && !Hit(pr, Line()[1]) && !Hit(pr, Line()[2]) && Hit(pr, Line()[3]) && !Hit(pr, Line()[4])
  {
    FirstLower();
    SecondLower();
    ThirdLower();
    FifthLower();
    GammaMissesAscii(pr, Line()[0]);
    GammaMissesAscii(pr, Line()[1]);
    GammaMissesAscii(pr, Line()[2]);
    GammaMissesAscii(pr, Line()[4]);
    GammaFourth(pr, Line()[3]);
  }

  lemma GammaMissesAscii(pr: Probe, line: Bytes)
    requires pr.caseless && pr.check == Check.EndsWith && pr.pattern == B("a\U{CE}\U{B3}ain") && IsAscii(line)
    ensures !Hit(pr, line)
  {
    CaselessProbe(pr, line);
    AsciiNoTokenHit(line, pr.pattern, 1);
  }

  lemma GammaFourth(pr: Probe, line: Bytes)
    requires line == Line()[3]
    requires pr.caseless && pr.check == Check.EndsWith && pr.pattern == B("a\U{CE}\U{B3}ain") && pr.tables.lower(line) == LowerFourth()
    ensures Hit(pr, line)
  {
    FourthNotAscii();
    CaselessProbe(pr, line);
    GammaInLowerFourth();
  }

  lemma PlainFirst(pr: Probe, line: Bytes)
    requires line == B("againn\n")
    requires !pr.caseless && pr.check == Check.EndsWith && pr.pattern == B("gain")
    ensures !Hit(pr, line)
  {
    FirstNoGain();
  }

  lemma PlainSecond(pr: Probe, line: Bytes)
    requires line == B("gain\n")
    requires !pr.caseless && pr.check == Check.EndsWith && pr.pattern == B("gain")
    ensures Hit(pr, line)
  {
    SecondGain();
  }

  lemma PlainThird(pr: Probe, line: Bytes)
    requires line == B("a\0nd, again\n")
    requires !pr.caseless && pr.check == Check.EndsWith && pr.pattern == B("gain")
    ensures Hit(pr, line)
  {
    ThirdGain();
  }

  /** Keeping case, a line without a `g` has no field ending with `gain`. */
  lemma PlainWithoutG(pr: Probe, line: Bytes)
    requires line == B("& A\U{CE}\U{93}ain\n") || line == B("Gain")
    requires !pr.caseless && pr.check == Check.EndsWith && pr.pattern == B("gain")
    ensures !Hit(pr, line)
  {
    NoFieldWithMissingByte(line, B("gain"), 0);
  }

  lemma CaselessFirst(pr: Probe, line: Bytes)
    requires line == B("againn\n")
    requires pr.caseless && pr.check == Check.EndsWith && pr.pattern == B("gain")
    ensures !Hit(pr, line)
  {
    FirstLower();
    FirstNoGain();
  }

  lemma CaselessGainLine(pr: Probe, line: Bytes)
    requires line == B("Gain\n")
    requires pr.caseless && pr.check == Check.EndsWith && pr.pattern == B("gain")
    ensures Hit(pr, line)
  {
    GainLineLower();
    SecondGain();
  }

  lemma CaselessCapitalThird(pr: Probe, line: Bytes)
    requires line == B("a\0nd, aGain\n")
    requires pr.caseless && pr.check == Check.EndsWith && pr.pattern == B("gain")
    ensures Hit(pr, line)
  {
    CapitalThirdLower();
    ThirdGain();
  }

  lemma CaselessFourth(pr: Probe, line: Bytes)
    requires line == Line()[3]
    requires pr.caseless && pr.check == Check.EndsWith && pr.pattern == B("gain") && pr.tables.lower(line) == LowerFourth()
    ensures !Hit(pr, line)
  {
    FourthNotAscii();
    CaselessProbe(pr, line);
    NoFieldWithMissingByte(LowerFourth(), B("gain"), 0);
  }

  lemma CaselessFifth(pr: Probe, line: Bytes)
    requires line == B("Gain")
    requires pr.caseless && pr.check == Check.EndsWith && pr.pattern == B("gain")
    ensures Hit(pr, line)
  {
    FifthLower();
    LoweredGain();
  }

  // ---------------------------------------------------------------------
  // Byte facts about the example lines
  // ---------------------------------------------------------------------

  lemma FirstNoGain()
    ensures !CheckEndsWith(B("againn\n"), B("gain"))
  {
    var a, t, p := B("againn"), B("\n"), B("gain");
    assert B("againn\n") == a + t;
    TokenChecksOfOne(a, t, p);
    NoSuffixAt(a, p, 0);
  }

  lemma SecondGain()
    ensures CheckEndsWith(B("gain\n"), B("gain"))
  {
    assert B("gain\n") == B("gain") + B("\n");
    TokenChecksOfOne(B("gain"), B("\n"), B("gain"));
  }

  lemma ThirdGain()
    ensures CheckEndsWith(B("a\0nd, again\n"), B("gain"))
  {
    var a, w, b, t, p := B("a\0nd,"), B(" "), B("again"), B("\n"), B("gain");
    assert B("a\0nd, again\n") == a + (w + (b + t));
    TokenChecksOfTwo(a, w, b, t, p);
    assert b[1..] == p;
  }

  lemma LoweredGain()
    ensures CheckEndsWith(B("gain"), B("gain"))
  {
    assert B("gain") + [] == B("gain");
    TokenChecksOfOne(B("gain"), [], B("gain"));
  }

  lemma GammaInLowerFourth()
    ensures CheckEndsWith(LowerFourth(), B("a\U{CE}\U{B3}ain"))
  {
    var b := B("a\U{CE}\U{B3}ain");
    assert LowerFourth() == B("&") + (B(" ") + (b + B("\n")));
    TokenChecksOfTwo(B("&"), B(" "), b, B("\n"), b);
  }

  lemma FirstLower()
    ensures IsAscii(B("againn\n")) && AsciiLower(B("againn\n")) == B("againn\n")
  {
    LowerKeeps(B("againn\n"));
  }

  lemma SecondLower()
    ensures IsAscii(B("gain\n"))
  {
  }

  lemma ThirdLower()
    ensures IsAscii(B("a\0nd, again\n"))
  {
  }

  lemma CapitalThirdLower()
    ensures IsAscii(B("a\0nd, aGain\n")) && AsciiLower(B("a\0nd, aGain\n")) == B("a\0nd, again\n")
  {
  }

  lemma FourthNotAscii()
    ensures !IsAscii(Line()[3])
  {
    assert Line()[3][3] == 0xCE;
  }

  lemma FifthLower()
    ensures IsAscii(B("Gain")) && AsciiLower(B("Gain")) == B("gain")
  {
  }

  lemma GainLineLower()
    ensures IsAscii(B("Gain\n")) && AsciiLower(B("Gain\n")) == B("gain\n")
  {
  }

  lemma TrimSecond()
    ensures Ext.TrimTerminator(B("gain\n")) == B("gain")
  {
    Ext.TrimTerminatorUnique(B("gain\n"), B("gain"));
  }

  lemma TrimThird()
    ensures Ext.TrimTerminator(B("a\0nd, again\n")) == B("a\0nd, again")
  {
    Ext.TrimTerminatorUnique(B("a\0nd, again\n"), B("a\0nd, again"));
  }

  lemma TrimCapitalThird()
    ensures Ext.TrimTerminator(B("a\0nd, aGain\n")) == B("a\0nd, aGain")
  {
    Ext.TrimTerminatorUnique(B("a\0nd, aGain\n"), B("a\0nd, aGain"));
  }

  lemma TrimFourth()
    ensures Ext.TrimTerminator(Line()[3]) == B("& A\U{CE}\U{93}ain")
  {
    Ext.TrimTerminatorUnique(Line()[3], B("& A\U{CE}\U{93}ain"));
  }

  lemma TrimFifth()
    ensures Ext.TrimTerminator(B("Gain")) == B("Gain")
  {
    Ext.TrimTerminatorKeepsUnterminated(B("Gain"));
  }

  lemma TrimGainLine()
    ensures Ext.TrimTerminator(B("Gain\n")) == B("Gain")
  {
    Ext.TrimTerminatorUnique(B("Gain\n"), B("Gain"));
  }
}
