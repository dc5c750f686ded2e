/**
 * The matcher: the configuration flags, the builder that sets them one at
 * a time, and `build`, which folds the pattern for a caseless search and
 * picks the kind of scan from the flags.
 */
module Matchers {
  import opened Bytes
  import opened Unicode
  import Wrappers

  /**
   * The scan configuration. `count` is read by every current driver and
   * set by the tests through the builder; it sits with the other flags.
   */
  datatype Config = Config(
    count: bool,
    endsWith: bool,
    ignoreCase: bool,
    maxCount: Wrappers.Option<nat>,
    noLineNumber: bool,
    startsWith: bool,
    words: bool)

  /** `Config::default()`: every flag off and no budget, so the plainest scan. */
  function DefaultConfig(): (c: Config)
    ensures !c.count && !c.endsWith && !c.ignoreCase && !c.noLineNumber && !c.startsWith && !c.words
    ensures c.maxCount.None?
    ensures SelectType(c) == Base
  {
    Config(false, false, false, Wrappers.None, false, false, false)
  }

  datatype MatcherType = Base | EndsWith | MaxCount | StartsEndsWith | StartsWith | Words

  /**
   * The kind of scan: `words` wins over everything, then the two token
   * flags, and only without any of them does the budget decide between the
   * budgeted and the unbounded substring scan.
   */
  function SelectType(c: Config): (t: MatcherType)
    ensures t == Words <==> c.words
    ensures t == StartsEndsWith <==> !c.words && c.endsWith && c.startsWith
    ensures t == EndsWith <==> !c.words && c.endsWith && !c.startsWith
    ensures t == StartsWith <==> !c.words && !c.endsWith && c.startsWith
    ensures t == MaxCount <==> !c.words && !c.endsWith && !c.startsWith && c.maxCount.Some?
    ensures t == Base <==> !c.words && !c.endsWith && !c.startsWith && c.maxCount.None?
  {
    match (c.words, c.endsWith, c.startsWith, c.maxCount.Some?)
    case (true, _, _, _) => Words
    case (false, true, true, _) => StartsEndsWith
    case (false, true, false, _) => EndsWith
    case (false, false, true, _) => StartsWith
    case (false, false, false, true) => MaxCount
    case (false, false, false, false) => Base
  }

  /** The kind of scan depends on nothing but `words`, `ends_with`, `starts_with` and whether there is a budget. */
  lemma SelectTypeIgnoresOutputFlags(c: Config, d: Config)
    requires c.words == d.words && c.endsWith == d.endsWith && c.startsWith == d.startsWith
    requires c.maxCount.Some? == d.maxCount.Some?
    ensures SelectType(c) == SelectType(d)
  {
  }

  datatype Matcher = Matcher(pattern: Bytes, config: Config, matcherType: MatcherType)

  /** A matcher as `build` makes them: its kind agrees with its flags, so a budgeted kind has a budget. */
  predicate WellFormed(m: Matcher) {
    m.matcherType == SelectType(m.config)
  }

  class MatcherBuilder {
    var config: Config

    /** `MatcherBuilder::new()`. */
    constructor ()
      ensures config == DefaultConfig()
    {
      config := DefaultConfig();
    }

    method SetCount(v: bool)
      modifies this
      ensures config == old(config).(count := v)
    {
      config := config.(count := v);
    }

    method SetEndsWith(v: bool)
      modifies this
      ensures config == old(config).(endsWith := v)
    {
      config := config.(endsWith := v);
    }

    method SetIgnoreCase(v: bool)
      modifies this
      ensures config == old(config).(ignoreCase := v)
    {
      config := config.(ignoreCase := v);
    }

    method SetMaxCount(v: Wrappers.Option<nat>)
      modifies this
      ensures config == old(config).(maxCount := v)
    {
      config := config.(maxCount := v);
    }

    method SetNoLineNumber(v: bool)
      modifies this
      ensures config == old(config).(noLineNumber := v)
    {
      config := config.(noLineNumber := v);
    }

    method SetStartsWith(v: bool)
      modifies this
      ensures config == old(config).(startsWith := v)
    {
      config := config.(startsWith := v);
    }

    method SetWords(v: bool)
      modifies this
      ensures config == old(config).(words := v)
    {
      config := config.(words := v);
    }

    /**
     * `build`: the pattern is lowercased by the string lowercasing (not the
     * one lines get) exactly when the search ignores case, the flags are
     * copied unchanged, and the kind is chosen from them.
     */
    method Build(pattern: Bytes, u: Tables) returns (m: Matcher)
      ensures m.config == config
      ensures config.ignoreCase ==> m.pattern == u.lowerPattern(pattern)
      ensures !config.ignoreCase ==> m.pattern == pattern
      ensures WellFormed(m)
      ensures config.ignoreCase && AsciiLowering(u) && IsAscii(pattern) ==> m.pattern == AsciiLower(pattern)
    {
      var p := pattern;
      if config.ignoreCase {
        p := u.lowerPattern(p);
      }
      m := Matcher(p, config, SelectType(config));
    }
  }
}
