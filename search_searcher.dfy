/**
 * The top of the current engine: `search_matches` hands the scan to the
 * dispatcher of the matcher's type.
 */
module SearchSearcher {
  import opened Results
  import opened Matchers
  import opened Unicode
  import opened Scan
  import opened GenCheck
  import SearchBase
  import SearchMaxCount
  import StartsWithSearch
  import EndsWithSearch
  import StartsEndsWithSearch
  import SearchWords

  /** The predicate each matcher type tests lines with. */
  function CheckFor(t: MatcherType, u: Tables): (c: Check)
    ensures c == Check.Contains <==> t == MatcherType.Base || t == MatcherType.MaxCount
    ensures c == Check.StartsWith <==> t == MatcherType.StartsWith
    ensures c == Check.EndsWith <==> t == MatcherType.EndsWith
    ensures c == Check.StartsEndsWith <==> t == MatcherType.StartsEndsWith
    ensures c == Check.Words(u) <==> t == MatcherType.Words
  {
    match t
    case Base => Check.Contains
    case MaxCount => Check.Contains
    case StartsWith => Check.StartsWith
    case EndsWith => Check.EndsWith
    case StartsEndsWith => Check.StartsEndsWith
    case Words => Check.Words(u)
  }

  /** The driver each matcher type's dispatcher picks from the configuration. */
  function DriverFor(t: MatcherType, c: Config): (d: Driver)
    ensures t == MatcherType.Base ==> !d.budgeted
    ensures t == MatcherType.MaxCount ==> d.budgeted
    ensures t != MatcherType.Base && t != MatcherType.MaxCount ==> d == Dispatch(c)
  {
    match t
    case Base => SearchBase.Select(c)
    case MaxCount => SearchMaxCount.Select(c)
    case _ => Dispatch(c)
  }

  /**
   * `search_matches`: exactly one dispatcher runs, chosen by the matcher
   * type, and the scan is the one its driver specifies. The `MaxCount`
   * drivers unwrap `max_count`.
   */
  method SearchMatches(s: Searcher, u: Tables) returns (r: GenResult)
    requires s.matcher.matcherType == MatcherType.MaxCount ==> s.matcher.config.maxCount.Some?
    ensures r == Expected(DriverFor(s.matcher.matcherType, s.matcher.config), s, CheckFor(s.matcher.matcherType, u), u)
  {
    match s.matcher.matcherType
    case Base => r := SearchBase.GetMatches(s, u);
    case EndsWith => r := EndsWithSearch.GetMatches(s, u);
    case MaxCount => r := SearchMaxCount.GetMatches(s, u);
    case StartsWith => r := StartsWithSearch.GetMatches(s, u);
    case StartsEndsWith => r := StartsEndsWithSearch.GetMatches(s, u);
    case Words => r := SearchWords.GetMatches(s, u);
  }

  /** A matcher that `build` made never reaches the `MaxCount` drivers without a budget. */
  lemma BuiltMatcherIsRunnable(s: Searcher)
    requires WellFormed(s.matcher)
    ensures s.matcher.matcherType == MatcherType.MaxCount ==> s.matcher.config.maxCount.Some?
    ensures Runnable(DriverFor(s.matcher.matcherType, s.matcher.config), s)
  {
  }

  /**
   * With `words` set a built matcher tests whole words, whatever the other
   * mode flags say; `count` then counts and otherwise the parallel line
   * numbers follow `no_line_number`.
   */
  lemma WordsWins(s: Searcher, u: Tables)
    requires WellFormed(s.matcher) && s.matcher.config.words
    ensures CheckFor(s.matcher.matcherType, u) == Check.Words(u)
    ensures DriverFor(s.matcher.matcherType, s.matcher.config) == Dispatch(s.matcher.config)
  {
  }
}
