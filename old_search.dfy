/**
 * The oldest `search_matches`: the matcher type picks the old base search,
 * the old budgeted search, or the current starts-with search. The old
 * drivers answer a `SearcherResult`, which is lifted here into the
 * `GenResult` the starts-with search answers, so that the two generations
 * can be compared.
 */
module OldSearch {
  import opened Results
  import opened Unicode
  import opened Scan
  import opened GenCheck
  import opened OldSearcher
  import OldBase
  import OldMaxCount
  import SearchBase
  import SearchMaxCount
  import StartsWithSearch
  import Wrappers

  /** A `SearcherResult` as a `GenResult`: a successful search keeps its matches and line numbers as they are. */
  function Lift(sr: SearcherResult): (r: GenResult)
    ensures r.Ok? <==> sr.Ok?
    ensures sr.Ok? ==> r.value == Search(sr.value)
    ensures sr.Err? ==> r.error == sr.error
  {
    match sr
    case Ok(v) => Wrappers.Ok(Search(v))
    case Err(e) => Wrappers.Err(e)
  }

  /** The old matcher over the same reader, pattern and configuration as a searcher. */
  function OldMatcherOf(s: Searcher): (m: OldMatcher)
    ensures m.reader == s.reader && m.pattern == s.matcher.pattern && m.config == s.matcher.config
  {
    OldMatcher(s.reader, s.matcher.pattern, s.matcher.config)
  }

  method SearchMatches(s: Searcher, t: OldMatcherType, u: Tables) returns (r: GenResult)
    requires t == OldMatcherType.MaxCount ==> s.matcher.config.maxCount.Some?
    ensures t == OldMatcherType.Base ==> r == Lift(OldExpected(OldBase.Select(s.matcher.config), OldMatcherOf(s), u))
    ensures t == OldMatcherType.MaxCount ==> r == Lift(OldExpected(OldMaxCount.Select(s.matcher.config), OldMatcherOf(s), u))
    ensures t == OldMatcherType.StartsWith ==> r == Expected(Dispatch(s.matcher.config), s, Check.StartsWith, u)
  {
    match t
    case Base =>
      var sr := OldBase.GetMatches(OldMatcherOf(s), u);
      r := Lift(sr);
    case MaxCount =>
      var sr := OldMaxCount.GetMatches(OldMatcherOf(s), u);
      r := Lift(sr);
    case StartsWith =>
      r := StartsWithSearch.GetMatches(s, u);
  }

  /**
   * The old and the current base search agree on every search except a
   * numbered one that finds nothing: the old one answers
   * `LineNumbers::Some([])` there, the current one `LineNumbers::None`.
   */
  lemma BaseGenerations(s: Searcher, u: Tables)
    requires !s.matcher.config.count
    ensures var c := s.matcher.config;
      var pr := Probe(Check.Contains, u, s.matcher.pattern, c.ignoreCase);
      Lift(OldExpected(OldBase.Select(c), OldMatcherOf(s), u)) == Expected(SearchBase.Select(c), s, Check.Contains, u)
      <==> s.reader.failure.Some? || c.noLineNumber || Hits(pr, s.reader.lines) != []
  {
  }

  /** The same for the budgeted search, where "finds nothing" also covers a zero budget. */
  lemma MaxCountGenerations(s: Searcher, u: Tables)
    requires !s.matcher.config.count && s.matcher.config.maxCount.Some?
    ensures var c := s.matcher.config;
      var pr := Probe(Check.Contains, u, s.matcher.pattern, c.ignoreCase);
      Lift(OldExpected(OldMaxCount.Select(c), OldMatcherOf(s), u)) == Expected(SearchMaxCount.Select(c), s, Check.Contains, u)
      <==> s.reader.failure.Some? || c.noLineNumber || Recorded(pr, s.reader.lines, c.maxCount) != []
  {
  }
}
