/**
 * The older whole-word search: an eight-arm table without a count axis, so
 * a count request still searches.
 */
module WordsSearch {
  import opened Results
  import opened Matchers
  import opened Unicode
  import opened Scan
  import opened GenCheck

  /** The eight-arm table of `get_matches`, keyed on line numbers, case and budget only. */
  function Select(c: Config): (d: Driver)
    ensures d.mode != Cnt
    ensures d.mode == LineNumber <==> !c.noLineNumber
    ensures d.caseless <==> c.ignoreCase
    ensures d.budgeted <==> c.maxCount.Some?
  {
    match (c.noLineNumber, c.ignoreCase, c.maxCount.Some?)
    case (true, true, true) => Driver(NoLineNumber, true, true)
    case (true, true, false) => Driver(NoLineNumber, true, false)
    case (true, false, true) => Driver(NoLineNumber, false, true)
    case (true, false, false) => Driver(NoLineNumber, false, false)
    case (false, true, true) => Driver(LineNumber, true, true)
    case (false, true, false) => Driver(LineNumber, true, false)
    case (false, false, true) => Driver(LineNumber, false, true)
    case (false, false, false) => Driver(LineNumber, false, false)
  }

  /** Runs the selected driver with the whole-word predicate. */
  method GetMatches(s: Searcher, u: Tables) returns (r: GenResult)
    ensures r == Expected(Select(s.matcher.config), s, Check.Words(u), u)
  {
    r := Run(Select(s.matcher.config), s, Check.Words(u), u);
  }

  /**
   * Without `count` the older table picks the same driver as the current
   * one; with it the older one still searches where the current one counts.
   */
  lemma AgreesWithoutCount(c: Config)
    ensures !c.count ==> Select(c) == Dispatch(c)
    ensures c.count ==> Select(c).mode != Cnt && Dispatch(c).mode == Cnt
  {
  }
}
