/**
 * The unbounded contains-search (`MatcherType::Base`): six drivers, picked
 * by the line-number, case and count flags. The budget is never read.
 */
module SearchBase {
  import opened Results
  import opened Matchers
  import opened Unicode
  import opened Scan
  import opened GenCheck

  /** The six-arm table of `get_matches`: `count` wins over `no_line_number`. */
  function Select(c: Config): (d: Driver)
    ensures d.mode == Cnt <==> c.count
    ensures d.mode == LineNumber <==> !c.count && !c.noLineNumber
    ensures d.caseless <==> c.ignoreCase
    ensures !d.budgeted
  {
    match (c.count, c.noLineNumber, c.ignoreCase)
    case (false, true, true) => Driver(NoLineNumber, true, false)
    case (false, true, false) => Driver(NoLineNumber, false, false)
    case (false, false, true) => Driver(LineNumber, true, false)
    case (false, false, false) => Driver(LineNumber, false, false)
    case (true, _, true) => Driver(Cnt, true, false)
    case (true, _, false) => Driver(Cnt, false, false)
  }

  /** Runs the selected driver with byte containment as the predicate. */
  method GetMatches(s: Searcher, u: Tables) returns (r: GenResult)
    ensures r == Expected(Select(s.matcher.config), s, Check.Contains, u)
  {
    r := Run(Select(s.matcher.config), s, Check.Contains, u);
  }

  /** The result does not depend on `max_count`: every hit is stored or counted. */
  lemma IgnoresMaxCount(s: Searcher, u: Tables)
    requires s.reader.failure.None?
    ensures var d := Select(s.matcher.config);
      var lines := s.reader.lines;
      var pr := ProbeOf(d, s, Check.Contains, u);
      && (d.mode == Cnt ==> Expected(d, s, Check.Contains, u) == UpcastCount(|Hits(pr, lines)|))
      && (d.mode != Cnt ==> Expected(d, s, Check.Contains, u).value.result.matches == Stored(lines, Hits(pr, lines)))
  {
  }
}
