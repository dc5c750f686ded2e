/**
 * The starts-with search: some whitespace-separated field of the line starts with the pattern.
 */
module StartsWithSearch {
  import opened Results
  import opened Matchers
  import opened Unicode
  import opened Scan
  import opened GenCheck

  /** The twelve-arm table of `get_matches` with `check_starts_with` as the predicate of every arm. */
  method GetMatches(s: Searcher, u: Tables) returns (r: GenResult)
    ensures r == Expected(Dispatch(s.matcher.config), s, Check.StartsWith, u)
  {
    r := Run(Dispatch(s.matcher.config), s, Check.StartsWith, u);
  }
}
