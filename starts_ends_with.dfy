/**
 * The starts-and-ends-with search: one whitespace-separated field both starts and ends with the pattern.
 */
module StartsEndsWithSearch {
  import opened Results
  import opened Matchers
  import opened Unicode
  import opened Scan
  import opened GenCheck

  /** The twelve-arm table of `get_matches` with `check_starts_ends_with` as the predicate of every arm. */
  method GetMatches(s: Searcher, u: Tables) returns (r: GenResult)
    ensures r == Expected(Dispatch(s.matcher.config), s, Check.StartsEndsWith, u)
  {
    r := Run(Dispatch(s.matcher.config), s, Check.StartsEndsWith, u);
  }
}
