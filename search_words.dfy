/**
 * The whole-word search: some word of the line, in the sense of Unicode Standard Annex #29, equals the pattern.
 */
module SearchWords {
  import opened Results
  import opened Matchers
  import opened Unicode
  import opened Scan
  import opened GenCheck

  /** The twelve-arm table of `get_matches` with `check_words` as the predicate of every arm. */
  method GetMatches(s: Searcher, u: Tables) returns (r: GenResult)
    ensures r == Expected(Dispatch(s.matcher.config), s, Check.Words(u), u)
  {
    r := Run(Dispatch(s.matcher.config), s, Check.Words(u), u);
  }
}
