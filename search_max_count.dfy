/**
 * The budgeted contains-search (`MatcherType::MaxCount`): six drivers, picked
 * by the line-number, case and count flags, that all read the budget.
 */
module SearchMaxCount {
  import opened Results
  import opened Matchers
  import opened Unicode
  import opened Scan
  import opened GenCheck

  /** The six-arm table of `get_matches`: `count` wins over `no_line_number`. */
  function Select(c: Config): (d: Driver)
    ensures d.mode == Cnt <==> c.count
    ensures d.mode == LineNumber <==> !c.count && !c.noLineNumber
    ensures d.caseless <==> c.ignoreCase
    ensures d.budgeted
  {
    match (c.count, c.noLineNumber, c.ignoreCase)
    case (false, true, true) => Driver(NoLineNumber, true, true)
    case (false, true, false) => Driver(NoLineNumber, false, true)
    case (false, false, true) => Driver(LineNumber, true, true)
    case (false, false, false) => Driver(LineNumber, false, true)
    case (true, _, true) => Driver(Cnt, true, true)
    case (true, _, false) => Driver(Cnt, false, true)
  }

  /** Every driver unwraps `max_count`, so it must be set. */
  method GetMatches(s: Searcher, u: Tables) returns (r: GenResult)
    requires s.matcher.config.maxCount.Some?
    ensures r == Expected(Select(s.matcher.config), s, Check.Contains, u)
  {
    r := Run(Select(s.matcher.config), s, Check.Contains, u);
  }

  /**
   * A search stores at most `max_count` lines, the first ones that contain
   * the pattern; a count is not capped and is 0 only under a zero budget.
   */
  lemma BudgetEffect(s: Searcher, u: Tables)
    requires s.matcher.config.maxCount.Some? && s.reader.failure.None?
    ensures var d := Select(s.matcher.config);
      var n := s.matcher.config.maxCount.value;
      var pr := ProbeOf(d, s, Check.Contains, u);
      var lines := s.reader.lines;
      var e := Expected(d, s, Check.Contains, u);
      && (d.mode != Cnt ==> |e.value.result.matches| <= n && e.value.result.matches <= Stored(lines, Hits(pr, lines)))
      && (d.mode == Cnt ==> e == UpcastCount(if n == 0 then 0 else |Hits(pr, lines)|))
  {
    var d := Select(s.matcher.config);
    var pr := ProbeOf(d, s, Check.Contains, u);
    var flags := Flags(pr, s.reader.lines);
    SelectedBudget(flags, s.matcher.config.maxCount.value);
    StoredPrefix(s.reader.lines, Selected(flags, s.matcher.config.maxCount), Hits(pr, s.reader.lines));
  }
}
