/**
 * The oldest budgeted search: four contains-drivers on an `OldMatcher`
 * that unwrap `max_count` and skip every line once it is spent.
 */
module OldMaxCount {
  import opened Results
  import opened Unicode
  import opened Scan
  import opened GenCheck
  import opened OldSearcher
  import Matchers
  import Wrappers

  /** The four-arm table of `get_matches`. */
  function Select(c: Matchers.Config): (d: Driver)
    ensures d.mode != Cnt
    ensures d.mode == LineNumber <==> !c.noLineNumber
    ensures d.caseless <==> c.ignoreCase
    ensures d.budgeted
  {
    match (c.noLineNumber, c.ignoreCase)
    case (true, true) => Driver(NoLineNumber, true, true)
    case (true, false) => Driver(NoLineNumber, false, true)
    case (false, true) => Driver(LineNumber, true, true)
    case (false, false) => Driver(LineNumber, false, true)
  }

  /** Every driver unwraps `max_count`, so it must be set. */
  method GetMatches(m: OldMatcher, u: Tables) returns (r: SearcherResult)
    requires m.config.maxCount.Some?
    ensures r == OldExpected(Select(m.config), m, u)
  {
    r := OldRun(Select(m.config), m, u);
  }

  /**
   * Without a reader error the old budgeted search stores the first
   * `max_count` lines that contain the pattern (all of them when there are
   * fewer), and a numbered search gives one number per stored line.
   */
  lemma StoresFirstHits(m: OldMatcher, u: Tables)
    requires m.config.maxCount.Some? && m.reader.failure.None?
    ensures var r := OldExpected(Select(m.config), m, u);
      var n := m.config.maxCount.value;
      var pr := Probe(Check.Contains, u, m.pattern, m.config.ignoreCase);
      var all := Stored(m.reader.lines, Hits(pr, m.reader.lines));
      && r.Ok?
      && r.value.matches <= all
      && |r.value.matches| == (if |all| <= n then |all| else n)
      && (m.config.noLineNumber <==> r.value.lineNumbers.None?)
      && |Numbers(r.value.lineNumbers)| == (if m.config.noLineNumber then 0 else |r.value.matches|)
  {
    var pr := Probe(Check.Contains, u, m.pattern, m.config.ignoreCase);
    var flags := Flags(pr, m.reader.lines);
    SelectedBudget(flags, m.config.maxCount.value);
    StoredPrefix(m.reader.lines, Selected(flags, m.config.maxCount), Hits(pr, m.reader.lines));
  }

  /** A zero budget stores nothing, yet a numbered search still answers `LineNumbers::Some([])`. */
  lemma ZeroBudgetNumbered(m: OldMatcher, u: Tables)
    requires m.config.maxCount == Wrappers.Some(0) && m.reader.failure.None? && !m.config.noLineNumber
    ensures OldExpected(Select(m.config), m, u) == Wrappers.Ok(SearchResult([], Some([])))
  {
  }
}
