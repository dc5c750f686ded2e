/**
 * The oldest base search: four contains-drivers on an `OldMatcher`, picked
 * by the line-number and case flags, none of which reads `max_count`.
 */
module OldBase {
  import opened Results
  import opened Unicode
  import opened Scan
  import opened GenCheck
  import opened OldSearcher
  import Matchers

  /** The four-arm table of `get_matches`. */
  function Select(c: Matchers.Config): (d: Driver)
    ensures d.mode != Cnt
    ensures d.mode == LineNumber <==> !c.noLineNumber
    ensures d.caseless <==> c.ignoreCase
    ensures !d.budgeted
  {
    match (c.noLineNumber, c.ignoreCase)
    case (true, true) => Driver(NoLineNumber, true, false)
    case (true, false) => Driver(NoLineNumber, false, false)
    case (false, true) => Driver(LineNumber, true, false)
    case (false, false) => Driver(LineNumber, false, false)
  }

  method GetMatches(m: OldMatcher, u: Tables) returns (r: SearcherResult)
    ensures r == OldExpected(Select(m.config), m, u)
  {
    r := OldRun(Select(m.config), m, u);
  }

  /**
   * Without a reader error the old base search stores every line that
   * contains the pattern, and a numbered search always answers
   * `LineNumbers::Some`, with one number per stored line.
   */
  lemma StoresEveryHit(m: OldMatcher, u: Tables)
    requires m.reader.failure.None?
    ensures var r := OldExpected(Select(m.config), m, u);
      var pr := Probe(Check.Contains, u, m.pattern, m.config.ignoreCase);
      && r.Ok?
      && r.value.matches == Stored(m.reader.lines, Hits(pr, m.reader.lines))
      && (m.config.noLineNumber <==> r.value.lineNumbers.None?)
      && |Numbers(r.value.lineNumbers)| == (if m.config.noLineNumber then 0 else |r.value.matches|)
  {
  }
}
