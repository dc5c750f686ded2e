/**
 * The predicate-generic drivers: one pass over the lines that folds case
 * or not, tests the predicate, and stores into a `SearchInnerResult` (with
 * or without line numbers) or adds to a `CountResult`, under a max-count
 * budget or without one. The twelve drivers are the twelve combinations
 * of a `Driver` value.
 */
module GenCheck {
  import opened Bytes
  import opened Ext
  import opened Unicode
  import opened Results
  import opened Matchers
  import opened Scan
  import Wrappers

  /** Counting, searching without line numbers, or searching with them. */
  datatype Mode = Cnt | NoLineNumber | LineNumber

  /**
   * One of the twelve drivers, e.g. `line_number_caseless_max_count` is
   * `Driver(LineNumber, true, true)` and `cnt` is `Driver(Cnt, false, false)`.
   */
  datatype Driver = Driver(mode: Mode, caseless: bool, budgeted: bool)

  /** A budgeted driver unwraps `max_count`, so it needs one. */
  predicate Runnable(d: Driver, s: Searcher) {
    d.budgeted ==> s.matcher.config.maxCount.Some?
  }

  function ProbeOf(d: Driver, s: Searcher, check: Check, u: Tables): Probe {
    Probe(check, u, s.matcher.pattern, d.caseless)
  }

  function BudgetOf(d: Driver, s: Searcher): Wrappers.Option<nat> {
    if d.budgeted then s.matcher.config.maxCount else Wrappers.None
  }

  /**
   * What a driver returns: the reader's error if there is one, otherwise
   * the count of hits (0 under a zero budget), or the first `max_count`
   * hits trimmed, with their 1-based line numbers in the numbered drivers.
   */
  function Expected(d: Driver, s: Searcher, check: Check, u: Tables): GenResult
    requires Runnable(d, s)
  {
    if s.reader.failure.Some? then Wrappers.Err(s.reader.failure.value)
    else
      var lines := s.reader.lines;
      var flags := Flags(ProbeOf(d, s, check, u), lines);
      var idx := Selected(flags, BudgetOf(d, s));
      match d.mode
      case Cnt => UpcastCount(Counted(flags, BudgetOf(d, s)))
      case NoLineNumber => UpcastSearch(Stored(lines, idx), [])
      case LineNumber => UpcastSearch(Stored(lines, idx), Numbered(idx))
  }

  /**
   * The body of the searching loop for one line: test the line, or its
   * folded copy when caseless, and store the original with the right
   * `check_and_store*` method.
   */
  method StoreLine(sir: SearchInnerResult, pr: Probe, numbered: bool, budgeted: bool, lineNumber: nat, line: Bytes, matchesLeft: nat, ghost hit: bool)
    returns (left: nat)
    requires hit == Hit(pr, line)
    requires budgeted ==> matchesLeft > 0
    modifies sir
    ensures sir.matches == old(sir.matches) + (if hit then [TrimTerminator(line)] else [])
    ensures sir.lineNumbers == old(sir.lineNumbers) + (if numbered && hit then [lineNumber] else [])
    ensures left == if budgeted && hit then matchesLeft - 1 else matchesLeft
  {
    left := matchesLeft;
    if !pr.caseless {
      if numbered && budgeted {
        left := sir.CheckAndStoreMaxCount(pr.pattern, lineNumber, line, matchesLeft, pr.check);
      } else if numbered {
        sir.CheckAndStore(pr.pattern, lineNumber, line, pr.check);
      } else if budgeted {
        left := sir.CheckAndStoreNlnMaxCount(pr.pattern, line, matchesLeft, pr.check);
      } else {
        sir.CheckAndStoreNln(pr.pattern, line, pr.check);
      }
    } else {
      var lower;
      if IsAscii(line) {
        lower := AsciiLower(line);
      } else {
        lower := pr.tables.lower(line);
      }
      if numbered && budgeted {
        left := sir.CheckAndStoreSeparateMaxCount(pr.pattern, lineNumber, lower, line, matchesLeft, pr.check);
      } else if numbered {
        sir.CheckAndStoreSeparate(pr.pattern, lineNumber, lower, line, pr.check);
      } else if budgeted {
        left := sir.CheckAndStoreSeparateNlnMaxCount(pr.pattern, lower, line, matchesLeft, pr.check);
      } else {
        sir.CheckAndStoreSeparateNln(pr.pattern, lower, line, pr.check);
      }
    }
  }

  /**
   * What the searching loop keeps after the verdicts `flags` of the lines
   * read so far: the selected lines and numbers are stored, the remaining
   * budget is what the selection has not used, and the line number is the
   * count of lines read until the budget ran out.
   */
  ghost predicate SearchInv(lines: seq<Bytes>, flags: seq<bool>, budget: Wrappers.Option<nat>, numbered: bool,
                            matches: seq<Bytes>, lineNumbers: seq<nat>, left: nat, lineNumber: nat)
  {
    && |flags| <= |lines|
    && matches == Stored(lines, Selected(flags, budget))
    && lineNumbers == (if numbered then Numbered(Selected(flags, budget)) else [])
    && (budget.Some? ==> left + |Selected(flags, budget)| == budget.value)
    && lineNumber <= |flags|
    && (budget.None? || left > 0 ==> lineNumber == |flags|)
  }

  /** A line read with the budget used up changes nothing but the line count. */
  lemma SearchInvSkip(lines: seq<Bytes>, flags: seq<bool>, hit: bool, budget: Wrappers.Option<nat>, numbered: bool,
                      matches: seq<Bytes>, lineNumbers: seq<nat>, left: nat, lineNumber: nat)
    requires |flags| < |lines| && budget.Some? && left == 0
    requires SearchInv(lines, flags, budget, numbered, matches, lineNumbers, left, lineNumber)
    ensures SearchInv(lines, flags + [hit], budget, numbered, matches, lineNumbers, left, lineNumber)
  {
    RecordStep(lines, flags, hit, budget, left);
  }

  /** A line read with budget left is numbered, and stored with its number when it is a hit. */
  lemma SearchInvStore(lines: seq<Bytes>, flags: seq<bool>, hit: bool, budget: Wrappers.Option<nat>, numbered: bool,
                       matches: seq<Bytes>, lineNumbers: seq<nat>, left: nat, lineNumber: nat)
    requires |flags| < |lines| && (budget.None? || left > 0)
    requires SearchInv(lines, flags, budget, numbered, matches, lineNumbers, left, lineNumber)
    ensures SearchInv(lines, flags + [hit], budget, numbered,
                      matches + (if hit then [TrimTerminator(lines[|flags|])] else []),
                      lineNumbers + (if numbered && hit then [lineNumber + 1] else []),
                      if budget.Some? && hit then left - 1 else left,
                      lineNumber + 1)
  {
    RecordStep(lines, flags, hit, budget, left);
  }

  /**
   * One turn of the searching loop: a line read once the budget is 0 is
   * skipped; otherwise the line number goes up by one and the line is
   * checked and stored.
   */
  method SearchStep(sir: SearchInnerResult, pr: Probe, numbered: bool, budget: Wrappers.Option<nat>,
                    lines: seq<Bytes>, i: nat, lineNumber: nat, matchesLeft: nat, ghost flags: seq<bool>, ghost next: seq<bool>)
    returns (lineNumber': nat, left: nat)
    requires i == |flags| < |lines| && next == flags + [Hit(pr, lines[i])]
    requires SearchInv(lines, flags, budget, numbered, sir.matches, sir.lineNumbers, matchesLeft, lineNumber)
    modifies sir
    ensures SearchInv(lines, next, budget, numbered, sir.matches, sir.lineNumbers, left, lineNumber')
  {
    ghost var hit := Hit(pr, lines[i]);
    lineNumber', left := lineNumber, matchesLeft;
    if !(budget.Some? && matchesLeft == 0) {
      SearchInvStore(lines, flags, hit, budget, numbered, sir.matches, sir.lineNumbers, matchesLeft, lineNumber);
      lineNumber' := lineNumber + 1;
      left := StoreLine(sir, pr, numbered, budget.Some?, lineNumber', lines[i], matchesLeft, hit);
    } else {
      SearchInvSkip(lines, flags, hit, budget, numbered, sir.matches, sir.lineNumbers, matchesLeft, lineNumber);
    }
  }

  /** The searching loop: every line read in order, each with one `SearchStep`. */
  method SearchLines(lines: seq<Bytes>, pr: Probe, numbered: bool, budget: Wrappers.Option<nat>)
    returns (matches: seq<Bytes>, lineNumbers: seq<nat>)
    ensures matches == Stored(lines, Recorded(pr, lines, budget))
    ensures lineNumbers == if numbered then Numbered(Recorded(pr, lines, budget)) else []
  {
    var sir := new SearchInnerResult();
    var lineNumber: nat := 0;
    var matchesLeft: nat := if budget.Some? then budget.value else 0;
    ghost var verdicts := Flags(pr, lines);
    var i := 0;
    while i < |lines|
      invariant 0 <= i <= |lines|
      invariant SearchInv(lines, verdicts[..i], budget, numbered, sir.matches, sir.lineNumbers, matchesLeft, lineNumber)
    {
      FlagsPrefix(pr, lines, i);
      lineNumber, matchesLeft := SearchStep(sir, pr, numbered, budget, lines, i, lineNumber, matchesLeft, verdicts[..i], verdicts[..i + 1]);
      i := i + 1;
    }
    assert verdicts[..i] == verdicts;
    matches, lineNumbers := sir.matches, sir.lineNumbers;
  }

  /** One turn of the counting loop: a zero budget skips the line, otherwise it is checked and counted. */
  method CountStep(cr: CountResult, pr: Probe, budget: Wrappers.Option<nat>, lines: seq<Bytes>, i: nat,
                   matchesLeft: nat, ghost flags: seq<bool>, ghost next: seq<bool>)
    requires i == |flags| < |lines| && next == flags + [Hit(pr, lines[i])]
    requires cr.count == Counted(flags, budget) && (budget.Some? ==> matchesLeft == budget.value)
    modifies cr
    ensures cr.count == Counted(next, budget)
  {
    var line := lines[i];
    CountedStep(flags, Hit(pr, line), budget);
    if !(budget.Some? && matchesLeft == 0) {
      if !pr.caseless {
        cr.CheckAndAdd(pr.pattern, line, pr.check);
      } else if IsAscii(line) {
        cr.CheckAndAdd(pr.pattern, AsciiLower(line), pr.check);
      } else {
        cr.CheckAndAdd(pr.pattern, pr.tables.lower(line), pr.check);
      }
    }
  }

  /**
   * The counting loop. A budget is only compared with 0 and never counted
   * down, so it either suppresses every line or none.
   */
  method CountLines(lines: seq<Bytes>, pr: Probe, budget: Wrappers.Option<nat>) returns (count: nat)
    ensures count == Counted(Flags(pr, lines), budget)
  {
    var cr := new CountResult();
    var matchesLeft: nat := if budget.Some? then budget.value else 0;
    ghost var verdicts := Flags(pr, lines);
    var i := 0;
    while i < |lines|
      invariant 0 <= i <= |lines|
      invariant cr.count == Counted(verdicts[..i], budget)
      invariant budget.Some? ==> matchesLeft == budget.value
    {
      FlagsPrefix(pr, lines, i);
      CountStep(cr, pr, budget, lines, i, matchesLeft, verdicts[..i], verdicts[..i + 1]);
      i := i + 1;
    }
    assert verdicts[..i] == verdicts;
    count := cr.count;
  }

  /** Runs one driver over the searcher's input; the reader's error, if any, replaces the result. */
  method Run(d: Driver, s: Searcher, check: Check, u: Tables) returns (r: GenResult)
    requires Runnable(d, s)
    ensures r == Expected(d, s, check, u)
  {
    var pr := Probe(check, u, s.matcher.pattern, d.caseless);
    var budget := if d.budgeted then Wrappers.Some(s.matcher.config.maxCount.value) else Wrappers.None;
    if d.mode == Cnt {
      var count := CountLines(s.reader.lines, pr, budget);
      if s.reader.failure.Some? {
        r := Wrappers.Err(s.reader.failure.value);
      } else {
        r := UpcastCount(count);
      }
    } else {
      var matches, lineNumbers := SearchLines(s.reader.lines, pr, d.mode == LineNumber, budget);
      if s.reader.failure.Some? {
        r := Wrappers.Err(s.reader.failure.value);
      } else {
        r := UpcastSearch(matches, lineNumbers);
      }
    }
  }

  /**
   * The twelve-arm table of the predicate dispatchers: `count` picks a
   * counting driver whatever `no_line_number` says, and otherwise the line
   * number, case and budget flags pick the searching driver.
   */
  function Dispatch(c: Config): (d: Driver)
    ensures d.mode == Cnt <==> c.count
    ensures d.mode == LineNumber <==> !c.count && !c.noLineNumber
    ensures d.caseless <==> c.ignoreCase
    ensures d.budgeted <==> c.maxCount.Some?
  {
    match (c.count, c.noLineNumber, c.ignoreCase, c.maxCount.Some?)
    case (false, true, true, true) => Driver(NoLineNumber, true, true)
    case (false, true, true, false) => Driver(NoLineNumber, true, false)
    case (false, true, false, true) => Driver(NoLineNumber, false, true)
    case (false, true, false, false) => Driver(NoLineNumber, false, false)
    case (false, false, true, true) => Driver(LineNumber, true, true)
    case (false, false, true, false) => Driver(LineNumber, true, false)
    case (false, false, false, true) => Driver(LineNumber, false, true)
    case (false, false, false, false) => Driver(LineNumber, false, false)
    case (true, _, true, true) => Driver(Cnt, true, true)
    case (true, _, true, false) => Driver(Cnt, true, false)
    case (true, _, false, true) => Driver(Cnt, false, true)
    case (true, _, false, false) => Driver(Cnt, false, false)
  }

  // ---------------------------------------------------------------------
  // Properties of every driver
  // ---------------------------------------------------------------------

  /**
   * A numbered search reports `LineNumbers::None` exactly when it stored
   * nothing, and otherwise one number per stored line; an unnumbered
   * search always reports `None`.
   */
  lemma LineNumbersShape(d: Driver, s: Searcher, check: Check, u: Tables)
    requires Runnable(d, s) && s.reader.failure.None? && d.mode != Cnt
    ensures Expected(d, s, check, u).Ok? && Expected(d, s, check, u).value.Search?
    ensures d.mode == NoLineNumber ==> Expected(d, s, check, u).value.result.lineNumbers.None?
    ensures d.mode == LineNumber ==>
      var sr := Expected(d, s, check, u).value.result;
      && (sr.lineNumbers.None? <==> sr.matches == [])
      && |Numbers(sr.lineNumbers)| == |sr.matches|
  {
  }

  /** A zero budget yields the default, empty search result, or a count of 0. */
  lemma ZeroBudget(d: Driver, s: Searcher, check: Check, u: Tables)
    requires d.budgeted && s.matcher.config.maxCount == Wrappers.Some(0) && s.reader.failure.None?
    ensures d.mode == Cnt ==> Expected(d, s, check, u) == Wrappers.Ok(Count(0))
    ensures d.mode != Cnt ==> Expected(d, s, check, u) == Wrappers.Ok(Search(DefaultSearchResult()))
  {
  }

  /** A count under a non-zero budget is the unbudgeted count: the budget does not cap it. */
  lemma CountNotCapped(d: Driver, s: Searcher, check: Check, u: Tables)
    requires d.mode == Cnt && d.budgeted && s.matcher.config.maxCount.Some? && s.matcher.config.maxCount.value > 0
    ensures Expected(d, s, check, u) == Expected(d.(budgeted := false), s, check, u)
  {
  }

  /** A budget at least as large as the number of hits makes a search the unbudgeted one. */
  lemma LargeBudget(d: Driver, s: Searcher, check: Check, u: Tables)
    requires d.budgeted && s.matcher.config.maxCount.Some?
    requires |Hits(ProbeOf(d, s, check, u), s.reader.lines)| <= s.matcher.config.maxCount.value
    ensures Expected(d, s, check, u) == Expected(d.(budgeted := false), s, check, u)
  {
    SelectedBudget(Flags(ProbeOf(d, s, check, u), s.reader.lines), s.matcher.config.maxCount.value);
  }

  /** A failing reader makes every driver fail with its error. */
  lemma FailurePropagates(d: Driver, s: Searcher, check: Check, u: Tables)
    requires Runnable(d, s) && s.reader.failure.Some?
    ensures Expected(d, s, check, u) == Wrappers.Err(s.reader.failure.value)
  {
  }
}
