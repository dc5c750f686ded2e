/**
 * The oldest engine's shared pieces: its accumulator, which tests with the
 * space-splitting starts-with predicate only, the empty scan state its
 * drivers start from, and the wrapping of a scan into a `SearcherResult`.
 * The older `Matcher` its drivers run on, with the reader inside, is
 * `OldMatcher` here.
 */
module OldSearcher {
  import opened Bytes
  import ByteOps = Bytes
  import opened Ext
  import opened Unicode
  import opened Results
  import opened Scan
  import opened GenCheck
  import Matchers
  import Wrappers

  /** A matcher of the oldest engine: the reader, the pattern (already folded when caseless) and the configuration. */
  datatype OldMatcher = OldMatcher(reader: Reader, pattern: Bytes, config: Matchers.Config)

  /** The matcher types of the oldest engine. */
  datatype OldMatcherType = Base | MaxCount | StartsWith

  /** The scan state a driver starts from. */
  datatype Init = Init(matches: seq<Bytes>, lineNumbersInner: seq<nat>, lineNumber: nat)

  /** `Init::default()`: nothing stored yet, and line 0. */
  function DefaultInit(): (i: Init)
    ensures i.matches == [] && i.lineNumbersInner == [] && i.lineNumber == 0
  {
    Init([], [], 0)
  }

  /** `ret_searcher_result`: the matches and line numbers, unchanged, as a successful result. */
  function RetSearcherResult(matches: seq<Bytes>, lineNumbers: LineNumbers): (r: SearcherResult)
    ensures r.Ok? && r.value.matches == matches && r.value.lineNumbers == lineNumbers
  {
    Wrappers.Ok(SearchResult(matches, lineNumbers))
  }

  /**
   * What an old driver returns: the reader's error, or the hits (the first
   * `max_count` under a budget) trimmed, with `LineNumbers::Some` of their
   * numbers in a numbered driver even when there are none.
   */
  function OldExpected(d: Driver, m: OldMatcher, u: Tables): SearcherResult
    requires d.budgeted ==> m.config.maxCount.Some?
  {
    if m.reader.failure.Some? then Wrappers.Err(m.reader.failure.value)
    else
      var budget := if d.budgeted then m.config.maxCount else Wrappers.None;
      var idx := Recorded(Probe(Check.Contains, u, m.pattern, d.caseless), m.reader.lines, budget);
      RetSearcherResult(Stored(m.reader.lines, idx), if d.mode == LineNumber then Some(Numbered(idx)) else None)
  }

  /**
   * The body of the old drivers' loop once the line number is counted:
   * the line (its folded copy when caseless) is searched for the pattern,
   * and a hit is pushed with its number and takes one off the budget.
   */
  method OldStoreLine(pr: Probe, numbered: bool, budgeted: bool, lineNumber: nat, line: Bytes,
                      matches: seq<Bytes>, lineNumbers: seq<nat>, matchesLeft: nat, ghost hit: bool)
    returns (matches': seq<Bytes>, lineNumbers': seq<nat>, left: nat)
    requires pr.check == Check.Contains && hit == Hit(pr, line)
    requires budgeted ==> matchesLeft > 0
    ensures matches' == matches + (if hit then [TrimTerminator(line)] else [])
    ensures lineNumbers' == lineNumbers + (if numbered && hit then [lineNumber] else [])
    ensures left == if budgeted && hit then matchesLeft - 1 else matchesLeft
  {
    matches', lineNumbers', left := matches, lineNumbers, matchesLeft;
    var lineCheck := line;
    if pr.caseless {
      lineCheck := if IsAscii(line) then AsciiLower(line) else pr.tables.lower(line);
    }
    assert lineCheck == Tested(pr, line);
    if ByteOps.Contains(lineCheck, pr.pattern) {
      if budgeted {
        left := matchesLeft - 1;
      }
      matches' := matches + [TrimTerminator(line)];
      if numbered {
        lineNumbers' := lineNumbers + [lineNumber];
      }
    }
  }

  /** One turn of the old drivers' loop: once the budget is 0 the line is skipped. */
  method OldStep(pr: Probe, numbered: bool, budget: Wrappers.Option<nat>, lines: seq<Bytes>, i: nat,
                 matches: seq<Bytes>, lineNumbers: seq<nat>, lineNumber: nat, matchesLeft: nat,
                 ghost flags: seq<bool>, ghost next: seq<bool>)
    returns (matches': seq<Bytes>, lineNumbers': seq<nat>, lineNumber': nat, left: nat)
    requires pr.check == Check.Contains
    requires i == |flags| < |lines| && next == flags + [Hit(pr, lines[i])]
    requires SearchInv(lines, flags, budget, numbered, matches, lineNumbers, matchesLeft, lineNumber)
    ensures SearchInv(lines, next, budget, numbered, matches', lineNumbers', left, lineNumber')
  {
    ghost var hit := Hit(pr, lines[i]);
    matches', lineNumbers', lineNumber', left := matches, lineNumbers, lineNumber, matchesLeft;
    if !(budget.Some? && matchesLeft == 0) {
      SearchInvStore(lines, flags, hit, budget, numbered, matches, lineNumbers, matchesLeft, lineNumber);
      lineNumber' := lineNumber + 1;
      matches', lineNumbers', left := OldStoreLine(pr, numbered, budget.Some?, lineNumber', lines[i], matches, lineNumbers, matchesLeft, hit);
    } else {
      SearchInvSkip(lines, flags, hit, budget, numbered, matches, lineNumbers, matchesLeft, lineNumber);
    }
  }

  /** The loop of the old drivers, started from `Init::default()`: every line read in order. */
  method OldSearchLines(lines: seq<Bytes>, pr: Probe, numbered: bool, budget: Wrappers.Option<nat>)
    returns (matches: seq<Bytes>, lineNumbers: seq<nat>)
    requires pr.check == Check.Contains
    ensures matches == Stored(lines, Recorded(pr, lines, budget))
    ensures lineNumbers == if numbered then Numbered(Recorded(pr, lines, budget)) else []
  {
    var Init(ms, lns, lineNumber) := DefaultInit();
    var matchesLeft: nat := if budget.Some? then budget.value else 0;
    ghost var verdicts := Flags(pr, lines);
    var i := 0;
    while i < |lines|
      invariant 0 <= i <= |lines|
      invariant SearchInv(lines, verdicts[..i], budget, numbered, ms, lns, matchesLeft, lineNumber)
    {
      FlagsPrefix(pr, lines, i);
      ms, lns, lineNumber, matchesLeft := OldStep(pr, numbered, budget, lines, i, ms, lns, lineNumber, matchesLeft, verdicts[..i], verdicts[..i + 1]);
      i := i + 1;
    }
    assert verdicts[..i] == verdicts;
    matches, lineNumbers := ms, lns;
  }

  /** A numbered old driver wraps its numbers in `LineNumbers::Some` even when there are none. */
  method OldRun(d: Driver, m: OldMatcher, u: Tables) returns (r: SearcherResult)
    requires d.mode != Cnt && (d.budgeted ==> m.config.maxCount.Some?)
    ensures r == OldExpected(d, m, u)
  {
    var pr := Probe(Check.Contains, u, m.pattern, d.caseless);
    var budget := if d.budgeted then Wrappers.Some(m.config.maxCount.value) else Wrappers.None;
    var matches, lineNumbers := OldSearchLines(m.reader.lines, pr, d.mode == LineNumber, budget);
    if m.reader.failure.Some? {
      r := Wrappers.Err(m.reader.failure.value);
    } else if d.mode == LineNumber {
      r := RetSearcherResult(matches, Some(lineNumbers));
    } else {
      r := RetSearcherResult(matches, None);
    }
  }

  /**
   * The oldest accumulator. Its methods test with the space-splitting
   * starts-with predicate and store the line with its number; the
   * `MaxCount` methods also take one off the remaining budget.
   */
  class SearchInnerResult {
    var matches: seq<Bytes>
    var lineNumbers: seq<nat>

    constructor ()
      ensures matches == [] && lineNumbers == []
    {
      matches := [];
      lineNumbers := [];
    }

    method CheckAndStore(pattern: Bytes, lineNumber: nat, line: Bytes)
      modifies this
      ensures Ext.CheckStartsWith(line, pattern) ==>
        matches == old(matches) + [TrimTerminator(line)] && lineNumbers == old(lineNumbers) + [lineNumber]
      ensures !Ext.CheckStartsWith(line, pattern) ==> matches == old(matches) && lineNumbers == old(lineNumbers)
      ensures |old(matches)| == |old(lineNumbers)| ==> |matches| == |lineNumbers|
    {
      if Ext.CheckStartsWith(line, pattern) {
        matches := matches + [TrimTerminator(line)];
        lineNumbers := lineNumbers + [lineNumber];
      }
    }

    method CheckAndStoreSeparate(pattern: Bytes, lineNumber: nat, lineCheck: Bytes, lineStore: Bytes)
      modifies this
      ensures Ext.CheckStartsWith(lineCheck, pattern) ==>
        matches == old(matches) + [TrimTerminator(lineStore)] && lineNumbers == old(lineNumbers) + [lineNumber]
      ensures !Ext.CheckStartsWith(lineCheck, pattern) ==> matches == old(matches) && lineNumbers == old(lineNumbers)
      ensures |old(matches)| == |old(lineNumbers)| ==> |matches| == |lineNumbers|
    {
      if Ext.CheckStartsWith(lineCheck, pattern) {
        matches := matches + [TrimTerminator(lineStore)];
        lineNumbers := lineNumbers + [lineNumber];
      }
    }

    method CheckAndStoreMaxCount(pattern: Bytes, lineNumber: nat, line: Bytes, matchesLeft: nat) returns (left: nat)
      requires Ext.CheckStartsWith(line, pattern) ==> matchesLeft > 0
      modifies this
      ensures Ext.CheckStartsWith(line, pattern) ==>
        && matches == old(matches) + [TrimTerminator(line)]
        && lineNumbers == old(lineNumbers) + [lineNumber]
        && left == matchesLeft - 1
      ensures !Ext.CheckStartsWith(line, pattern) ==>
        matches == old(matches) && lineNumbers == old(lineNumbers) && left == matchesLeft
    {
      left := matchesLeft;
      if Ext.CheckStartsWith(line, pattern) {
        left := left - 1;
        matches := matches + [TrimTerminator(line)];
        lineNumbers := lineNumbers + [lineNumber];
      }
    }

    method CheckAndStoreSeparateMaxCount(pattern: Bytes, lineNumber: nat, lineCheck: Bytes, lineStore: Bytes, matchesLeft: nat)
      returns (left: nat)
      requires Ext.CheckStartsWith(lineCheck, pattern) ==> matchesLeft > 0
      modifies this
      ensures Ext.CheckStartsWith(lineCheck, pattern) ==>
        && matches == old(matches) + [TrimTerminator(lineStore)]
        && lineNumbers == old(lineNumbers) + [lineNumber]
        && left == matchesLeft - 1
      ensures !Ext.CheckStartsWith(lineCheck, pattern) ==>
        matches == old(matches) && lineNumbers == old(lineNumbers) && left == matchesLeft
    {
      left := matchesLeft;
      if Ext.CheckStartsWith(lineCheck, pattern) {
        left := left - 1;
        matches := matches + [TrimTerminator(lineStore)];
        lineNumbers := lineNumbers + [lineNumber];
      }
    }
  }
}
