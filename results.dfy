/**
 * The result types of a scan, the two accumulators the drivers update line
 * by line, and the line predicates the drivers are parameterised by.
 */
module Results {
  import opened Bytes
  import ByteOps = Bytes
  import opened Ext
  import opened Unicode
  import Wrappers

  /** The line numbers of a search result: absent, or the 1-based numbers of the stored lines. */
  datatype LineNumbers = None | Some(numbers: seq<nat>)

  datatype SearchResult = SearchResult(matches: seq<Bytes>, lineNumbers: LineNumbers)

  /** The payload of a scan: the stored lines, or only how many lines matched. */
  datatype GenInnerResult = Search(result: SearchResult) | Count(count: nat)

  /** An error of the underlying reader, identified by its kind. */
  datatype IoError = IoError(kind: string)

  type GenResult = Wrappers.Result<GenInnerResult, IoError>

  type SearcherResult = Wrappers.Result<SearchResult, IoError>

  /** `SearchResult::default()`: no matches and no line numbers. */
  function DefaultSearchResult(): SearchResult {
    SearchResult([], None)
  }

  /** The numbers a `LineNumbers` carries; `None` carries none. */
  function Numbers(ln: LineNumbers): seq<nat> {
    match ln
    case None => []
    case Some(v) => v
  }

  /**
   * `Upcast` for `SearchInnerResult`: the matches are kept, and an empty list
   * of line numbers becomes `LineNumbers::None`, so `None` stands both for a
   * scan without line numbers and for a numbered scan that stored nothing.
   */
  function UpcastSearch(matches: seq<Bytes>, lineNumbers: seq<nat>): (r: GenResult)
    ensures r.Ok? && r.value.Search?
    ensures r.value.result.matches == matches
    ensures r.value.result.lineNumbers.None? <==> lineNumbers == []
    ensures Numbers(r.value.result.lineNumbers) == lineNumbers
  {
    if lineNumbers == [] then Wrappers.Ok(Search(SearchResult(matches, None)))
    else Wrappers.Ok(Search(SearchResult(matches, Some(lineNumbers))))
  }

  /** `Upcast` for `CountResult`: the count, as a successful result. */
  function UpcastCount(count: nat): (r: GenResult)
    ensures r.Ok? && r.value.Count? && r.value.count == count
  {
    Wrappers.Ok(Count(count))
  }

  // ---------------------------------------------------------------------
  // Line predicates
  // ---------------------------------------------------------------------

  /** Some whitespace-separated field of the line starts with the pattern. */
  predicate CheckStartsWith(line: Bytes, pattern: Bytes) {
    exists k | 0 <= k < |Fields(line)| :: pattern <= Fields(line)[k]
  }

  /** Some whitespace-separated field of the line ends with the pattern. */
  predicate CheckEndsWith(line: Bytes, pattern: Bytes) {
    exists k | 0 <= k < |Fields(line)| :: IsSuffix(pattern, Fields(line)[k])
  }

  /** One and the same field both starts and ends with the pattern. */
  predicate CheckStartsEndsWith(line: Bytes, pattern: Bytes) {
    exists k | 0 <= k < |Fields(line)| :: pattern <= Fields(line)[k] && IsSuffix(pattern, Fields(line)[k])
  }

  /** The pattern's bytes occur contiguously in the raw line, terminator included. */
  predicate CheckContains(line: Bytes, pattern: Bytes) {
    ByteOps.Contains(line, pattern)
  }

  /** Some word of the terminator-trimmed line is exactly the pattern. */
  predicate CheckWords(t: Tables, line: Bytes, pattern: Bytes) {
    pattern in t.words(TrimTerminator(line))
  }

  /** The predicate a driver is given; word segmentation needs the Unicode tables. */
  datatype Check = Contains | StartsWith | EndsWith | StartsEndsWith | Words(tables: Tables)

  predicate Holds(c: Check, line: Bytes, pattern: Bytes) {
    match c
    case Contains => CheckContains(line, pattern)
    case StartsWith => CheckStartsWith(line, pattern)
    case EndsWith => CheckEndsWith(line, pattern)
    case StartsEndsWith => CheckStartsEndsWith(line, pattern)
    case Words(t) => CheckWords(t, line, pattern)
  }

  // ---------------------------------------------------------------------
  // Accumulators
  // ---------------------------------------------------------------------

  /** The counting accumulator. */
  class CountResult {
    var count: nat

    /** `CountResult::default()`. */
    constructor ()
      ensures count == 0
    {
      count := 0;
    }

    /** Adds one exactly when the line satisfies the predicate. */
    method CheckAndAdd(pattern: Bytes, line: Bytes, check: Check)
      modifies this
      ensures Holds(check, line, pattern) ==> count == old(count) + 1
      ensures !Holds(check, line, pattern) ==> count == old(count)
    {
      if Holds(check, line, pattern) {
        count := count + 1;
      }
    }
  }

  /**
   * The searching accumulator: the stored lines and, in the numbered
   * drivers, the parallel list of their line numbers. Every method stores
   * the line with its terminator trimmed; the `Separate` methods test one
   * line (the case-folded copy) and store another (the original), and the
   * `MaxCount` methods also take one off the remaining budget per stored line.
   */
  class SearchInnerResult {
    var matches: seq<Bytes>
    var lineNumbers: seq<nat>

    /** `SearchInnerResult::default()`. */
    constructor ()
      ensures matches == [] && lineNumbers == []
    {
      matches := [];
      lineNumbers := [];
    }

    method CheckAndStore(pattern: Bytes, lineNumber: nat, line: Bytes, check: Check)
      modifies this
      ensures Holds(check, line, pattern) ==>
        matches == old(matches) + [TrimTerminator(line)] && lineNumbers == old(lineNumbers) + [lineNumber]
      ensures !Holds(check, line, pattern) ==> matches == old(matches) && lineNumbers == old(lineNumbers)
      ensures |old(matches)| == |old(lineNumbers)| ==> |matches| == |lineNumbers|
    {
      if Holds(check, line, pattern) {
        matches := matches + [TrimTerminator(line)];
        lineNumbers := lineNumbers + [lineNumber];
      }
    }

    method CheckAndStoreNln(pattern: Bytes, line: Bytes, check: Check)
      modifies this
      ensures Holds(check, line, pattern) ==> matches == old(matches) + [TrimTerminator(line)]
      ensures !Holds(check, line, pattern) ==> matches == old(matches)
      ensures lineNumbers == old(lineNumbers)
    {
      if Holds(check, line, pattern) {
        matches := matches + [TrimTerminator(line)];
      }
    }

    /** The unsigned decrement of the budget must not wrap: a stored line needs budget left. */
    method CheckAndStoreNlnMaxCount(pattern: Bytes, line: Bytes, matchesLeft: nat, check: Check)
      returns (left: nat)
      requires Holds(check, line, pattern) ==> matchesLeft > 0
      modifies this
      ensures Holds(check, line, pattern) ==>
        matches == old(matches) + [TrimTerminator(line)] && left == matchesLeft - 1
      ensures !Holds(check, line, pattern) ==> matches == old(matches) && left == matchesLeft
      ensures lineNumbers == old(lineNumbers)
    {
      left := matchesLeft;
      if Holds(check, line, pattern) {
        left := left - 1;
        matches := matches + [TrimTerminator(line)];
      }
    }

    method CheckAndStoreSeparate(pattern: Bytes, lineNumber: nat, lineCheck: Bytes, lineStore: Bytes, check: Check)
      modifies this
      ensures Holds(check, lineCheck, pattern) ==>
        matches == old(matches) + [TrimTerminator(lineStore)] && lineNumbers == old(lineNumbers) + [lineNumber]
      ensures !Holds(check, lineCheck, pattern) ==> matches == old(matches) && lineNumbers == old(lineNumbers)
      ensures |old(matches)| == |old(lineNumbers)| ==> |matches| == |lineNumbers|
    {
      if Holds(check, lineCheck, pattern) {
        matches := matches + [TrimTerminator(lineStore)];
        lineNumbers := lineNumbers + [lineNumber];
      }
    }

    method CheckAndStoreSeparateNln(pattern: Bytes, lineCheck: Bytes, lineStore: Bytes, check: Check)
      modifies this
      ensures Holds(check, lineCheck, pattern) ==> matches == old(matches) + [TrimTerminator(lineStore)]
      ensures !Holds(check, lineCheck, pattern) ==> matches == old(matches)
      ensures lineNumbers == old(lineNumbers)
    {
      if Holds(check, lineCheck, pattern) {
        matches := matches + [TrimTerminator(lineStore)];
      }
    }

    method CheckAndStoreSeparateNlnMaxCount(pattern: Bytes, lineCheck: Bytes, lineStore: Bytes, matchesLeft: nat, check: Check)
      returns (left: nat)
      requires Holds(check, lineCheck, pattern) ==> matchesLeft > 0
      modifies this
      ensures Holds(check, lineCheck, pattern) ==>
        matches == old(matches) + [TrimTerminator(lineStore)] && left == matchesLeft - 1
      ensures !Holds(check, lineCheck, pattern) ==> matches == old(matches) && left == matchesLeft
      ensures lineNumbers == old(lineNumbers)
    {
      left := matchesLeft;
      if Holds(check, lineCheck, pattern) {
        left := left - 1;
        matches := matches + [TrimTerminator(lineStore)];
      }
    }

    method CheckAndStoreMaxCount(pattern: Bytes, lineNumber: nat, line: Bytes, matchesLeft: nat, check: Check)
      returns (left: nat)
      requires Holds(check, line, pattern) ==> matchesLeft > 0
      modifies this
      ensures Holds(check, line, pattern) ==>
        && matches == old(matches) + [TrimTerminator(line)]
        && lineNumbers == old(lineNumbers) + [lineNumber]
        && left == matchesLeft - 1
      ensures !Holds(check, line, pattern) ==>
        matches == old(matches) && lineNumbers == old(lineNumbers) && left == matchesLeft
      ensures |old(matches)| == |old(lineNumbers)| ==> |matches| == |lineNumbers|
    {
      left := matchesLeft;
      if Holds(check, line, pattern) {
        left := left - 1;
        matches := matches + [TrimTerminator(line)];
        lineNumbers := lineNumbers + [lineNumber];
      }
    }

    method CheckAndStoreSeparateMaxCount(pattern: Bytes, lineNumber: nat, lineCheck: Bytes, lineStore: Bytes, matchesLeft: nat, check: Check)
      returns (left: nat)
      requires Holds(check, lineCheck, pattern) ==> matchesLeft > 0
      modifies this
      ensures Holds(check, lineCheck, pattern) ==>
        && matches == old(matches) + [TrimTerminator(lineStore)]
        && lineNumbers == old(lineNumbers) + [lineNumber]
        && left == matchesLeft - 1
      ensures !Holds(check, lineCheck, pattern) ==>
        matches == old(matches) && lineNumbers == old(lineNumbers) && left == matchesLeft
      ensures |old(matches)| == |old(lineNumbers)| ==> |matches| == |lineNumbers|
    {
      left := matchesLeft;
      if Holds(check, lineCheck, pattern) {
        left := left - 1;
        matches := matches + [TrimTerminator(lineStore)];
        lineNumbers := lineNumbers + [lineNumber];
      }
    }
  }

  // ---------------------------------------------------------------------
  // Properties of the predicates
  // ---------------------------------------------------------------------

  /** Starts-and-ends-with is stronger than starts-with and ends-with together. */
  lemma StartsEndsImpliesBoth(line: Bytes, pattern: Bytes)
    ensures CheckStartsEndsWith(line, pattern) ==> CheckStartsWith(line, pattern) && CheckEndsWith(line, pattern)
  {
    if CheckStartsEndsWith(line, pattern) {
      var k :| 0 <= k < |Fields(line)| && pattern <= Fields(line)[k] && IsSuffix(pattern, Fields(line)[k]);
      assert pattern <= Fields(line)[k];
    }
  }

  /**
   * ... and strictly so: in a line such as `ab ba` one field starts with
   * `a` and another ends with it, but no one field does both.
   */
  lemma StartsEndsNeedsOneField(x: byte, y: byte)
    requires IsTokenByte(x) && IsTokenByte(y) && x != y
    ensures var line := [x, y, 0x20, y, x];
      && CheckStartsWith(line, [x])
      && CheckEndsWith(line, [x])
      && !CheckStartsEndsWith(line, [x])
  {
    var xy, sp, yx := [x, y], [0x20 as byte], [y, x];
    assert [x, y, 0x20, y, x] == xy + (sp + yx);
    FieldsOfTwo(xy, sp, yx);
    var f := Fields([x, y, 0x20, y, x]);
    assert f == [xy, yx];
    assert [x] <= f[0];
    assert IsSuffix([x], f[1]);
    assert !IsSuffix([x], f[0]);
    assert !([x] <= f[1]);
  }

  /**
   * The current starts-with splits on every whitespace character, the old
   * one on single spaces only: after a tab, a field starts that the old
   * predicate does not see.
   */
  lemma TabSeparatesFieldsOnly(a: Bytes, b: Bytes)
    requires a != [] && forall j | 0 <= j < |a| :: IsTokenByte(a[j])
    requires b != [] && forall j | 0 <= j < |b| :: IsTokenByte(b[j])
    requires a[0] != b[0]
    ensures CheckStartsWith(a + [0x09] + b, b)
    ensures !Ext.CheckStartsWith(a + [0x09] + b, b)
  {
    var tab: Bytes := [0x09];
    var s := a + tab + b;
    assert s == a + (tab + b);
    FieldsOfTwo(a, tab, b);
    assert b <= Fields(s)[1];
    OldStartsWithMissesAfterTab(a, b);
  }

  /** The old starts-with sees `a`, a tab and `b` as one piece, which does not start with `b`. */
  lemma OldStartsWithMissesAfterTab(a: Bytes, b: Bytes)
    requires a != [] && forall j | 0 <= j < |a| :: IsTokenByte(a[j])
    requires b != [] && forall j | 0 <= j < |b| :: IsTokenByte(b[j])
    requires a[0] != b[0]
    ensures !Ext.CheckStartsWith(a + [0x09] + b, b)
  {
    var s := a + [0x09] + b;
    assert 0x20 !in s by {
      forall j | 0 <= j < |s| ensures s[j] != 0x20 {
        if j < |a| { assert s[j] == a[j]; }
        else if j > |a| { assert s[j] == b[j - |a| - 1]; }
      }
    }
    assert s[|s| - 1] == b[|b| - 1];
    OldStartsWithSinglePiece(s, b);
    assert s[0] == a[0];
  }

  /** A line without spaces or terminator is one piece for the old starts-with. */
  lemma OldStartsWithSinglePiece(s: Bytes, pattern: Bytes)
    requires 0x20 !in s
    requires s == [] || !IsTerminator(s[|s| - 1])
    ensures Ext.CheckStartsWith(s, pattern) <==> pattern <= s
  {
    TrimTerminatorKeepsUnterminated(s);
    SplitOnSpaceNoSpace(s);
    assert SplitOnSpace(TrimTerminator(s)) == [s];
    if pattern <= s {
      assert pattern <= SplitOnSpace(TrimTerminator(s))[0];
    }
  }

  /**
   * The three token predicates only narrow the substring search: a field
   * that starts or ends with the pattern holds it, and the field lies in
   * the line.
   */
  lemma TokenHitsAreSubstringHits(line: Bytes, pattern: Bytes)
    ensures CheckStartsWith(line, pattern) ==> CheckContains(line, pattern)
    ensures CheckEndsWith(line, pattern) ==> CheckContains(line, pattern)
    ensures CheckStartsEndsWith(line, pattern) ==> CheckContains(line, pattern)
  {
    var fs := Fields(line);
    if CheckStartsWith(line, pattern) {
      var k :| 0 <= k < |fs| && pattern <= fs[k];
      FieldOccurs(line, k);
      var i: nat :| OccursAt(line, fs[k], i);
      assert line[i..i + |pattern|] == fs[k][..|pattern|];
      ContainsWitness(line, pattern, i);
    }
    if CheckEndsWith(line, pattern) {
      var k :| 0 <= k < |fs| && IsSuffix(pattern, fs[k]);
      FieldOccurs(line, k);
      var i: nat :| OccursAt(line, fs[k], i);
      var j := i + |fs[k]| - |pattern|;
      assert line[j..j + |pattern|] == fs[k][|fs[k]| - |pattern|..];
      ContainsWitness(line, pattern, j);
    }
  }

  /** Words compares against the trimmed line, so a terminator never matters. */
  lemma WordsIgnoreTerminator(t: Tables, line: Bytes, pattern: Bytes)
    ensures CheckWords(t, line, pattern) <==> CheckWords(t, TrimTerminator(line), pattern)
  {
    TrimTerminatorIdempotent(line);
  }

  /**
   * A pattern that is empty or ends in `,` `.` `:` or `;` (such as `gain,`)
   * is never a word, so the words predicate rejects it on every line.
   */
  lemma WordsRejectsNonWord(t: Tables, line: Bytes, pattern: Bytes)
    requires WordsWellFormed(t)
    requires pattern == [] || IsMidWordPunctuation(pattern[|pattern| - 1])
    ensures !CheckWords(t, line, pattern)
  {
  }
}
