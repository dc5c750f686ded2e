/**
 * The functional specification of one pass over the input: which lines'
 * predicate holds, which of them a budget lets through, what is stored for
 * them and with which line numbers, and what a count comes to. The drivers
 * are proved against these functions.
 *
 * Selection is stated on the sequence of per-line verdicts (`Flags`), so
 * that what a budget does is independent of the predicate that was evaluated.
 */
module Scan {
  import opened Bytes
  import opened Ext
  import opened Unicode
  import opened Results
  import opened Matchers
  import Wrappers

  /**
   * The input as the line reader yields it: the lines, each with its
   * terminator, and the error, if any, that ended the reading after them.
   */
  datatype Reader = Reader(lines: seq<Bytes>, failure: Wrappers.Option<IoError>)

  /** A scan: the input and the matcher to apply. */
  datatype Searcher = Searcher(reader: Reader, matcher: Matcher)

  /** What a driver tests each line with: the predicate, the (already folded) pattern and whether lines are folded. */
  datatype Probe = Probe(check: Check, tables: Tables, pattern: Bytes, caseless: bool)

  /** The copy of a line the predicate sees: the case-folded copy in a caseless scan, otherwise the line itself. */
  function Tested(pr: Probe, line: Bytes): Bytes {
    if pr.caseless then Fold(pr.tables, line) else line
  }

  predicate Hit(pr: Probe, line: Bytes) {
    Holds(pr.check, Tested(pr, line), pr.pattern)
  }

  /** The verdict of the predicate on every line. */
  function Flags(pr: Probe, lines: seq<Bytes>): (f: seq<bool>)
    ensures |f| == |lines|
    ensures forall i | 0 <= i < |lines| :: f[i] == Hit(pr, lines[i])
  {
    seq(|lines|, i requires 0 <= i < |lines| => Hit(pr, lines[i]))
  }

  /** The verdicts on the first `i + 1` lines extend those on the first `i` by one. */
  lemma FlagsPrefix(pr: Probe, lines: seq<Bytes>, i: nat)
    requires i < |lines|
    ensures Flags(pr, lines)[..i + 1] == Flags(pr, lines)[..i] + [Hit(pr, lines[i])]
  {
  }

  /** The 0-based positions of the `true` verdicts, in order. */
  function Positions(flags: seq<bool>): (r: seq<nat>)
    ensures forall k | 0 <= k < |r| :: r[k] < |flags| && flags[r[k]]
    ensures forall i | 0 <= i < |flags| && flags[i] :: i in r
    ensures forall k, l | 0 <= k < l < |r| :: r[k] < r[l]
    ensures |r| <= |flags|
    decreases |flags|
  {
    if flags == [] then []
    else
      var n := |flags| - 1;
      var front := Positions(flags[..n]);
      assert forall k | 0 <= k < |front| :: flags[front[k]] == flags[..n][front[k]];
      assert forall i | 0 <= i < n :: flags[i] == flags[..n][i];
      front + (if flags[n] then [n] else [])
  }

  /** At most `budget` of the positions, the earliest ones. */
  function Take(positions: seq<nat>, budget: Wrappers.Option<nat>): (r: seq<nat>)
    ensures r <= positions
    ensures budget.None? ==> r == positions
    ensures budget.Some? ==> |r| == if |positions| <= budget.value then |positions| else budget.value
  {
    match budget
    case None => positions
    case Some(n) => if |positions| <= n then positions else positions[..n]
  }

  /** The positions a scan records: the first `budget` hits, or all of them without a budget. */
  function Selected(flags: seq<bool>, budget: Wrappers.Option<nat>): (r: seq<nat>)
    ensures forall k | 0 <= k < |r| :: r[k] < |flags| && flags[r[k]]
    ensures forall k, l | 0 <= k < l < |r| :: r[k] < r[l]
  {
    Take(Positions(flags), budget)
  }

  /** The positions of the lines the predicate holds on. */
  function Hits(pr: Probe, lines: seq<Bytes>): seq<nat> {
    Positions(Flags(pr, lines))
  }

  /** The positions of the lines a scan of `lines` stores. */
  function Recorded(pr: Probe, lines: seq<Bytes>, budget: Wrappers.Option<nat>): (r: seq<nat>)
    ensures forall k | 0 <= k < |r| :: r[k] < |lines|
  {
    Selected(Flags(pr, lines), budget)
  }

  /** The stored text: each recorded line, terminator trimmed, from the original (never the folded) line. */
  function Stored(lines: seq<Bytes>, idx: seq<nat>): (r: seq<Bytes>)
    requires forall k | 0 <= k < |idx| :: idx[k] < |lines|
    ensures |r| == |idx|
  {
    seq(|idx|, k requires 0 <= k < |idx| => TrimTerminator(lines[idx[k]]))
  }

  /** The 1-based line numbers of the recorded positions. */
  function Numbered(idx: seq<nat>): (r: seq<nat>)
    ensures |r| == |idx|
  {
    seq(|idx|, k requires 0 <= k < |idx| => idx[k] + 1)
  }

  /** A budgeted count reads the budget only to see whether it is 0; it never counts down. */
  function Counted(flags: seq<bool>, budget: Wrappers.Option<nat>): nat {
    if budget == Wrappers.Some(0) then 0 else |Positions(flags)|
  }

  /** A count never exceeds the number of lines, and it is 0 exactly under a zero budget or when no line is a hit. */
  lemma CountedBounds(flags: seq<bool>, budget: Wrappers.Option<nat>)
    ensures Counted(flags, budget) <= |flags|
    ensures Counted(flags, budget) == 0 <==> budget == Wrappers.Some(0) || forall i | 0 <= i < |flags| :: !flags[i]
  {
    var p := Positions(flags);
    assert p != [] ==> flags[p[0]];
  }

  // ---------------------------------------------------------------------
  // One more line
  // ---------------------------------------------------------------------

  lemma PositionsStep(flags: seq<bool>, b: bool)
    ensures Positions(flags + [b]) == Positions(flags) + (if b then [|flags|] else [])
  {
    assert (flags + [b])[..|flags|] == flags;
  }

  /**
   * Reading one more line: once the budget is used up nothing more is
   * recorded, and before that the line is recorded exactly when its
   * predicate holds.
   */
  lemma SelectedStep(flags: seq<bool>, b: bool, budget: Wrappers.Option<nat>)
    ensures budget.Some? ==> |Selected(flags, budget)| <= budget.value
    ensures Selected(flags + [b], budget) ==
      if budget.Some? && |Selected(flags, budget)| == budget.value then Selected(flags, budget)
      else Selected(flags, budget) + (if b then [|flags|] else [])
  {
    PositionsStep(flags, b);
    var h := Positions(flags);
    var h' := Positions(flags + [b]);
    assert h' == h + (if b then [|flags|] else []);
    match budget
    case None =>
    case Some(n) =>
      if n <= |h| {
        assert h'[..n] == h[..n];
        assert Selected(flags, budget) == h[..n];
        assert Selected(flags + [b], budget) == h'[..n];
      } else {
        assert |h'| <= n;
        assert Selected(flags, budget) == h;
        assert Selected(flags + [b], budget) == h';
      }
  }

  /** Storing a prefix of the positions stores a prefix of the text. */
  lemma StoredPrefix(lines: seq<Bytes>, idx: seq<nat>, more: seq<nat>)
    requires idx <= more && forall k | 0 <= k < |more| :: more[k] < |lines|
    ensures Stored(lines, idx) <= Stored(lines, more)
  {
  }

  /** A count takes one more line into account exactly when it is a hit, unless the budget is 0. */
  lemma CountedStep(flags: seq<bool>, b: bool, budget: Wrappers.Option<nat>)
    ensures Counted(flags + [b], budget) == Counted(flags, budget) + (if b && budget != Wrappers.Some(0) then 1 else 0)
  {
    PositionsStep(flags, b);
  }

  lemma StoredSnoc(lines: seq<Bytes>, idx: seq<nat>, i: nat)
    requires i < |lines| && forall k | 0 <= k < |idx| :: idx[k] < |lines|
    ensures Stored(lines, idx + [i]) == Stored(lines, idx) + [TrimTerminator(lines[i])]
  {
  }

  lemma NumberedSnoc(idx: seq<nat>, i: nat)
    ensures Numbered(idx + [i]) == Numbered(idx) + [i + 1]
  {
  }

  /**
   * One more line seen by a searching loop whose remaining budget is
   * `left`: with budget left the line's text and 1-based number are
   * appended exactly when it is a hit, and with none left nothing is.
   */
  lemma RecordStep(lines: seq<Bytes>, flags: seq<bool>, hit: bool, budget: Wrappers.Option<nat>, left: nat)
    requires |flags| < |lines|
    requires budget.Some? ==> left + |Selected(flags, budget)| == budget.value
    ensures var sel, sel' := Selected(flags, budget), Selected(flags + [hit], budget);
      if budget.Some? && left == 0 then sel' == sel
      else
        && Stored(lines, sel') == Stored(lines, sel) + (if hit then [TrimTerminator(lines[|flags|])] else [])
        && Numbered(sel') == Numbered(sel) + (if hit then [|flags| + 1] else [])
        && (budget.Some? ==> (if hit then left - 1 else left) + |sel'| == budget.value)
  {
    var sel, sel' := Selected(flags, budget), Selected(flags + [hit], budget);
    SelectedStep(flags, hit, budget);
    if !(budget.Some? && left == 0) {
      assert sel' == sel + (if hit then [|flags|] else []);
      if hit {
        StoredSnoc(lines, sel, |flags|);
        NumberedSnoc(sel, |flags|);
      } else {
        assert sel' == sel;
      }
    }
  }

  /** More input only appends hits. */
  lemma {:induction false} PositionsAppend(flags: seq<bool>, more: seq<bool>)
    ensures Positions(flags) <= Positions(flags + more)
    decreases |more|
  {
    if more == [] {
      assert flags + more == flags;
    } else {
      var fewer := more[..|more| - 1];
      assert flags + more == (flags + fewer) + [more[|more| - 1]];
      PositionsAppend(flags, fewer);
      PositionsStep(flags + fewer, more[|more| - 1]);
    }
  }

  // ---------------------------------------------------------------------
  // What a scan records
  // ---------------------------------------------------------------------

  /**
   * Position `j` is selected exactly when its verdict is `true` and, under
   * a budget, fewer than `budget` earlier verdicts were: the selected
   * positions are the first `budget` hits in input order.
   */
  lemma {:induction false} SelectedIff(flags: seq<bool>, budget: Wrappers.Option<nat>, j: nat)
    requires j < |flags|
    ensures j in Selected(flags, budget) <==>
      flags[j] && (budget.None? || |Positions(flags[..j])| < budget.value)
    decreases |flags|
  {
    var n := |flags| - 1;
    var front := flags[..n];
    assert flags == front + [flags[n]];
    SelectedStep(front, flags[n], budget);
    var sel := Selected(front, budget);
    if j < n {
      SelectedIff(front, budget, j);
      assert front[..j] == flags[..j];
    } else {
      assert n !in sel;
    }
  }

  /**
   * A budget bounds what is selected, a budget no smaller than the number
   * of hits changes nothing, and a zero budget selects nothing.
   */
  lemma SelectedBudget(flags: seq<bool>, n: nat)
    ensures |Selected(flags, Wrappers.Some(n))| <= n
    ensures Selected(flags, Wrappers.Some(n)) <= Selected(flags, Wrappers.None)
    ensures |Positions(flags)| <= n ==> Selected(flags, Wrappers.Some(n)) == Selected(flags, Wrappers.None)
    ensures n == 0 ==> Selected(flags, Wrappers.Some(n)) == []
    ensures n <= |Positions(flags)| ==> |Selected(flags, Wrappers.Some(n))| == n
  {
  }

  /**
   * Reading goes on after the budget is spent, and what comes after that
   * point changes nothing that is selected.
   */
  lemma SpentBudgetIgnoresRest(flags: seq<bool>, more: seq<bool>, n: nat)
    requires |Selected(flags, Wrappers.Some(n))| == n
    ensures Selected(flags + more, Wrappers.Some(n)) == Selected(flags, Wrappers.Some(n))
  {
    PositionsAppend(flags, more);
    var h := Positions(flags);
    var h' := Positions(flags + more);
    assert h'[..n] == h[..n];
  }

  /** Without any hit nothing is selected or counted, whatever the budget. */
  lemma {:induction false} NoHitNothingSelected(flags: seq<bool>, budget: Wrappers.Option<nat>)
    requires forall i | 0 <= i < |flags| :: !flags[i]
    ensures Positions(flags) == []
    ensures Selected(flags, budget) == []
    ensures Counted(flags, budget) == 0
    decreases |flags|
  {
    if flags != [] {
      var n := |flags| - 1;
      assert flags == flags[..n] + [flags[n]];
      NoHitNothingSelected(flags[..n], budget);
      PositionsStep(flags[..n], flags[n]);
    }
  }

  /**
   * The stored line numbers are the 1-based positions of lines the
   * predicate holds on; they rise strictly and stay within the input.
   */
  lemma NumbersArePositions(pr: Probe, lines: seq<Bytes>, budget: Wrappers.Option<nat>)
    ensures forall k | 0 <= k < |Numbered(Recorded(pr, lines, budget))| ::
      var m := Numbered(Recorded(pr, lines, budget))[k];
      1 <= m <= |lines| && Hit(pr, lines[m - 1])
    ensures forall k, l | 0 <= k < l < |Numbered(Recorded(pr, lines, budget))| ::
      Numbered(Recorded(pr, lines, budget))[k] < Numbered(Recorded(pr, lines, budget))[l]
  {
    var r := Recorded(pr, lines, budget);
    var f := Flags(pr, lines);
    assert forall k | 0 <= k < |r| :: f[r[k]];
  }

  /**
   * Every stored line is the original line with its trailing `\n`/`\r`
   * bytes removed and nothing else: not the folded copy, and any NUL stays.
   */
  lemma StoredAreTrimmedOriginals(pr: Probe, lines: seq<Bytes>, budget: Wrappers.Option<nat>)
    ensures forall k | 0 <= k < |Stored(lines, Recorded(pr, lines, budget))| ::
      var r := Recorded(pr, lines, budget);
      && Stored(lines, r)[k] <= lines[r[k]]
      && forall i | |Stored(lines, r)[k]| <= i < |lines[r[k]]| :: IsTerminator(lines[r[k]][i])
  {
  }

  /** A count with a non-zero budget is not capped by it: it is the number of all hits. */
  lemma CountIgnoresBudget(flags: seq<bool>, n: nat)
    requires n > 0
    ensures Counted(flags, Wrappers.Some(n)) == Counted(flags, Wrappers.None)
    ensures Counted(flags, Wrappers.None) == |Selected(flags, Wrappers.None)|
  {
  }

  /** The ASCII shortcut changes nothing: a caseless scan tests the Unicode lowercasing of every line. */
  lemma CaselessTestsLowercase(pr: Probe, line: Bytes)
    requires pr.caseless && AsciiLowering(pr.tables)
    ensures Hit(pr, line) <==> Holds(pr.check, pr.tables.lower(line), pr.pattern)
  {
    FoldIsLowercase(pr.tables, line);
  }

  /**
   * The pattern and the lines are lowercased differently, so a caseless
   * scan can miss a line that equals the pattern: `ΑΣ` (CE 91 CE A3) as a
   * pattern becomes `ας` with a final sigma, while the same bytes as a line
   * become `ασ`, which lacks the byte CF 82's 82.
   */
  lemma FinalSigmaMissed(pr: Probe, line: Bytes)
    requires pr.caseless && pr.check == Check.Contains
    requires line == [0xCE, 0x91, 0xCE, 0xA3]
    requires pr.tables.lowerPattern(line) == [0xCE, 0xB1, 0xCF, 0x82]
    requires pr.tables.lower(line) == [0xCE, 0xB1, 0xCF, 0x83]
    requires pr.pattern == pr.tables.lowerPattern(line)
    ensures !Hit(pr, line)
  {
    assert !IsAscii(line) by { assert line[0] >= 0x80; }
    NotContainsMissingByte(pr.tables.lower(line), pr.pattern, 3);
  }
}
