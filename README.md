# A verified model of the `sp` match engine

`sp` is a small grep-like tool. Its core is a single-pass, line-oriented
match engine. The input is a sequence of raw lines, each keeping its `\n`
(or `\r\n`) terminator except possibly the last. For every line the engine:

1. optionally folds case: an ASCII line is lowercased byte by byte (`A`..`Z`
   only), any other line goes through full Unicode lowercasing, one
   character at a time (the pattern was lowercased once, as a string, when
   the matcher was built);
2. evaluates one predicate on the folded or raw line: byte containment,
   "some whitespace field starts with / ends with / starts and ends with the
   pattern", "some UAX #29 word equals the pattern", or the old
   "some space-separated piece starts with the pattern";
3. stores the original line with its trailing `\n`/`\r` bytes trimmed,
   together with its 1-based line number, or bumps a count;
4. under a `max_count` budget stops storing once the budget is spent but
   keeps reading every line.

The repository holds three generations of this engine, and the model has
all three:

- the current one: `Searcher::search_matches` (src/search/searcher.rs)
  dispatches on the `MatcherType` chosen by `MatcherBuilder::build` to the
  contains-drivers of `search/base.rs` and `search/max_count.rs` and to the
  predicate-generic drivers, through `search/words.rs` and through the
  starts-with, ends-with and starts-and-ends-with searchers. The files the
  current searcher imports for those three are not part of this model; the
  top-level src/starts_with.rs, src/ends_with.rs and src/starts_ends_with.rs,
  which dispatch the same way to the drivers of `gen_check.rs`, stand for
  them;
- the intermediate `WordsSearch` of `words.rs`, which has no count axis;
- the oldest one: `searcher.rs`, `base.rs` and `max_count.rs`, which
  answer `SearcherResult` rather than `GenResult`. (`search_inner.rs`
  returns no result; it repeats the current `SearchInnerResult`
  accumulator.)

## How the model is organised

- `Bytes` (the bstr primitives the code calls): bytes, ASCII lowercasing and byte-substring
  search (`bstr`'s `contains_str`).
- `Ext` (src/ext.rs): `TrimTerminator` and the old space-split starts-with.
- `Unicode`: bstr's `fields()` over the Unicode White_Space set, given
  concretely as UTF-8 byte sequences. It also holds the uninterpreted
  `Tables`: two Unicode lowercasings and UAX #29 word segmentation.
  - `lower` is the line lowercasing (`to_lowercase_into`, character by
    character). `lowerPattern` is the pattern lowercasing
    (`String::to_lowercase`), which also maps a word-final capital sigma to
    `ς`. So a caseless search for `ΑΣ` misses the line `ΑΣ`
    (`Scan.FinalSigmaMissed`).
  - `AsciiLowering` states that both agree with ASCII lowercasing on ASCII
    input.
  - `WordsWellFormed` states that no word is empty or ends in `,` `.` `:`
    or `;`. A word can end in `'`: rule WB7a of UAX #29 keeps a Hebrew
    letter and a following apostrophe together.
  - Each lemma that needs one of these facts names it in its `requires`.
- `Results` (src/results.rs, whose `SearchInnerResult` and `check_contains` src/search_inner.rs repeats):
  - the result types and both `upcast`s;
  - the `check_*` predicates;
  - the `CountResult` and `SearchInnerResult` accumulators as classes
    whose methods change `count`, `matches` and `lineNumbers` in place.
- `Matchers` (src/matcher.rs): `Config`, its default, the `MatcherBuilder`
  class with its setters, and `Build`.
- `Scan`: the functional specification of one scan.
  - It computes the verdicts of every line, the hit positions, and the
    first `max_count` of them.
  - It also computes the stored trimmed lines, their 1-based numbers and
    the count.
  - The lemmas about every driver are stated on these functions.
- `GenCheck` (src/gen_check.rs): the twelve drivers as one driver
  parameterised by `Driver(mode, caseless, budgeted)` and the predicate.
  - `SearchLines` and `CountLines` are `while` loops over the lines.
  - The loops update the accumulator and `matches_left` as the Rust loops
    do, and are proved against `Scan`. The numbered drivers count
    `line_number` the same way. The unnumbered drivers keep no counter in
    Rust; the shared loop keeps one for them that nothing reads.
  - `Dispatch` is the twelve-arm table shared by the token dispatchers.
- `SearchBase`, `SearchMaxCount`, `StartsWithSearch`, `EndsWithSearch`,
  `StartsEndsWithSearch`, `SearchWords`, `WordsSearch` and
  `SearchSearcher` are the dispatch tables of the current and intermediate
  engines.
- `OldSearcher`, `OldBase`, `OldMaxCount` and `OldSearch` are the oldest
  engine.
  - It has its own loop (`OldSearchLines`) whose line-number list is
    always reported as `LineNumbers::Some` in the numbered drivers, even
    when it is empty; the unnumbered drivers report `LineNumbers::None`.
  - It also has its own starts-with accumulator class.
- `Scenarios`: the unit tests of `search/base.rs` and
  `search/max_count.rs`, each stated as a lemma about the model's result
  on the test's own bytes.
- `FiveLines`: what a scan of any five lines stores or counts, given only
  which lines are hits, and the field facts the token tests need.
- `StartsWithTests`, `EndsWithTests` and `StartsEndsWithTests`: the unit
  tests of `starts_with.rs`, `ends_with.rs` and `starts_ends_with.rs`,
  stated the same way.

Where two parts of the code disagree, the model resolves it as follows:

- `matcher.rs` as given has no `count` field and no `count` setter.
- Every current dispatcher reads `config.count`, and the tests call
  `.count(true)`.
- The model's `Config` therefore has `count` (default `false`) and a
  `SetCount` setter.
- The old `search_matches` (src/searcher.rs:123-141) needs a `SearcherResult`
  from its starts-with arm, but `StartsWithSearch::get_matches` answers a
  `GenResult`. The model's `OldSearch.SearchMatches` therefore answers
  `GenResult` and lifts the old drivers' results into it.
- The tests compare against `SearchResult::default()`, but neither
  `SearchResult` nor `LineNumbers` (src/results.rs:4-13) derives or
  implements `Default`. The model's `Results.DefaultSearchResult` takes it
  as no matches and `line_numbers` of `LineNumbers::None`, the only value
  under which the unnumbered and empty tests hold.

## Model

| member | source | states |
|---|---|---|
| Bytes.AsciiLowerProperties | src/gen_check.rs:96-97 | ASCII lowercasing keeps the length, adds 0x20 to exactly the bytes `A`..`Z`, leaves no capital, keeps ASCII text ASCII and is idempotent |
| Bytes.ContainsIffOccurs | src/results.rs:226-228 | the substring test holds iff the pattern occurs contiguously at some offset of the raw line |
| Bytes.OccursShift | src/results.rs:226-228 | an occurrence in the tail of a line at offset i is an occurrence in the line at offset i + 1 |
| Bytes.ContainsWitness | src/results.rs:226-228 | one occurrence of the pattern makes the substring test hold |
| Bytes.NotContainsMissingByte | src/results.rs:226-228 | a line that lacks some byte of the pattern does not contain it, whatever that byte's place (so a NUL inside a word breaks the match) |
| Ext.TrimTerminator | src/ext.rs:11-13 | the result is a prefix of the line, does not end in `\n` or `\r`, and every removed byte is `\n` or `\r` |
| Ext.TrimTerminatorUnique | src/ext.rs:11-13 | the three properties above determine the trimmed line: it is the longest prefix that does not end in a terminator byte |
| Ext.TrimTerminatorIdempotent | src/ext.rs:11-13 | trimming twice is trimming once |
| Ext.TrimTerminatorKeepsUnterminated | src/ext.rs:12 | a line not ending in `\n`/`\r` is returned unchanged |
| Ext.TrimTerminatorExamples | src/ext.rs:12 | `"a\r\n\r\n"` trims to `"a"`, and `"made a r\0un\r\n"` keeps its NUL and loses only the CRLF |
| Ext.SplitOnSpace | src/ext.rs:17-19 | splitting on `" "` gives at least one piece |
| Ext.SplitOnSpaceJoin | src/ext.rs:17-19 | the pieces joined by single spaces give back the line, and no piece holds a space |
| Ext.SplitOnSpaceNoSpace | src/ext.rs:17-19 | a line without a space is a single piece |
| Unicode.WsLen | src/results.rs:212-214 | the White_Space code point starting a line is at most 3 bytes, 1 for ASCII whitespace, and absent for any other ASCII byte |
| Unicode.TokenLen | src/results.rs:212-214 | the token at the front of a line is non-empty unless the line starts with whitespace, and holds no White_Space start |
| Unicode.FieldsWellFormed | src/results.rs:212-214 | every field is non-empty and holds no ASCII whitespace byte (space, `\t`, `\n`, `\r`, …) |
| Unicode.TokenLenOfToken | src/results.rs:212-214 | a run of token bytes followed by whitespace or the end is one token |
| Unicode.FieldsPrepend | src/results.rs:212-214 | a token followed by whitespace is the first field |
| Unicode.FieldsSkip | src/results.rs:212-214 | leading whitespace is not part of any field |
| Unicode.FieldsOfTwo | src/results.rs:212-214 | two tokens separated by whitespace are exactly two fields |
| Unicode.FieldBytesOccur | src/results.rs:212-214 | every byte of every field is a byte of the line |
| Unicode.FoldIsLowercase | src/gen_check.rs:96-104 | when line lowercasing agrees with ASCII lowercasing on ASCII text, as Unicode's does, the ASCII shortcut changes nothing: folding is the line lowercasing on every line |
| Unicode.Fold | src/gen_check.rs:96-104 | the copy a caseless driver tests: an ASCII line lowercased byte by byte, any other line through the line lowercasing; partners `FoldIsLowercase`, `Scan.CaselessTestsLowercase` and `FiveLines.CaselessProbe` |
| Unicode.FieldOccurs | src/results.rs:212-214 | every field is a contiguous window of the line |
| Unicode.OccursInTail | src/results.rs:212-214 | an occurrence in a tail of the line is an occurrence in the line, shifted by the tail's offset |
| Unicode.Fields | src/results.rs:212-214 | bstr's `fields()`: the maximal runs of non-White_Space characters, in order. `FieldsWellFormed`, `FieldsOfTwo` and `FieldOccurs` state what they are |
| Results.DefaultSearchResult | src/search/base.rs:188 | the `SearchResult::default()` the tests expect: no matches and `LineNumbers::None`; `GenCheck.ZeroBudget` and `Scenarios.NoneOfThree` state when a scan returns it |
| Results.UpcastSearch | src/results.rs:58-75 | matches unchanged; `LineNumbers::None` iff the number list is empty, otherwise `Some` of the same list |
| Results.UpcastCount | src/results.rs:77-82 | the count is wrapped unchanged in `Ok(Count(_))` |
| Results.CountResult.constructor | src/results.rs:44-50 | a fresh count is 0 |
| Results.CountResult.CheckAndAdd | src/results.rs:85-92 | `count` rises by exactly 1 when the predicate holds on the line and is unchanged otherwise |
| Results.SearchInnerResult.constructor | src/results.rs:30-37 | a fresh accumulator has no matches and no line numbers |
| Results.SearchInnerResult.CheckAndStore | src/results.rs:96-104 | on a hit the trimmed line and its number are pushed together; otherwise nothing changes; equal lengths are kept |
| Results.SearchInnerResult.CheckAndStoreNln | src/results.rs:106-113 | on a hit the trimmed line is pushed; the number list never changes |
| Results.SearchInnerResult.CheckAndStoreNlnMaxCount | src/results.rs:115-128 | on a hit the trimmed line is pushed and `matches_left` drops by exactly 1; otherwise neither changes; needs budget left when the line is a hit |
| Results.SearchInnerResult.CheckAndStoreSeparate | src/results.rs:130-144 | the predicate is evaluated on `line_check`, but `line_store` trimmed is what is pushed, with its number |
| Results.SearchInnerResult.CheckAndStoreSeparateNln | src/results.rs:146-158 | tests `line_check`, pushes `line_store` trimmed, and never touches the numbers |
| Results.SearchInnerResult.CheckAndStoreSeparateNlnMaxCount | src/results.rs:160-174 | tests `line_check`, pushes `line_store` trimmed and spends one unit of budget exactly when it pushes; needs budget left when the line is a hit |
| Results.SearchInnerResult.CheckAndStoreMaxCount | src/results.rs:176-191 | pushes the trimmed line and its number and spends one unit exactly on a hit; equal lengths are kept; needs budget left when the line is a hit |
| Results.SearchInnerResult.CheckAndStoreSeparateMaxCount | src/results.rs:193-209 | tests `line_check`, pushes `line_store` trimmed with its number and spends one unit exactly on a hit; needs budget left when the line is a hit |
| Results.StartsEndsImpliesBoth | src/results.rs:212-224 | starts-and-ends-with implies both starts-with and ends-with |
| Results.StartsEndsNeedsOneField | src/results.rs:220-224 | the converse fails: on `xy yx` the pattern `x` starts one field and ends the other, so starts-with and ends-with hold but starts-and-ends-with does not |
| Results.TabSeparatesFieldsOnly | src/results.rs:212-214 | a tab separates whitespace fields but not the old space-split pieces: the current starts-with finds the second token and the old one does not |
| Results.OldStartsWithSinglePiece | src/ext.rs:16-20 | on a trimmed line without a space, the old starts-with holds iff the pattern is a prefix of the line |
| Results.WordsIgnoreTerminator | src/results.rs:230-232 | the words predicate gives the same verdict on a line and on its trimmed copy |
| Results.WordsRejectsNonWord | src/results.rs:230-232 | with segmentation that never yields an empty word or one ending in `,` `.` `:` `;` (true of UAX #29), an empty pattern or one ending in such a byte, such as `gain,`, matches no line |
| Results.TokenHitsAreSubstringHits | src/results.rs:212-228 | a line that satisfies the starts-with, ends-with or starts-and-ends-with predicate also contains the pattern: the token predicates only narrow the substring search |
| Results.OldStartsWithMissesAfterTab | src/ext.rs:16-20 | the old starts-with sees `a`, a tab and `b` as one piece, so it does not find `b` when `a` starts differently |
| Results.Holds | src/results.rs:212-232 | the predicate closure a dispatcher hands to a driver: each `Check` value evaluates its `check_*` function; partners `SearchSearcher.CheckFor` and `TokenHitsAreSubstringHits` |
| Results.CheckStartsWith | src/results.rs:212-214 | some whitespace field of the line starts with the pattern; partners `StartsEndsImpliesBoth`, `TabSeparatesFieldsOnly` and `TokenHitsAreSubstringHits` |
| Results.CheckEndsWith | src/results.rs:216-218 | some whitespace field of the line ends with the pattern; partners `StartsEndsNeedsOneField` and `TokenHitsAreSubstringHits` |
| Results.CheckStartsEndsWith | src/results.rs:220-224 | one and the same field both starts and ends with the pattern; partners `StartsEndsImpliesBoth` and `StartsEndsNeedsOneField` |
| Results.CheckContains | src/results.rs:226-228 | the pattern occurs in the raw line, terminator included; partner `Bytes.ContainsIffOccurs` |
| Results.CheckWords | src/results.rs:230-232 | some word of the trimmed line equals the pattern; partners `WordsIgnoreTerminator` and `WordsRejectsNonWord` |
| Ext.CheckStartsWith | src/ext.rs:16-20 | some piece of the trimmed line, split on single spaces only, starts with the pattern; partners `Results.OldStartsWithSinglePiece` and `Results.TabSeparatesFieldsOnly` |
| Bytes.Contains | src/results.rs:226-228 | bstr's `contains_str`: the pattern is a prefix of the line or of one of its tails; partner `ContainsIffOccurs` |
| Bytes.IsSuffix | src/results.rs:216-218 | bstr's `ends_with_str`: the pattern is the last bytes of the field; partner `FiveLines.NoSuffixAt` |
| Bytes.IsAscii | src/gen_check.rs:96 | bstr's `is_ascii`: every byte is below 0x80; partner `AsciiLowerProperties` |
| Bytes.AsciiLower | src/gen_check.rs:96-97 | bstr's `to_ascii_lowercase`, byte by byte; partner `AsciiLowerProperties` |
| Scan.Counted | src/gen_check.rs:65-139 | a count is 0 under a zero budget and otherwise the number of hits; partners `CountedBounds`, `CountedStep` and `CountIgnoresBudget` |
| Scan.CountedBounds | src/gen_check.rs:65-139 | a count never exceeds the number of lines, and it is 0 exactly under a zero budget or when no line is a hit |
| Scan.FinalSigmaMissed | src/matcher.rs:97-99 | the pattern and the lines are lowercased differently: pattern `ΑΣ` becomes `ας`, the line `ΑΣ` becomes `ασ`, so the caseless substring search misses the line |
| GenCheck.Expected | src/gen_check.rs:65-356 | what a driver returns: the reader's error, the count, or the trimmed first `max_count` hits with their numbers in numbered drivers. `SearchLines`, `CountLines`, `Run`, `LineNumbersShape`, `ZeroBudget` and `LargeBudget` state it |
| OldSearcher.OldExpected | src/base.rs:21-109 | what an old driver returns: the reader's error, or the trimmed hits (the first `max_count` under a budget) with `LineNumbers::Some` of their numbers in numbered drivers. `OldSearchLines`, `OldRun`, `StoresEveryHit` and `StoresFirstHits` state it |
| Matchers.DefaultConfig | src/matcher.rs:12-23 | every flag is off, `max_count` is `None`, and the default selects `MatcherType::Base` |
| Matchers.SelectType | src/matcher.rs:110-122 | `words` selects `Words` whatever else is set; otherwise `ends_with`/`starts_with` select `StartsEndsWith`, `EndsWith` or `StartsWith`; with none of them, `max_count` set selects `MaxCount`, unset selects `Base` (each an iff) |
| Matchers.SelectTypeIgnoresOutputFlags | src/matcher.rs:110-122 | the matcher type depends only on `words`, `ends_with`, `starts_with` and whether `max_count` is set |
| Matchers.MatcherBuilder.constructor | src/matcher.rs:53-57 | a new builder holds the default configuration |
| Matchers.MatcherBuilder.SetCount | src/search/base.rs:140-146 | sets `count` and changes no other field |
| Matchers.MatcherBuilder.SetEndsWith | src/matcher.rs:60-63 | sets `ends_with` and changes no other field |
| Matchers.MatcherBuilder.SetIgnoreCase | src/matcher.rs:66-69 | sets `ignore_case` and changes no other field |
| Matchers.MatcherBuilder.SetMaxCount | src/matcher.rs:72-75 | sets `max_count` and changes no other field |
| Matchers.MatcherBuilder.SetNoLineNumber | src/matcher.rs:78-81 | sets `no_line_number` and changes no other field |
| Matchers.MatcherBuilder.SetStartsWith | src/matcher.rs:84-87 | sets `starts_with` and changes no other field |
| Matchers.MatcherBuilder.SetWords | src/matcher.rs:90-93 | sets `words` and changes no other field |
| Matchers.MatcherBuilder.Build | src/matcher.rs:96-129 | the configuration is copied unchanged; the pattern is lowercased by the string lowercasing, not the line one, iff `ignore_case` (an ASCII pattern ASCII-lowercased when that lowercasing agrees with ASCII on ASCII text); and the type is `SelectType` of the configuration |
| Scan.Hit | src/gen_check.rs:157-178 | the per-line test of every driver loop: the predicate on the folded line in a caseless driver and on the raw line otherwise; partners `CaselessTestsLowercase`, `FiveLines.PlainProbe` and `FiveLines.CaselessProbe` |
| Scan.Flags | src/gen_check.rs:141-155 | one verdict per line, in input order, each the predicate on that line |
| Scan.FlagsPrefix | src/gen_check.rs:141-155 | the verdicts of the first i + 1 lines are those of the first i plus line i's |
| Scan.Positions | src/gen_check.rs:141-155 | the hit positions are exactly the lines the predicate holds on, strictly increasing |
| Scan.Take | src/gen_check.rs:180-201 | a budget keeps a prefix of the positions of length `min(hits, max_count)`; no budget keeps them all |
| Scan.Selected | src/gen_check.rs:180-201 | the selected positions are hits, strictly increasing |
| Scan.Recorded | src/gen_check.rs:287-310 | the recorded positions are positions of input lines |
| Scan.Stored | src/gen_check.rs:141-155 | one stored line per recorded position |
| Scan.Numbered | src/gen_check.rs:245-260 | one line number per recorded position |
| Scan.PositionsStep | src/gen_check.rs:141-155 | one more line adds its index to the hits exactly when it is a hit |
| Scan.SelectedStep | src/gen_check.rs:180-201 | one more line is selected exactly when it is a hit and budget is left; the selection never exceeds the budget |
| Scan.StoredPrefix | src/gen_check.rs:180-201 | a prefix of the positions stores a prefix of the lines |
| Scan.CountedStep | src/gen_check.rs:65-86 | one more hit adds 1 to the count unless the budget is 0 |
| Scan.StoredSnoc | src/results.rs:96-104 | recording one more position appends that line trimmed |
| Scan.NumberedSnoc | src/gen_check.rs:251-257 | recording position i appends the number i + 1 |
| Scan.RecordStep | src/gen_check.rs:287-310 | with budget left one more line appends its trimmed text and 1-based number exactly when it is a hit, and spends one unit; with none left nothing changes |
| Scan.PositionsAppend | src/gen_check.rs:141-155 | reading more lines only appends hits |
| Scan.SelectedIff | src/gen_check.rs:180-201 | a line is stored iff it is a hit and fewer than `max_count` hits come before it, so the stored lines are the first `max_count` hits in order |
| Scan.SelectedBudget | src/search/max_count.rs:65-83 | the selection holds at most `max_count` positions, is a prefix of all hits, is all hits when they fit, is empty under a zero budget and has exactly `max_count` when there are enough hits |
| Scan.SpentBudgetIgnoresRest | src/search/max_count.rs:74-80 | once the budget is spent, later lines change nothing that is stored |
| Scan.NoHitNothingSelected | src/search/base.rs:171-191 | with no hit nothing is stored and the count is 0 |
| Scan.NumbersArePositions | src/search/max_count.rs:130-146 | every stored number is the 1-based position of a line the predicate holds on, within the input and strictly increasing |
| Scan.StoredAreTrimmedOriginals | src/search/base.rs:242-289 | every stored line is the original line, not the folded copy, with only trailing `\n`/`\r` bytes removed, so an embedded NUL stays |
| Scan.CountIgnoresBudget | src/search/max_count.rs:20-38 | under a non-zero budget the count is the unbudgeted count, the number of all hits |
| Scan.CaselessTestsLowercase | src/gen_check.rs:157-178 | when line lowercasing agrees with ASCII lowercasing on ASCII text, a caseless probe holds iff the predicate holds on the line lowercasing of the line |
| GenCheck.StoreLine | src/gen_check.rs:157-178 | the loop body stores the original line trimmed exactly on a hit, with its number in a numbered driver, and spends one unit of budget in a budgeted one |
| GenCheck.SearchInvSkip | src/gen_check.rs:193-195 | a line read with no budget left keeps the loop invariant without touching the accumulator |
| GenCheck.SearchInvStore | src/gen_check.rs:304-305 | a line read with budget left, numbered and stored when it is a hit, keeps the loop invariant |
| GenCheck.SearchStep | src/gen_check.rs:312-356 | one step of any search driver keeps the invariant: stored lines and numbers are those of the selected hits, and the budget left plus the number stored is `max_count` |
| GenCheck.SearchLines | src/gen_check.rs:141-356 | the search drivers store exactly the trimmed lines of the first `max_count` hits, or all hits, in input order, with their 1-based numbers when numbered and no numbers otherwise |
| GenCheck.CountStep | src/gen_check.rs:111-139 | one step of a count driver adds 1 exactly on a hit under a non-zero budget and never spends the budget |
| GenCheck.CountLines | src/gen_check.rs:53-139 | a count driver answers the number of hits, or 0 under a zero budget |
| GenCheck.Run | src/gen_check.rs:53-356 | every one of the twelve drivers returns the reader's error, or the upcast of the count or of the stored lines and numbers |
| GenCheck.Dispatch | src/starts_with.rs:19-34 | `count` selects a count driver whatever `no_line_number` is; otherwise numbered iff `!no_line_number`; caseless iff `ignore_case`; budgeted iff `max_count` is set |
| GenCheck.LineNumbersShape | src/results.rs:58-75 | a numbered search answers `LineNumbers::None` iff it stored nothing and otherwise one number per match; an unnumbered one always answers `None` |
| GenCheck.ZeroBudget | src/search/max_count.rs:224-243 | `max_count = 0` yields an empty match list with `LineNumbers::None`, or a count of 0 |
| GenCheck.CountNotCapped | src/search/max_count.rs:20-38 | a count under a non-zero budget equals the unbudgeted count |
| GenCheck.LargeBudget | src/search/max_count.rs:271-293 | a budget at least the number of hits behaves like the unbounded search |
| GenCheck.FailurePropagates | src/gen_check.rs:53-64 | a reader error is returned as the driver's error |
| SearchBase.Select | src/search/base.rs:146-153 | `count` selects a count driver, overriding `no_line_number`; numbered iff neither; caseless iff `ignore_case`; never budgeted |
| SearchBase.GetMatches | src/search/base.rs:138-155 | the dispatched contains-driver's result |
| SearchBase.IgnoresMaxCount | src/search/base.rs:22-135 | the count is the number of lines containing the pattern, and the stored lines are all of them trimmed |
| SearchMaxCount.Select | src/search/max_count.rs:202-209 | the same table, always budgeted |
| SearchMaxCount.GetMatches | src/search/max_count.rs:194-211 | the dispatched budgeted contains-driver's result |
| SearchMaxCount.BudgetEffect | src/search/max_count.rs:20-191 | a search stores at most `max_count` lines, a prefix of all hits; a count is 0 under a zero budget and otherwise the number of all hits |
| StartsWithSearch.GetMatches | src/starts_with.rs:10-36 | the `Dispatch` driver run with the whitespace-field starts-with predicate |
| EndsWithSearch.GetMatches | src/ends_with.rs:10-33 | the `Dispatch` driver run with the ends-with predicate |
| StartsEndsWithSearch.GetMatches | src/starts_ends_with.rs:10-37 | the `Dispatch` driver run with the starts-and-ends-with predicate |
| SearchWords.GetMatches | src/search/words.rs:9-33 | the `Dispatch` driver run with the words predicate |
| WordsSearch.Select | src/words.rs:18-27 | no count axis: never a count driver; numbered iff `!no_line_number`; caseless iff `ignore_case`; budgeted iff `max_count` is set |
| WordsSearch.GetMatches | src/words.rs:10-29 | the selected driver run with the words predicate |
| WordsSearch.AgreesWithoutCount | src/words.rs:18-27 | the old table agrees with the current one whenever `count` is off, and ignores `count` when it is on |
| SearchSearcher.CheckFor | src/search/searcher.rs:14-22 | `Base` and `MaxCount` use containment, and each token type its own predicate (each an iff) |
| SearchSearcher.DriverFor | src/search/searcher.rs:14-22 | `Base` runs unbudgeted, `MaxCount` budgeted, and the token types through `Dispatch` |
| SearchSearcher.SearchMatches | src/search/searcher.rs:12-24 | exactly one driver runs per scan, chosen from the matcher type and the configuration only |
| SearchSearcher.BuiltMatcherIsRunnable | src/matcher.rs:110-122 | a built matcher of type `MaxCount` has `max_count` set, so the dispatch never unwraps `None` |
| SearchSearcher.WordsWins | src/matcher.rs:116 | with `words` set the words predicate runs, whatever `starts_with` and `ends_with` say |
| OldSearcher.DefaultInit | src/searcher.rs:113-121 | empty vectors and `line_number = 0` |
| OldSearcher.RetSearcherResult | src/searcher.rs:98-104 | `Ok` of the matches and line numbers, unchanged |
| OldSearcher.OldStoreLine | src/base.rs:80-108 | the old loop body pushes the original trimmed line exactly when the (folded) line contains the pattern, with its number when numbered, spending one unit when budgeted |
| OldSearcher.OldStep | src/max_count.rs:103-140 | one step of an old driver keeps the invariant on the selected hits and the budget |
| OldSearcher.OldSearchLines | src/max_count.rs:74-101 | the old loops store exactly the trimmed lines of the first `max_count` hits, or all hits, with their numbers when numbered |
| OldSearcher.OldRun | src/base.rs:21-108 | the old drivers return the reader's error, or `Ok` of the stored lines with `LineNumbers::Some` of the numbers (even when empty) in a numbered driver and `None` otherwise |
| OldSearcher.SearchInnerResult.constructor | src/searcher.rs:23-30 | a fresh old accumulator is empty |
| OldSearcher.SearchInnerResult.CheckAndStore | src/searcher.rs:33-38 | with the space-split starts-with predicate, pushes the trimmed line and its number together on a hit and nothing otherwise |
| OldSearcher.SearchInnerResult.CheckAndStoreSeparate | src/searcher.rs:40-51 | tests `line_check` with the space-split predicate and pushes `line_store` trimmed with its number |
| OldSearcher.SearchInnerResult.CheckAndStoreMaxCount | src/searcher.rs:53-65 | pushes on a hit and spends exactly one unit of `matches_left` per push; needs budget left when the line is a hit |
| OldSearcher.SearchInnerResult.CheckAndStoreSeparateMaxCount | src/searcher.rs:67-80 | tests `line_check`, pushes `line_store` trimmed and spends exactly one unit per push; needs budget left when the line is a hit |
| OldBase.Select | src/base.rs:112-121 | total over `(no_line_number, ignore_case)`: numbered iff `!no_line_number`, caseless iff `ignore_case`, never a count and never budgeted |
| OldBase.GetMatches | src/base.rs:111-122 | the selected old driver's result |
| OldBase.StoresEveryHit | src/base.rs:21-108 | without a reader error every line containing the pattern is stored in order; `LineNumbers::None` iff `no_line_number`, and a numbered search has one number per match (so `Some([])` when nothing matched) |
| OldMaxCount.Select | src/max_count.rs:144-153 | the same four-arm table, always budgeted |
| OldMaxCount.GetMatches | src/max_count.rs:143-154 | the selected old budgeted driver's result |
| OldMaxCount.StoresFirstHits | src/max_count.rs:19-140 | the stored lines are a prefix of all hits of length `min(hits, max_count)`; `LineNumbers::None` iff `no_line_number`; one number per match otherwise |
| OldMaxCount.ZeroBudgetNumbered | src/max_count.rs:74-101 | a numbered old search under `max_count = 0` answers no matches with `LineNumbers::Some([])` |
| OldSearch.Lift | src/searcher.rs:124-141 | a `SearcherResult` becomes the `GenResult` search result with the same value or error |
| OldSearch.OldMatcherOf | src/searcher.rs:7-10 | the old matcher sees the searcher's reader, pattern and configuration |
| OldSearch.SearchMatches | src/searcher.rs:123-141 | `Base` runs the old base drivers, `MaxCount` the old budgeted ones, and `StartsWith` the current starts-with dispatcher |
| OldSearch.BaseGenerations | src/base.rs:59-78 | the old and the current base search agree iff the reader failed, the search is unnumbered, or some line matched: they differ only on `Some([])` versus `None` |
| OldSearch.MaxCountGenerations | src/max_count.rs:74-101 | the same for the budgeted searches, where "nothing stored" includes a zero budget |
| Scenarios.UnbudgetedSearch | src/search/base.rs:58-108 | an unbudgeted search stores all hits, numbered when numbered |
| Scenarios.HitsOfThree | src/search/base.rs:58-108 | the hits of a three-line text are its lines the predicate holds on, in order |
| Scenarios.NoneOfThree | src/search/base.rs:171-191 | three lines without a hit give the default, empty result |
| Scenarios.StoresSecondOfThree | src/search/base.rs:194-216 | only the second line a hit gives that line trimmed, numbered 2 |
| Scenarios.StoresThirdOfThree | src/search/base.rs:319-341 | only the third line a hit, unnumbered, gives that line trimmed and `LineNumbers::None` |
| Scenarios.StoresFirstTwoOfThree | src/search/base.rs:292-316 | the first two lines hits give those two trimmed, numbered `[1, 2]` when numbered |
| Scenarios.FirstUnderBudgetOne | src/search/max_count.rs:246-268 | a numbered search with budget 1 whose first line is a hit gives that line alone, numbered 1 |
| Scenarios.CountOfThree | src/search/base.rs:344-360 | a count of three lines under a non-zero or no budget is the number of hits among them |
| Scenarios.PlainHit | src/search/base.rs:95-108 | a case-keeping contains probe tests the raw line |
| Scenarios.CaselessHit | src/search/base.rs:110-135 | a caseless contains probe tests an ASCII line ASCII-lowercased and any other line Unicode-lowercased |
| Scenarios.FindNoMatch | src/search/base.rs:171-191 | `"Made"` matches none of the lines: case-sensitive search, empty matches and `LineNumbers::None` |
| Scenarios.FindAMatch | src/search/base.rs:194-216 | `"made"` gives `["made a run"]` with `[2]` |
| Scenarios.SearchBinaryText | src/search/base.rs:219-239 | `"mad\0e"` does not contain `"made"`: empty result |
| Scenarios.LineNumberCaseless | src/search/base.rs:292-316 | caseless `"again"` gives `["He started again", "a\0nd again"]` with `[1, 2]` |
| Scenarios.NoLineNumberCaseless | src/search/base.rs:319-341 | caseless `"aγain"` gives the original `"& AΓain"` and `LineNumbers::None` |
| Scenarios.CntLineBin3 | src/search/base.rs:344-360 | `"t"` on the CRLF text counts 2 |
| Scenarios.CntCaseless | src/search/base.rs:363-382 | caseless `"γ"` counts 1 |
| Scenarios.MaxCountEmpty | src/search/max_count.rs:224-243 | `max_count = 0` gives the empty result |
| Scenarios.MaxCountOne | src/search/max_count.rs:246-268 | `max_count = 1` keeps only `"He started again"`, numbered 1 |
| Scenarios.MaxCountLarge | src/search/max_count.rs:271-293 | `max_count = 1000` is the unbounded `["made a run"]` with `[2]` |
| Scenarios.NoLineNumberCaselessMaxCount | src/search/max_count.rs:323-346 | caseless `"again"` with `max_count = 2` and no numbers gives both ASCII lines and `LineNumbers::None` |
| Scenarios.CntMaxCountZero | src/search/max_count.rs:349-367 | a count under `max_count = 0` is 0 |
| Scenarios.CntMaxCountTwo | src/search/max_count.rs:370-390 | a count of `" "` under `max_count = 2` is 3: the count is not capped |
| FiveLines.SelectedSecondThird | src/gen_check.rs:287-311 | under a budget of 2, five verdicts whose first hits are the second and third record exactly positions 1 and 2, whatever the last two verdicts are |
| FiveLines.SelectedSecond | src/gen_check.rs:287-311 | under a budget of 1, five verdicts whose first hit is the second record exactly position 1 |
| FiveLines.SelectedSecondThirdFifth | src/gen_check.rs:141-156 | without a budget, the verdicts false, true, true, false, true record positions 1, 2 and 4 |
| FiveLines.SelectedFourth | src/gen_check.rs:141-156 | without a budget, a hit on the fourth line alone records position 3 alone |
| FiveLines.SearchOfSelected | src/gen_check.rs:141-156 | a search of a readable text answers the upcast of the recorded lines, trimmed, with their 1-based numbers when numbered |
| FiveLines.SecondThirdUnderBudgetTwo | src/starts_with.rs:49-74 | under `max_count = 2`, hits on lines 2 and 3 after a miss on line 1 give those two lines trimmed, numbered `[2, 3]` when numbered and `LineNumbers::None` otherwise |
| FiveLines.SecondUnderBudgetOne | src/ends_with.rs:129-151 | under `max_count = 1`, a hit on line 2 after a miss on line 1 gives that line alone, numbered 2 when numbered |
| FiveLines.SecondThirdFifthOfFive | src/starts_with.rs:104-128 | an unbudgeted search with hits on lines 2, 3 and 5 alone gives those three lines trimmed, numbered `[2, 3, 5]` when numbered |
| FiveLines.FourthOfFive | src/starts_with.rs:77-101 | an unbudgeted search with a hit on line 4 alone gives that line trimmed, numbered 4 when numbered |
| FiveLines.CountOfFiveFlags | src/gen_check.rs:53-64 | the number of hits among five verdicts is the number of `true`s |
| FiveLines.CountOfFive | src/starts_with.rs:184-204 | a count of five lines under no budget or a non-zero one is the number of lines the predicate holds on |
| FiveLines.PlainProbe | src/gen_check.rs:141-156 | a case-keeping probe evaluates the predicate on the raw line |
| FiveLines.CaselessProbe | src/gen_check.rs:157-178 | a caseless probe evaluates the predicate on the ASCII-lowercased line when the line is ASCII and on the Unicode-lowercased line otherwise |
| FiveLines.LowerKeeps | src/gen_check.rs:166-168 | ASCII lowercasing leaves a line without capitals unchanged |
| FiveLines.FieldsOfOne | src/results.rs:212-214 | one token, with or without a final `\n`, is one field |
| FiveLines.FieldsOfTwoTokens | src/results.rs:212-214 | two tokens around one whitespace character, with or without a final `\n`, are exactly two fields |
| FiveLines.TokenChecksOfOne | src/results.rs:212-224 | on a one-token line, starts-with, ends-with and starts-and-ends-with hold exactly when they hold of that token (each an iff) |
| FiveLines.TokenChecksOfTwo | src/results.rs:212-224 | on a two-token line, each token predicate holds exactly when it holds of one of the two tokens, and starts-and-ends-with needs both on the same token (each an iff) |
| FiveLines.NoSuffixAt | src/results.rs:216-218 | a pattern is not a suffix of a field it differs from at one aligned byte |
| FiveLines.NoFieldWithMissingByte | src/results.rs:212-224 | a pattern byte that is absent from the line rules out all three token predicates |
| FiveLines.AsciiNoTokenHit | src/gen_check.rs:166-168 | an ASCII line, lowercased, satisfies no token predicate whose pattern has a non-ASCII byte |
| StartsWithTests.LineNumber | src/starts_with.rs:49-74 | `"gain"` with `max_count = 2` gives `["a\tgain", "a\0nd, gain"]` with `[2, 3]`: a tab separates fields and `"again"` does not start with `"gain"` |
| StartsWithTests.LineNumberCaseless | src/starts_with.rs:77-101 | caseless `"aγain"` gives the original `"&\u{2003}AΓain"` with `[4]`: EM SPACE separates fields and the ASCII lines cannot match |
| StartsWithTests.NoLineNumberCaseless | src/starts_with.rs:104-128 | caseless `"gain"` gives `["a\tgain", "a\0nd, gain", "Gain"]` and `LineNumbers::None` |
| StartsWithTests.NoLineNumberMaxCount | src/starts_with.rs:131-154 | `"gain"` with `max_count = 2` and no numbers gives the first two hits and `LineNumbers::None` |
| StartsWithTests.NoLineNumberCaselessMaxCount | src/starts_with.rs:157-181 | caseless `"gain"` on `LINE2` with `max_count = 2` gives `["Gain", "a\0nd, gain"]` |
| StartsWithTests.CntCaseless | src/starts_with.rs:184-204 | caseless `"gain"` counts 3 |
| EndsWithTests.LineNumber | src/ends_with.rs:47-72 | `"gain"` with `max_count = 2` gives `["gain", "a\0nd, again"]` with `[2, 3]`: `"againn"` does not end with `"gain"` |
| EndsWithTests.LineNumberCaseless | src/ends_with.rs:75-99 | caseless `"aγain"` gives the original `"& AΓain"` with `[4]` |
| EndsWithTests.NoLineNumberCaseless | src/ends_with.rs:102-126 | caseless `"gain"` on `LINE2` gives `["Gain", "a\0nd, aGain", "Gain"]` and `LineNumbers::None` |
| EndsWithTests.NoLineNumberMaxCount | src/ends_with.rs:129-151 | `"gain"` with `max_count = 1` and no numbers gives `["gain"]` |
| EndsWithTests.NoLineNumberCaselessMaxCount | src/ends_with.rs:154-178 | caseless `"gain"` on `LINE2` with `max_count = 2` gives `["Gain", "a\0nd, aGain"]` |
| EndsWithTests.CntMaxCount | src/ends_with.rs:181-201 | `"gain"` with `max_count = 3` counts 2: the case-keeping search misses `"Gain"` and the gamma line |
| StartsEndsWithTests.LineNumber | src/starts_ends_with.rs:50-75 | `"gain,"` with `max_count = 1` gives `["gain,"]` with `[2]`: `"gain"` is too short to start with `"gain,"` |
| StartsEndsWithTests.CntCaselessMaxCount | src/starts_ends_with.rs:78-100 | caseless `"gain,"` with `max_count = 1` counts 3: the count is not capped |

## Left out

- Argument parsing, file opening and output (src/cli.rs, src/main.rs, src/writer.rs) and `BStringExt::to_utf8` are I/O and presentation, not matching.
- The line reader (`for_byte_line_with_terminator`) is not modelled as code. A `Reader` value holds the lines with their terminators and an optional `io::Error`. The error is returned before any result, as `?` does.
- Unicode lowercasing (`to_lowercase_into`, `String::to_lowercase`) and UAX #29 `words()` are uninterpreted functions in `Unicode.Tables`. Only `Unicode.AsciiLowering` and `Unicode.WordsWellFormed` are assumed of them, and only by the lemmas that name them. So the model proves nothing that depends on a particular non-ASCII lowercasing or word segmentation. The caseless scenarios take the lowercasing of their one non-ASCII line as a hypothesis.
- The scenarios and the token tests build the matcher directly, with the pattern as the test's `build` call would leave it. A caseless test's pattern is taken as already lowercased; `Matchers.MatcherBuilder.Build` states what `build` does to it.
- Counters and line numbers are `nat`: u64 overflow is not modelled. The underflow of `matches_left` at 0 is excluded instead: every max-count accumulator method requires budget left when the line is a hit, and the drivers that call them check `matches_left == 0` first. The old starts-with accumulator of src/searcher.rs has no caller, so there the precondition alone excludes the underflow.
- `src/search_inner.rs` is the same code as the `SearchInnerResult` part of src/results.rs, and its `check_starts_with`/`check_contains` are `Ext.CheckStartsWith`/`Results.CheckContains`. It is modelled once, by `Results.SearchInnerResult`.
- The `GenSearch` file that src/search/words.rs calls is not part of this model. src/gen_check.rs, its visible equivalent, stands for it.
- The old drivers in src/base.rs and src/max_count.rs return `MatcherResult` through `ret_matcher_result`, whose definition is not part of this model. They are modelled as returning `SearcherResult` through `OldSearcher.RetSearcherResult`.
- The unnumbered old drivers keep no line counter; the shared old loop `OldSearcher.OldStep` keeps one for them that no contract states.
- The tests of src/words.rs and src/search/words.rs are not restated as scenarios. Their concrete results depend on the UAX #29 tables the model leaves uninterpreted. What they check is proved for every input instead:
  - a pattern ending in `,` `.` `:` or `;` matches nothing (`Results.WordsRejectsNonWord`);
  - counts are not capped (`GenCheck.CountNotCapped`);
  - the budget keeps the first hits (`Scan.SelectedIff`).
- The token tests that go through `Searcher::search_matches` are stated on `Dispatch`, the table that `SearchSearcher.DriverFor` proves they reach.
- Some tests are not restated as scenarios:
  - `search_binary_text2`/`search_binary_text3` of src/search/base.rs;
  - `line_number_caseless` of src/search/max_count.rs;
  - the tests of src/base.rs and src/max_count.rs.
  They repeat the texts and shapes of the scenarios above. The properties behind them are covered by `Scan.StoredAreTrimmedOriginals`, `OldBase.StoresEveryHit` and `OldMaxCount.StoresFirstHits`.
- tests/cli.rs runs the built binary and is not modelled.
- Rust lifetimes, trait objects and closures are not modelled. The predicate is the `Results.Check` value interpreted by `Results.Holds`.
