# Function-boundary counter: a Dafny model

This project models `scripts/countMatch.py`, the function-boundary counter of
the FunctionBoundary toolkit. For each binary the script reads two address
tables, each mapping a function's start address to its length:

- the **prediction** (`myGt`): the function boundaries a tool reported;
- the **ground truth** (`sym`): the symbols of the unstripped binary.

It scores the prediction against the ground truth in five steps:

1. It works out the text region to score. This comes from an optional
   `text start end` header, or else from the smallest ground-truth address
   to the end of the function at the largest one.
2. It works out the alignment of the true starts: 4, 2 or 1.
3. Pass 1 files every in-region prediction under `other`, `match`,
   `longGuess` or `short`.
4. Pass 2 counts the ground truth. It collects the `missing` starts, and
   buries each missing start under every long prediction whose span holds it.
5. It computes start-level and boundary-level precision, recall and F1.

Over all binaries it keeps running totals and writes two files. `results.csv`
has one row per binary in sorted name order. `results1.csv` has the sorted
short, long and missing addresses of the last binary. It prints three
corpus-wide precision/recall/F1 triples, the five worst binaries for
`longBd`, `shortBd`, `fpSt` and `missing`, and the fifteen worst for `f1St`.

Modules, one file each, in dependency order:

- **Wrappers**: `Option` and `Result`.
- **Numbers**: `myint`, Python's `int(s, base)`, and `{:x}`/`{:d}` formatting.
- **Sorting**: `sorted` over keys and `sorted(..., key=...)`. The latter is a stable insertion sort.
- **Tables**: the two readers and the text region.
- **Alignment**: the alignment mode, with the counting loop.
- **Classify**: the boundary rule, Pass 1 and Pass 2, with loop methods proved against map comprehensions.
- **Metrics**: the per-binary ratios.
- **Scoring**: one binary end to end.
- **Corpus**: totals and the corpus triples.
- **Ranking**: the ranking blocks.
- **Reports**: `results.csv` and `results1.csv`.
- **Run**: the loop over the binaries and the whole run.

The model follows the code's own conventions:

- **Stopping as an error value.** Wherever the script stops (an uncaught
  `ValueError`, the `sys.exit` in the ground-truth reader's handler, a
  division by zero on an empty ground truth), the model returns an error
  value. Its callers handle that value.
- **Dict iteration as an arbitrary choice.** Iterating over a dict is
  modelled as picking an arbitrary remaining key (`Sorting.Pick`).
- **One contract for every visiting order.** Each loop is proved for every
  order of visits.
- **Exact ratios.** Ratios are exact `real`s.

Where the behaviour of the code differs from the natural reading of the
field names, the model follows the code. In detail:

- **Pass 1 iterates the prediction.** An address the tool reported that is
  not a true start is `other` (a false positive). An address the tool never
  reported is `missing`.
- **Length 0 excuses only the true length.** Only a TRUE length of 0 makes
  any prediction a match. A prediction of length 0 at a 32-byte function is
  `short` (`Scoring.ZeroPredictedLengthIsShort`).
- **`long` means predicted longer than true.** A prediction counts as `long`
  only when the predicted length EXCEEDS the true one. A prediction that
  stops short of the true end is a match (within the tolerances) or `short`,
  never `long` (`Scoring.ShorterPredictionIsNeverLong`).
- **`cnt2` skips multiples of 16.** `cnt2` counts even addresses that are
  not multiples of 16, because of the `elif` at line 175. So "every address
  even" does not by itself give mode 2 (`Alignment.EvenButMixedIsUnaligned`).
- **The alignment-2 tolerance is dead code.** The alignment-2 tolerance
  `sym + 1 == myGt` sits in the branch where the prediction is shorter than
  the truth, so it can never hold. Mode 2 therefore classifies exactly like
  mode 1 (`Classify.AlignmentTwoIsLikeOne`).

## Model

| member | source | states |
|---|---|---|
| Numbers.MyInt | scripts/countMatch.py:46-58 | an int argument is returned unchanged |
| Numbers.MyIntDropsOneDollar | scripts/countMatch.py:49-50 | a leading `$` is dropped before the prefix tests, so `$s` reads like `s` |
| Numbers.MyIntRejectsSecondDollar | scripts/countMatch.py:49-56 | only one `$` is dropped: `$$5` does not parse |
| Numbers.MyIntReadsHex | scripts/countMatch.py:51-52 | `0x` followed by the `{:x}` digits of any integer reads back as that integer |
| Numbers.MyIntRejectsBarePrefix | scripts/countMatch.py:51-52 | `0x` with no digits does not parse |
| Numbers.MyIntReadsDollarHex | scripts/countMatch.py:46-58 | `myint("$0x1f") == 31` |
| Numbers.MyIntReadsNegatedHex | scripts/countMatch.py:53-54 | `-0x` followed by hex digits reads as the negated value |
| Numbers.MyIntReadsMinusHex | scripts/countMatch.py:53-54 | `myint("-0x10") == -16` |
| Numbers.MyIntReadsDecimal | scripts/countMatch.py:55-56 | the `{:d}` form of any integer, signed or not, reads back as that integer |
| Numbers.MyIntReadsPlainDecimal | scripts/countMatch.py:55-56 | `myint("42") == 42` |
| Numbers.PyIntReadsFormat | scripts/countMatch.py:132 | `int(s, 16)` and `int(s)` invert `{:x}` and `{:d}` for every integer |
| Sorting.SortedKeys | scripts/countMatch.py:159 | `sorted(d.keys())` is strictly increasing and holds exactly the keys |
| Sorting.SortBySorted | scripts/countMatch.py:376 | sorting by a total preorder yields a sorted sequence |
| Sorting.SortByStable | scripts/countMatch.py:376 | the sort is stable: elements on which the key ties keep their original order |
| Tables.AssignLookup | scripts/countMatch.py:133 | after assigning entries in order, a key holds the length of its last entry |
| Tables.LoadPrediction | scripts/countMatch.py:124-133 | the reading loop yields the prediction table, or the error of the first unparsable line |
| Tables.PredictionSkipsShortLine | scripts/countMatch.py:129-131 | a prediction line of fewer than two words changes nothing |
| Tables.PredictionErrorSticks | scripts/countMatch.py:132-133 | once a prediction line fails to parse, later lines do not change the outcome |
| Tables.PredictionRoundTrip | scripts/countMatch.py:124-133 | lines written as hex address and decimal length read back as the dict those entries assign |
| Tables.LoadGroundTruth | scripts/countMatch.py:136-156 | the reader yields the optional header bounds and the symbol table, or the fatal error |
| Tables.SymbolErrorSticks | scripts/countMatch.py:148-156 | once a ground-truth record fails, later lines do not change the outcome |
| Tables.GroundTruthShortLineIsFatal | scripts/countMatch.py:150-152 | a later ground-truth line of fewer than two words stops the run |
| Tables.GroundTruthRoundTripWithHeader | scripts/countMatch.py:139-153 | a `text` header plus `0x` records reads back as the header's bounds and the records' dict |
| Tables.GroundTruthRoundTripNoHeader | scripts/countMatch.py:144-153 | without a header, the first line is a record too and the bounds are 0 |
| Tables.TextRegion | scripts/countMatch.py:158-161 | with a non-zero header start, the region is the header's bounds; otherwise it exists iff the ground truth is non-empty, and runs from the least address to the greatest address plus its length minus 1 |
| Alignment.Mode | scripts/countMatch.py:177-182 | the mode is always 1, 2 or 4 |
| Alignment.DetectAlignment | scripts/countMatch.py:168-182 | the counting loop, whatever order it visits the addresses in, yields the mode given by the two 90% thresholds over the counted sets |
| Alignment.AllMultiplesOf16 | scripts/countMatch.py:174-178 | if every true start is a multiple of 16, the mode is 4 |
| Alignment.AllEvenNoneMultipleOf16 | scripts/countMatch.py:175-180 | if every true start is even and none is a multiple of 16, the mode is 2 |
| Alignment.EvenButMixedIsUnaligned | scripts/countMatch.py:174-175 | starts 0x10, 0x20 and 0x2 are all even, yet the mode is 1 |
| Classify.BoundaryRule | scripts/countMatch.py:202-229 | an address both tables list is never `other` |
| Classify.BoundaryRuleCases | scripts/countMatch.py:202-229 | iff conditions: `match` when the true length is 0, the lengths are equal, the shortfall is under 16 at alignment 4, or the shortfall is exactly 1; `long` iff the prediction is longer; `short` in every other shorter case |
| Classify.AlignmentTwoIsLikeOne | scripts/countMatch.py:218-221 | the alignment-2 tolerance never fires: mode 2 classifies exactly like mode 1 |
| Classify.Visit | scripts/countMatch.py:193-229 | one iteration of Pass 1: skips out-of-region addresses and files the rest by category, with the counters and side tables |
| Classify.ClassifyPredictions | scripts/countMatch.py:193-229 | in any visiting order, each category dict is exactly the in-region predictions of that category; `longLen` is a positive excess and `shortLen` a negative shortfall; each long prediction has an empty buried list; `tpSt = |match|+|long|+|short|`, `fpSt = |other|`, `tpBd = |match|`, `fpBd = |other|+|long|+|short|`, `longBd = |long|` and `shortBd = |short|` |
| Classify.ClassifiedPartition | scripts/countMatch.py:193-200 | every in-region prediction is in exactly one of the four dicts, and no out-of-region one is in any |
| Classify.StartHitsBounded | scripts/countMatch.py:196-229 | `|match|+|long|+|short| <= |sym|` |
| Classify.MissingDisjointFromHits | scripts/countMatch.py:231-235 | `missing` shares no address with any Pass 1 dict |
| Classify.Bury | scripts/countMatch.py:236-240 | the missing address is appended to exactly those long predictions whose span strictly holds it, and `numBuried` stays the total length of the lists |
| Classify.Tally | scripts/countMatch.py:231-240 | one iteration of Pass 2 keeps the Pass 2 invariant: `gt` counts the visited addresses, `missing` holds exactly the unreported ones, and the buried lists stay exact |
| Classify.FindMissing | scripts/countMatch.py:231-240 | `gt == |sym|`; `missing` is exactly the unreported ground truth; each buried list holds, once each, the missing addresses strictly inside its long prediction; `numBuried` is their total length |
| Classify.BuriedAreMissing | scripts/countMatch.py:236-239 | a buried address is a true start the tool did not report, and lies strictly between `x` and `x + longGuess[x]` |
| Metrics.Precision | scripts/countMatch.py:242-249 | lies in [0,1]; is 0 iff there are no true positives; is 1 iff there are true positives and no false positives |
| Metrics.Recall | scripts/countMatch.py:251-252 | is at most 1 iff the hits fit in the ground truth; is 1 iff they equal it |
| Metrics.F1 | scripts/countMatch.py:254-262 | is 0 iff precision or recall is 0; otherwise lies between them; lies in [0,1] when both do |
| Metrics.ScoresBounded | scripts/countMatch.py:242-262 | given `tpBd <= tpSt <= gt`, all six ratios lie in [0,1] and `recallBd <= recallSt` |
| Metrics.F1ClosedForm | scripts/countMatch.py:254-257 | the guarded F1 equals `2*tp/((tp+fp)+gt)`, including when `tp` is 0 |
| Metrics.PerfectStartF1 | scripts/countMatch.py:254-257 | start-level F1 is 1 iff there are no false starts and every true start was found |
| Scoring.Setup | scripts/countMatch.py:124-177 | when scoring can start, the ground truth is non-empty |
| Scoring.SummaryBounded | scripts/countMatch.py:193-262 | `gt == |sym| > 0`, `tpBd <= tpSt <= gt`, the `fpBd` and `tpSt` identities hold, and all ratios lie in [0,1] |
| Scoring.MissingComplementsReported | scripts/countMatch.py:231-235 | a true start is missing iff the tool did not report it; `missing` is disjoint from the start-level hits |
| Scoring.ZeroPredictedLengthIsShort | scripts/countMatch.py:202-229 | with truth `{0x100:16, 0x120:32}` and prediction `{0x100:16, 0x120:0}` at alignment 4, the first is a match and the second short |
| Scoring.ShortfallUnder16IsMatch | scripts/countMatch.py:214-217 | truth `{0x200:48}`, prediction `{0x200:44}`, alignment 4: a match |
| Scoring.ShorterPredictionIsNeverLong | scripts/countMatch.py:205-217 | truth `{0x300:20}`, prediction `{0x300:10}`: the mode is 4 and the prediction is a match, not long |
| Scoring.ScoreFile | scripts/countMatch.py:112-262 | scoring one binary succeeds iff its tables can be read and the ground truth is non-empty; the summary then equals `Scoring.Expected`, and the buried lists and `numBuried` are exact |
| Corpus.SummaryConsistent | scripts/countMatch.py:193-240 | every scored binary has start-level hits within a non-empty ground truth |
| Corpus.SumTotalsBounded | scripts/countMatch.py:297-302 | the running totals keep `matches+longs+shorts <= gts`, and each binary adds at least one to `gts` |
| Corpus.CorpusTriple | scripts/countMatch.py:356-369 | a triple exists iff its hits, predictions and ground truth are all non-zero (otherwise the script divides by zero) |
| Corpus.CorpusF1ClosedForm | scripts/countMatch.py:356-358 | the corpus F1 equals `2*hits/(predicted+gts)` |
| Corpus.CorpusTripleBounded | scripts/countMatch.py:356-369 | with hits within the predictions and the ground truth, all three figures lie in (0,1] |
| Corpus.CorpusTripleMonotone | scripts/countMatch.py:356-369 | more hits over the same denominators never lower precision, recall or F1 |
| Corpus.CorpusSummaryDefined | scripts/countMatch.py:356-369 | the three triples exist iff there is at least one strict match and the ground truth is non-empty |
| Corpus.CorpusOrdering | scripts/countMatch.py:356-369 | strict boundary <= boundary with shorts <= starts, in precision, in recall and in F1; within the ground truth, all nine figures lie in (0,1] |
| Corpus.CorpusOfSummaries | scripts/countMatch.py:356-369 | over scored binaries, the start F1 and start recall are at most 1 and the boundary precision is positive |
| Ranking.Ascending | scripts/countMatch.py:376 | `sorted(items, key=value)` is a permutation of the items, sorted by value |
| Ranking.ReverseIndex | scripts/countMatch.py:379 | `reversed` puts element `n-1-i` at `i`, and is a permutation |
| Ranking.CountPerfect | scripts/countMatch.py:378-380 | the counting loop yields the number of walked entries with the perfect value |
| Ranking.PerfectCountIsOrderFree | scripts/countMatch.py:378-382 | the perfect count does not depend on the walking order: it is the count over the items |
| Ranking.Leaders | scripts/countMatch.py:384-388 | the listing loop prints the first `limit` entries of the walk with ranks 1, 2, ... |
| Ranking.TopBlock | scripts/countMatch.py:376-388 | a top block: the perfect count of value 0, the number of binaries, and the first five entries of the worst-first walk |
| Ranking.TopRowsAreWorst | scripts/countMatch.py:376-388 | the listed rows are min(5, n) entries in non-increasing order, none smaller than any unlisted entry |
| Ranking.BottomBlock | scripts/countMatch.py:393-406 | the bottom block: the perfect count of value 1, the number of binaries, and the first fifteen entries of the ascending walk |
| Ranking.BottomRowsAreWorst | scripts/countMatch.py:394-406 | the listed rows are min(15, n) entries in non-decreasing order, none larger than any unlisted entry |
| Ranking.RowsComeFromItems | scripts/countMatch.py:384-388 | every listed row is one of the binaries' entries |
| Ranking.TiesKeepScoringOrder | scripts/countMatch.py:376 | entries with equal values keep the order the binaries were scored in |
| Ranking.TopTiesReverseScoringOrder | scripts/countMatch.py:376-385 | the worst-first walk of the top blocks lists entries with equal values in reverse scoring order, last-scored first |
| Reports.TerminatedIsJoin | scripts/countMatch.py:305-308 | appending `cell,` per cell and cutting the last comma gives the comma-joined line |
| Reports.SplitJoin | scripts/countMatch.py:304-325 | splitting a joined line on commas gives back its cells, when no cell holds a comma |
| Reports.ResultsHeader | scripts/countMatch.py:304-309 | the header loop yields `name` and the fourteen category names, comma-joined |
| Reports.ResultsHeaderSplits | scripts/countMatch.py:305-309 | the header splits back into its 15 cells |
| Reports.CategoryKinds | scripts/countMatch.py:314-316 | the prefix test `prec`/`recall`/`f1` picks out exactly the six ratio categories |
| Reports.RowCellsFollowHeader | scripts/countMatch.py:311-325 | a row holds the eight counters and then the six ratios, in header order |
| Reports.RowCells | scripts/countMatch.py:313-323 | the cell loop formats each category as a count or a percentage, following the name test |
| Reports.LexLeIsTotalPreorder | scripts/countMatch.py:311 | Python's string order is total and transitive |
| Reports.SortedNames | scripts/countMatch.py:311 | `sorted(fileIds)` is a permutation of the names in string order |
| Reports.WriteRows | scripts/countMatch.py:311-325 | the row loop writes one row per name, in order, each from that name's results |
| Reports.ResultsRows | scripts/countMatch.py:311-325 | the rows of `results.csv` are those of the sorted names |
| Reports.ResultsRowsOrdered | scripts/countMatch.py:311-325 | there is one row per binary, in non-decreasing name order; its names are a permutation of the file ids; each row is its own binary's |
| Reports.Results1Line | scripts/countMatch.py:340-351 | a data line holds the `i`-th key of each sorted list in hex, or `0x0` once that list is used up |
| Reports.Results1Body | scripts/countMatch.py:337-351 | the header, then data lines 0 to n-1 |
| Reports.Results1Lines | scripts/countMatch.py:328-351 | `results1.csv` for the last binary: the header, then as many lines as the longest of the three sorted key lists |
| Reports.HexCellReadsBack | scripts/countMatch.py:341-351 | a hex cell reads back with `myint` as its key, or 0 for padding |
| Reports.Results1RowReadsBack | scripts/countMatch.py:339-351 | a data line splits into three cells that read back as the `i`-th short, long and missing keys, or 0 |
| Run.ScoredErrorSticks | scripts/countMatch.py:112-156 | once a binary's files stop the run, later binaries do not change the outcome |
| Run.ScoredConsistent | scripts/countMatch.py:112-262 | a run that reads every binary yields one consistent summary per binary |
| Run.ResOfDistinct | scripts/countMatch.py:165-166 | with distinct names, each binary's results are kept under its own name |
| Run.ResOfScorable | scripts/countMatch.py:165-166 | every scored name is in `res` with a non-empty ground truth |
| Run.TopBlocks | scripts/countMatch.py:374-390 | the loop over `longBd`, `shortBd`, `fpSt` and `missing` yields their top blocks in that order |
| Run.PrintSummary | scripts/countMatch.py:356-406 | the console summary is the three triples, the four top blocks and the bottom block, or nothing when a corpus division fails |
| Run.ScoreAll | scripts/countMatch.py:112-302 | the per-binary loop stops at the first unreadable binary with its error; otherwise `fileIds` holds the binaries' names in scoring order, and `res`, the totals and the last summary are those of the whole list |
| Run.Evaluate | scripts/countMatch.py:112-406 | an empty list of binaries fails with `NoBinaries`; otherwise the result is `Ok` iff every binary can be read, and fails with the first unreadable binary's error if not; an `Ok` result holds the header, the sorted rows, the last binary's `results1.csv`, the totals and the console summary, where `console == None` stands for the ZeroDivisionError the script raises at lines 356-368 after writing both CSV files |

## Left out

- **Other scripts.** `scripts/runGhidra.py` and `scripts/runNucleus.py` only run external disassemblers through `subprocess`. They are not part of this model.
- **Command line and file system.** Argument parsing, the suffix-driven directory listing (lines 90-97), opening and reading files, and `os.path` are all left out.
  - Each binary arrives as its name and its two files, already split into lines and words (`Run.Binary`).
  - A missing file is not modelled.
- **The `.res` report (lines 264-295).** The per-binary detail report is left out. It is text output only. Its contents are the dicts the model computes (`missing`, `other`, `short`, `longGuess`, the buried lists).
- **Console text and formatting.** Console messages (lines 130, 151, 155, 182 and 353-354) and all percentage and float formatting are left out.
  - The model keeps the printed values only: the triples, the perfect counts and the ranked entries.
  - `results.csv` ratio cells are kept as `Percent(real)` cells and not rendered as `{:5.2%}` text.
- **Exact arithmetic.** Ratios are exact rationals.
  - The `cnt4/cnt > .9` test is modelled by the exact inequality `10*cnt4 > 9*cnt`.
  - The `dd[dId]==1` test for perfect F1 compares exact values.
  - IEEE rounding could differ from both for very large counts.
- Numbers.PyInt: models `int(s, base)` only for an optional sign, an optional `0x`/`0X` prefix in base 16, and ASCII digits. Python also accepts surrounding white space, underscores between digits and non-ASCII digits.
- **Partial output before an abort.**
  - An empty list of binaries stops with an unbound `short` at line 329. `results.csv` has already been written by then. `Run.Evaluate` returns only `Err(NoBinaries)`, without that file.
  - When a corpus division fails (lines 356-368), both CSV files have been written and the script stops with a ZeroDivisionError. `Run.Evaluate` returns `Ok` with the header, the rows, `results1.csv` and the totals, and `console == None`. The triples printed before the failing one and the rankings of lines 371-406, which the script never reaches, are not part of the result.
- **Dict iteration order.** Every dict loop is proved for all visiting orders. Two things depend on the order:
  - The order within each buried list follows the ground-truth dict's iteration order. `Scoring.FileResult` keeps the lists apart from the order-free summary, and `Classify.BuriedLists` states their contents.
  - The ranking items follow `res`'s insertion order, which is the scoring order. Ties keep the scoring order in the bottom block (`Ranking.TiesKeepScoringOrder`) and are reversed in the top blocks (`Ranking.TopTiesReverseScoringOrder`).
- Run.ItemsOf: lists one entry per scored name. The dict `res[statType]` holds a repeated name only once. Names from one directory listing never repeat, so the two agree in practice (`Run.ResOfDistinct`).
- **Integers are unbounded.** This matches Python's integers.
