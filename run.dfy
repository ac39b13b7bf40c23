/**
  One run of the scorer over a list of binaries (the loop of `_main`,
  scripts/countMatch.py:112-406): score every binary in turn, stopping at the
  first one whose files cannot be read; keep the per-binary results under
  the binary's name and the running totals; then produce `results.csv`, the
  last binary's `results1.csv`, and the console summary — the corpus triples
  and the rankings, which the script only reaches when none of the corpus
  divisions fails.
*/
module Run {
  import opened Wrappers
  import opened Sorting
  import opened Tables
  import opened Metrics
  import opened Scoring
  import opened Corpus
  import opened Ranking
  import opened Reports

  /** A binary's name (`fId`), its prediction lines, and its ground-truth lines. */
  datatype Binary = Binary(id: string, predLines: seq<Line>, symLines: seq<Line>)

  datatype RunError =
    | Unreadable(id: string, error: LoadError)  // the first binary whose files stop the script
    | NoBinaries                                // `short` is never bound when no file matched (line 329)

  datatype Console = Console(corpus: CorpusScores, top: seq<Block>, bottom: Block)

  datatype Report = Report(
    header: string, rows: seq<ResultRow>, results1: seq<string>, totals: Totals, console: Option<Console>)

  /** The binaries' names, in the order they are scored. */
  function Ids(bins: seq<Binary>): seq<string> {
    seq(|bins|, i requires 0 <= i < |bins| => bins[i].id)
  }

  /** The summaries of the binaries in order, or the first binary that stops the script. */
  function Scored(bins: seq<Binary>): Result<seq<FileSummary>, RunError> {
    if bins == [] then Ok([])
    else
      match Scored(bins[..|bins| - 1])
      case Err(e) => Err(e)
      case Ok(done) =>
        var b := bins[|bins| - 1];
        match Expected(b.predLines, b.symLines)
        case Err(e) => Err(Unreadable(b.id, e))
        case Ok(s) => Ok(done + [s])
  }

  lemma {:induction false} ScoredErrorSticks(bins: seq<Binary>, k: nat)
    requires k <= |bins| && Scored(bins[..k]).Err?
    ensures Scored(bins) == Scored(bins[..k])
    decreases |bins| - k
  {
    if k < |bins| {
      assert bins[..k + 1][..k] == bins[..k];
      ScoredErrorSticks(bins, k + 1);
    } else {
      assert bins[..k] == bins;
    }
  }

  /** Every summary of a run is consistent, and there is one per binary. */
  lemma {:induction false} ScoredConsistent(bins: seq<Binary>)
    requires Scored(bins).Ok?
    ensures |Scored(bins).value| == |bins|
    ensures forall i :: 0 <= i < |bins| ==> Consistent(Scored(bins).value[i])
  {
    if bins != [] {
      var b := bins[|bins| - 1];
      ScoredConsistent(bins[..|bins| - 1]);
      match Setup(b.predLines, b.symLines)
      case Ok((myGt, sym, region)) =>
        SummaryConsistent(myGt, sym, region);
    }
  }

  /** `res` after the binaries `ids` with summaries `ss`: a later name overwrites an earlier one. */
  function ResOf(ids: seq<string>, ss: seq<FileSummary>): (res: map<string, FileSummary>)
    requires |ids| == |ss|
    ensures forall i :: 0 <= i < |ids| ==> ids[i] in res
  {
    if ids == [] then map[]
    else ResOf(ids[..|ids| - 1], ss[..|ss| - 1])[ids[|ids| - 1] := ss[|ss| - 1]]
  }

  /** No name occurs twice. */
  predicate Distinct(ids: seq<string>) {
    forall i, j :: 0 <= i < j < |ids| ==> ids[i] != ids[j]
  }

  /** With distinct names, the summary of the `i`-th binary is kept under its name. */
  lemma {:induction false} ResOfAt(ids: seq<string>, ss: seq<FileSummary>, i: nat)
    requires |ids| == |ss| && Distinct(ids) && i < |ids|
    ensures ids[i] in ResOf(ids, ss) && ResOf(ids, ss)[ids[i]] == ss[i]
    decreases |ids|
  {
    var n := |ids| - 1;
    if i < n {
      var init := ids[..n];
      assert Distinct(init) by {
        forall a, b | 0 <= a < b < |init| ensures init[a] != init[b] {
          assert init[a] == ids[a] && init[b] == ids[b];
        }
      }
      ResOfAt(init, ss[..n], i);
      assert init[i] == ids[i] != ids[n];
    }
  }

  /** With distinct names, each binary's summary is kept under its own name. */
  lemma ResOfDistinct(ids: seq<string>, ss: seq<FileSummary>)
    requires |ids| == |ss| && Distinct(ids)
    ensures forall i :: 0 <= i < |ids| ==> ResOf(ids, ss)[ids[i]] == ss[i]
  {
    forall i | 0 <= i < |ids|
      ensures ResOf(ids, ss)[ids[i]] == ss[i]
    {
      ResOfAt(ids, ss, i);
    }
  }

  /** Every name scored is kept in `res` with a non-empty ground truth. */
  predicate Scorable(ids: seq<string>, res: map<string, FileSummary>) {
    forall i :: 0 <= i < |ids| ==> ids[i] in res && res[ids[i]].counts.gt > 0
  }

  /** Whatever `res` holds is one of the summaries, so it is consistent when they all are. */
  lemma {:induction false} ResOfConsistent(ids: seq<string>, ss: seq<FileSummary>)
    requires |ids| == |ss|
    requires forall i :: 0 <= i < |ss| ==> Consistent(ss[i])
    ensures forall id :: id in ResOf(ids, ss) ==> Consistent(ResOf(ids, ss)[id])
  {
    if ids != [] {
      var n := |ids| - 1;
      ResOfConsistent(ids[..n], ss[..n]);
    }
  }

  lemma ResOfScorable(ids: seq<string>, ss: seq<FileSummary>)
    requires |ids| == |ss|
    requires forall i :: 0 <= i < |ss| ==> Consistent(ss[i])
    ensures Scorable(ids, ResOf(ids, ss))
    ensures forall id :: id in ids ==> id in ResOf(ids, ss)
  {
    ResOfConsistent(ids, ss);
  }

  /** What the rankings of `category` read for one binary. */
  function StatOf(s: FileSummary, c: Column): real {
    if IsRatio(c) then RatioOf(s, c) else CountOf(s, c) as real
  }

  /** `res[category].items()`, in insertion order. */
  function ItemsOf(ids: seq<string>, res: map<string, FileSummary>, c: Column): (items: seq<Entry>)
    requires Scorable(ids, res)
    ensures |items| == |ids|
  {
    seq(|ids|, i requires 0 <= i < |ids| => Entry(ids[i], StatOf(res[ids[i]], c), res[ids[i]].counts.gt))
  }

  /** The categories ranked by their five largest values, in print order. */
  const TopCategories: seq<Column> := [LongBd, ShortBd, FpSt, Missing]

  /** `res[statType].items()` for each category of `cats`, in order. */
  function CategoryItems(ids: seq<string>, res: map<string, FileSummary>, cats: seq<Column>): (lists: seq<seq<Entry>>)
    requires Scorable(ids, res)
    ensures |lists| == |cats|
  {
    seq(|cats|, k requires 0 <= k < |cats| => ItemsOf(ids, res, cats[k]))
  }

  /** The top-five block of each list, in order. */
  function TopBlocksOf(lists: seq<seq<Entry>>): (top: seq<Block>)
    ensures |top| == |lists|
  {
    if lists == [] then [] else TopBlocksOf(lists[..|lists| - 1]) + [TopBlockOf(lists[|lists| - 1])]
  }

  /** The console summary, present only when none of the corpus divisions fails. */
  function ConsoleOf(ids: seq<string>, res: map<string, FileSummary>, totals: Totals): Option<Console>
    requires Scorable(ids, res)
  {
    match CorpusSummary(totals)
    case None => None
    case Some(corpus) => Some(Console(corpus, TopBlocksOf(CategoryItems(ids, res, TopCategories)), BottomBlockOf(ItemsOf(ids, res, F1St))))
  }

  /** `results1.csv`, from the last binary scored. */
  function Results1Of(last: FileSummary): seq<string> {
    [Results1Header] + Results1Rows(
      SortedKeys(last.short.Keys), SortedKeys(last.longGuess.Keys), SortedKeys(last.missing.Keys),
      Max3(|last.short|, |last.longGuess|, |last.missing|))
  }

  /** Everything one successful run produces, from the binaries' names and summaries. */
  function ReportOf(ids: seq<string>, ss: seq<FileSummary>): Report
    requires |ids| == |ss| > 0
    requires forall i :: 0 <= i < |ss| ==> Consistent(ss[i])
  {
    var res := ResOf(ids, ss);
    ResOfScorable(ids, ss);
    var totals := SumTotals(ss);
    Report(
      Join(["name"] + Names(Categories)), ResultsRowsOf(ids, res), Results1Of(ss[|ss| - 1]),
      totals, ConsoleOf(ids, res, totals))
  }

  /** The loop over the top-five categories, given each category's items. */
  method TopBlocks(lists: seq<seq<Entry>>) returns (top: seq<Block>)
    ensures top == TopBlocksOf(lists)
  {
    top := [];
    for k := 0 to |lists|
      invariant top == TopBlocksOf(lists[..k])
    {
      assert lists[..k + 1][..k] == lists[..k];
      var block := TopBlock(lists[k]);
      top := top + [block];
    }
    assert lists[..|lists|] == lists;
  }

  /** The console part: the corpus triples, then the five rankings. */
  method PrintSummary(ids: seq<string>, res: map<string, FileSummary>, totals: Totals) returns (console: Option<Console>)
    requires Scorable(ids, res)
    ensures console == ConsoleOf(ids, res, totals)
  {
    var corpus := CorpusSummary(totals);
    if corpus.None? {
      return None;
    }
    var top := TopBlocks(CategoryItems(ids, res, TopCategories));
    var bottom := BottomBlock(ItemsOf(ids, res, F1St));
    console := Some(Console(corpus.value, top, bottom));
  }

  /** The loop's state after the first `i` binaries, all of them readable. */
  predicate Progress(
    bins: seq<Binary>, i: nat, ss: seq<FileSummary>,
    fileIds: seq<string>, res: map<string, FileSummary>, totals: Totals, last: FileSummary)
  {
    && i <= |bins| && Scored(bins[..i]) == Ok(ss) && |ss| == i
    && fileIds == Ids(bins[..i]) && res == ResOf(fileIds, ss) && totals == SumTotals(ss)
    && (i > 0 ==> last == ss[i - 1])
  }

  lemma ProgressStep(
    bins: seq<Binary>, i: nat, ss: seq<FileSummary>,
    fileIds: seq<string>, res: map<string, FileSummary>, totals: Totals, last: FileSummary, s: FileSummary)
    requires Progress(bins, i, ss, fileIds, res, totals, last) && i < |bins|
    requires Scored(bins[..i + 1]) == Ok(ss + [s])
    ensures Progress(bins, i + 1, ss + [s], fileIds + [bins[i].id], res[bins[i].id := s], AddFile(totals, s), s)
  {
    IdsStep(bins, i);
    ResOfStep(fileIds, ss, bins[i].id, s);
    SumTotalsStep(ss, s);
  }

  lemma ResOfStep(ids: seq<string>, ss: seq<FileSummary>, id: string, s: FileSummary)
    requires |ids| == |ss|
    ensures ResOf(ids + [id], ss + [s]) == ResOf(ids, ss)[id := s]
  {
    assert (ids + [id])[..|ids|] == ids;
    assert (ss + [s])[..|ss|] == ss;
  }

  lemma SumTotalsStep(ss: seq<FileSummary>, s: FileSummary)
    ensures SumTotals(ss + [s]) == AddFile(SumTotals(ss), s)
  {
    assert (ss + [s])[..|ss|] == ss;
  }

  lemma ScoredStep(bins: seq<Binary>, i: nat, ss: seq<FileSummary>, s: FileSummary)
    requires i < |bins| && Scored(bins[..i]) == Ok(ss)
    requires Expected(bins[i].predLines, bins[i].symLines) == Ok(s)
    ensures Scored(bins[..i + 1]) == Ok(ss + [s])
  {
    assert bins[..i + 1][..i] == bins[..i];
  }

  lemma IdsStep(bins: seq<Binary>, i: nat)
    requires i < |bins|
    ensures Ids(bins[..i + 1]) == Ids(bins[..i]) + [bins[i].id]
  {
  }

  lemma ProgressFails(
    bins: seq<Binary>, i: nat, ss: seq<FileSummary>,
    fileIds: seq<string>, res: map<string, FileSummary>, totals: Totals, last: FileSummary)
    requires Progress(bins, i, ss, fileIds, res, totals, last) && i < |bins|
    requires Expected(bins[i].predLines, bins[i].symLines).Err?
    ensures Scored(bins) == Err(Unreadable(bins[i].id, Expected(bins[i].predLines, bins[i].symLines).error))
  {
    assert bins[..i + 1][..i] == bins[..i];
    ScoredErrorSticks(bins, i + 1);
  }

  /** A summary the loop starts from before any binary is scored. */
  const Blank := FileSummary(
    map[], map[], map[], map[], map[], FileCounts(0, 0, 0, 0, 0, 0, 0, 0), Scores(0.0, 0.0, 0.0, 0.0, 0.0, 0.0))

  /**
    The per-binary loop: score each binary in turn, keeping its summary
    under its name and adding it to the totals; the first binary whose
    files cannot be read stops the loop.
  */
  method ScoreAll(bins: seq<Binary>)
    returns (failed: Option<RunError>, fileIds: seq<string>, res: map<string, FileSummary>, totals: Totals, last: FileSummary)
    ensures failed.Some? <==> Scored(bins).Err?
    ensures failed.Some? ==> failed.value == Scored(bins).error
    ensures failed.None? ==> (
      && |Scored(bins).value| == |bins| && fileIds == Ids(bins)
      && res == ResOf(fileIds, Scored(bins).value) && totals == SumTotals(Scored(bins).value)
      && (bins != [] ==> last == Scored(bins).value[|bins| - 1]))
  {
    res, fileIds, totals, last := map[], [], Totals(0, 0, 0, 0, 0, 0), Blank;
    ghost var ss: seq<FileSummary> := [];
    for i := 0 to |bins|
      invariant Progress(bins, i, ss, fileIds, res, totals, last)
    {
      var b := bins[i];
      var f := ScoreFile(b.predLines, b.symLines);
      if f.Err? {
        ProgressFails(bins, i, ss, fileIds, res, totals, last);
        return Some(Unreadable(b.id, f.error)), fileIds, res, totals, last;
      }
      var s := f.value.summary;
      ScoredStep(bins, i, ss, s);
      ProgressStep(bins, i, ss, fileIds, res, totals, last, s);
      fileIds, res, totals, last := fileIds + [b.id], res[b.id := s], AddFile(totals, s), s;
      ss := ss + [s];
    }
    assert bins[..|bins|] == bins;
    failed := None;
  }

  /** The whole run: the per-binary loop, then the two files and the console summary. */
  method Evaluate(bins: seq<Binary>) returns (r: Result<Report, RunError>)
    ensures bins == [] ==> r == Err(NoBinaries)
    ensures bins != [] ==> (r.Ok? <==> Scored(bins).Ok?)
    ensures bins != [] && r.Err? ==> r == Err(Scored(bins).error)
    ensures r.Ok? ==> (
      && Scored(bins).Ok? && |Scored(bins).value| == |bins| > 0
      && (ScoredConsistent(bins); r.value == ReportOf(Ids(bins), Scored(bins).value)))
  {
    var failed, fileIds, res, totals, last := ScoreAll(bins);
    if failed.Some? {
      return Err(failed.value);
    }
    if |bins| == 0 {
      return Err(NoBinaries);
    }
    ghost var ss := Scored(bins).value;
    ScoredConsistent(bins);
    ResOfScorable(fileIds, ss);
    var header := ResultsHeader();
    var rows := ResultsRows(fileIds, res);
    var results1 := Results1Lines(last.short, last.longGuess, last.missing);
    var console := PrintSummary(fileIds, res, totals);
    r := Ok(Report(header, rows, results1, totals, console));
  }
}
