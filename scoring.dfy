/**
  Scoring one binary end to end (scripts/countMatch.py:112-262): read the
  two tables, derive the text region and the alignment, run the two passes
  and compute the eight counters and six ratios `res[cat][fId]` holds.
*/
module Scoring {
  import opened Wrappers
  import opened Tables
  import opened Sorting
  import opened Alignment
  import opened Classify
  import opened Metrics

  /** What the four inputs of the passes are, or why the script stops before reaching them. */
  function Setup(predLines: seq<Line>, symLines: seq<Line>): (r: Result<(Table, Table, (int, int)), LoadError>)
    ensures r.Ok? ==> r.value.1 != map[]
  {
    match PredictionTable(predLines)
    case Err(e) => Err(e)
    case Ok(myGt) =>
      match GroundTruthTable(symLines)
      case Err(e) => Err(e)
      case Ok(g) =>
        match TextRegion(g)
        case Err(e) => Err(e)
        case Ok(region) =>
          if g.sym == map[] then Err(EmptyGroundTruth) else Ok((myGt, g.sym, region))
  }

  /** The per-binary outcome that does not depend on dict iteration order. */
  datatype FileSummary = FileSummary(
    matched: Table, longGuess: Table, short: Table, other: Table, missing: Table,
    counts: FileCounts, scores: Scores)

  /** The buried lists' order follows the ground-truth dict's iteration order, so they are kept apart. */
  datatype FileResult = FileResult(summary: FileSummary, buried: map<int, seq<int>>, numBuried: nat)

  /** The eight counters, as sizes of the dicts Pass 1 and Pass 2 fill. */
  function CountsOf(matched: Table, longGuess: Table, short: Table, other: Table, missing: Table, sym: Table): FileCounts {
    FileCounts(
      |other|, |other| + |longGuess| + |short|, |matched| + |longGuess| + |short|, |matched|,
      |longGuess|, |short|, |missing|, |sym|)
  }

  /** The deterministic part of scoring one binary whose tables are `myGt` and `sym`. */
  function Summarize(myGt: Table, sym: Table, region: (int, int)): FileSummary
    requires sym != map[]
  {
    var aligned := Mode(sym);
    var matched := Classified(myGt.Keys, myGt, sym, region, aligned, Match);
    var longGuess := Classified(myGt.Keys, myGt, sym, region, aligned, Long);
    var short := Classified(myGt.Keys, myGt, sym, region, aligned, Short);
    var other := Classified(myGt.Keys, myGt, sym, region, aligned, Other);
    var missing := Missing(myGt, sym);
    var counts := CountsOf(matched, longGuess, short, other, missing, sym);
    FileSummary(matched, longGuess, short, other, missing, counts, FileScores(counts))
  }

  /** What scoring one binary yields, or the error that stops the script. */
  function Expected(predLines: seq<Line>, symLines: seq<Line>): Result<FileSummary, LoadError> {
    match Setup(predLines, symLines)
    case Err(e) => Err(e)
    case Ok((myGt, sym, region)) => Ok(Summarize(myGt, sym, region))
  }

  /**
    The counters of a scored binary satisfy `tpBd <= tpSt <= gt`, the
    identities between them, and every ratio lies in [0,1].
  */
  lemma SummaryBounded(myGt: Table, sym: Table, region: (int, int))
    requires sym != map[]
    ensures var c := Summarize(myGt, sym, region).counts;
      && c.gt == |sym| > 0 && c.tpBd <= c.tpSt <= c.gt
      && c.fpBd == c.fpSt + c.longBd + c.shortBd && c.tpSt == c.tpBd + c.longBd + c.shortBd
    ensures var s := Summarize(myGt, sym, region).scores;
      && 0.0 <= s.precSt <= 1.0 && 0.0 <= s.recallSt <= 1.0 && 0.0 <= s.f1St <= 1.0
      && 0.0 <= s.precBd <= 1.0 && 0.0 <= s.recallBd <= 1.0 && 0.0 <= s.f1Bd <= 1.0
      && s.recallBd <= s.recallSt
  {
    StartHitsBounded(myGt, sym, region, Mode(sym));
    ScoresBounded(Summarize(myGt, sym, region).counts);
  }

  /** Every ground-truth start is either reported (a start-level hit or outside the region) or missing. */
  lemma MissingComplementsReported(myGt: Table, sym: Table, region: (int, int))
    requires sym != map[]
    ensures var s := Summarize(myGt, sym, region);
      forall a :: a in sym ==> (a in s.missing <==> a !in myGt)
    ensures var s := Summarize(myGt, sym, region);
      s.missing.Keys !! (s.matched.Keys + s.longGuess.Keys + s.short.Keys)
  {
  }

  /**
    A prediction of length 0 at a true start of length 32 is short, not a
    match: the zero-length tolerance applies to the TRUE length only.
  */
  lemma ZeroPredictedLengthIsShort()
    ensures var sym, myGt := map[0x100 := 16, 0x120 := 32], map[0x100 := 16, 0x120 := 0];
      CategoryOf(0x100, myGt, sym, 4) == Match && CategoryOf(0x120, myGt, sym, 4) == Short
  {
  }

  /** With alignment 4 a prediction 4 bytes short of the true end is a match. */
  lemma ShortfallUnder16IsMatch()
    ensures CategoryOf(0x200, map[0x200 := 44], map[0x200 := 48], 4) == Match
  {
  }

  /**
    A prediction of 10 bytes at a 20-byte true function is shorter, so it is
    never long; at a 16-byte aligned start the shortfall of 10 makes it a match.
  */
  lemma ShorterPredictionIsNeverLong()
    ensures var sym, myGt := map[0x300 := 20], map[0x300 := 10];
      Mode(sym) == 4 && CategoryOf(0x300, myGt, sym, Mode(sym)) == Match
  {
    var sym := map[0x300 := 20];
    assert sym.Keys == {0x300};
    assert Multiples16(sym.Keys) == {0x300};
  }

  /** The whole per-binary run: both readers, the region, the alignment, both passes, the ratios. */
  method ScoreFile(predLines: seq<Line>, symLines: seq<Line>) returns (r: Result<FileResult, LoadError>)
    ensures r.Ok? <==> Expected(predLines, symLines).Ok?
    ensures r.Err? ==> r.error == Expected(predLines, symLines).error
    ensures r.Ok? ==> r.value.summary == Expected(predLines, symLines).value
    ensures r.Ok? ==>
      && BuriedLists(r.value.buried, r.value.summary.missing.Keys, r.value.summary.longGuess)
      && r.value.numBuried == TotalLength(r.value.buried)
  {
    var pr := LoadPrediction(predLines);
    if pr.Err? {
      return Err(pr.error);
    }
    var myGt := pr.value;
    var gr := LoadGroundTruth(symLines);
    if gr.Err? {
      return Err(gr.error);
    }
    var g := gr.value;
    var reg := TextRegion(g);
    if reg.Err? {
      return Err(reg.error);
    }
    if g.sym == map[] {
      return Err(EmptyGroundTruth);
    }
    var sym, region := g.sym, reg.value;
    var aligned := DetectAlignment(sym);
    var p := ClassifyPredictions(myGt, sym, region, aligned);
    var q := FindMissing(myGt, sym, p.longGuess, p.buried);
    var counts := FileCounts(p.fpSt, p.fpBd, p.tpSt, p.tpBd, p.longBd, p.shortBd, q.missingCount, q.gt);
    assert counts == CountsOf(p.matched, p.longGuess, p.short, p.other, q.missing, sym);
    var summary := FileSummary(p.matched, p.longGuess, p.short, p.other, q.missing, counts, FileScores(counts));
    assert Setup(predLines, symLines) == Ok((myGt, sym, region));
    r := Ok(FileResult(summary, q.buried, q.numBuried));
  }
}
