/**
  The corpus-wide figures (scripts/countMatch.py:297-302, 356-369): running
  totals of the per-binary dict sizes, and three precision/recall/F1
  triples over them — for starts (matches, longs and shorts are hits), for
  boundaries counting shorts as hits, and for strict boundaries (matches
  only).  All three share one precision denominator, the number of scored
  predictions, and one recall denominator, the ground-truth total.  The
  script divides without guards here, so a triple exists only when nothing
  it divides by is zero.
*/
module Corpus {
  import opened Wrappers
  import opened Tables
  import opened Metrics
  import opened Scoring

  datatype Totals = Totals(matches: nat, longs: nat, shorts: nat, gts: nat, others: nat, missings: nat)

  /** The additions the script makes after scoring one binary. */
  function AddFile(t: Totals, s: FileSummary): Totals {
    Totals(
      t.matches + |s.matched|, t.longs + |s.longGuess|, t.shorts + |s.short|,
      t.gts + s.counts.gt, t.others + |s.other|, t.missings + |s.missing|)
  }

  /** The totals after the binaries `files`, in order. */
  function SumTotals(files: seq<FileSummary>): Totals {
    if files == [] then Totals(0, 0, 0, 0, 0, 0)
    else AddFile(SumTotals(files[..|files| - 1]), files[|files| - 1])
  }

  /** What every summary `Summarize` produces satisfies: hits within the ground truth, which is not empty. */
  predicate Consistent(s: FileSummary) {
    |s.matched| + |s.longGuess| + |s.short| <= s.counts.gt && s.counts.gt > 0
  }

  /** Every binary scored from its tables is consistent. */
  lemma SummaryConsistent(myGt: Table, sym: Table, region: (int, int))
    requires sym != map[]
    ensures Consistent(Summarize(myGt, sym, region))
  {
    SummaryBounded(myGt, sym, region);
  }

  /** Start-level hits never exceed the ground-truth total, and every binary adds to that total. */
  lemma {:induction false} SumTotalsBounded(files: seq<FileSummary>)
    requires forall i :: 0 <= i < |files| ==> Consistent(files[i])
    ensures var t := SumTotals(files); t.matches + t.longs + t.shorts <= t.gts
    ensures SumTotals(files).gts >= |files|
  {
    if files != [] {
      SumTotalsBounded(files[..|files| - 1]);
    }
  }

  /** One precision/recall/F1 triple. */
  datatype Triple = Triple(precision: real, recall: real, f1: real)

  /**
    `hits/predicted`, `hits/gts` and their harmonic mean, or nothing when
    one of the three divisions would divide by zero (also when `hits` is 0,
    which makes both ratios 0 and so their sum).
  */
  function CorpusTriple(hits: nat, predicted: nat, gts: nat): (r: Option<Triple>)
    ensures r.Some? <==> hits > 0 && predicted > 0 && gts > 0
  {
    if predicted == 0 || gts == 0 then None
    else
      var precision := hits as real / predicted as real;
      var recall := hits as real / gts as real;
      if precision + recall == 0.0 then None
      else Some(Triple(precision, recall, 2.0 * precision * recall / (precision + recall)))
  }

  /** F1 of a triple in closed form: twice the hits over predictions plus ground truth. */
  lemma CorpusF1ClosedForm(hits: nat, predicted: nat, gts: nat)
    requires CorpusTriple(hits, predicted, gts).Some?
    ensures CorpusTriple(hits, predicted, gts).value.f1 == 2.0 * hits as real / (predicted + gts) as real
  {
    HarmonicOfRatios(hits as real, predicted as real, gts as real);
  }

  /** With no more hits than predictions or ground truth, the triple lies in (0,1]. */
  lemma CorpusTripleBounded(hits: nat, predicted: nat, gts: nat)
    requires 0 < hits <= predicted && hits <= gts
    ensures var t := CorpusTriple(hits, predicted, gts).value;
      && 0.0 < t.precision <= 1.0 && 0.0 < t.recall <= 1.0 && 0.0 < t.f1 <= 1.0
  {
    PositiveRatioAtMostOne(hits as real, predicted as real);
    PositiveRatioAtMostOne(hits as real, gts as real);
    CorpusF1ClosedForm(hits, predicted, gts);
    PositiveRatioAtMostOne(2.0 * hits as real, (predicted + gts) as real);
  }

  lemma PositiveRatioAtMostOne(a: real, d: real)
    requires 0.0 < a <= d
    ensures 0.0 < a / d <= 1.0
  {
    RatioMonotone(a, d, d);
  }

  /** More hits over the same denominators: every ratio of the triple is at least as large. */
  lemma CorpusTripleMonotone(h1: nat, h2: nat, predicted: nat, gts: nat)
    requires 0 < h1 <= h2 && predicted > 0 && gts > 0
    ensures var a, b := CorpusTriple(h1, predicted, gts).value, CorpusTriple(h2, predicted, gts).value;
      a.precision <= b.precision && a.recall <= b.recall && a.f1 <= b.f1
  {
    RatioMonotone(h1 as real, h2 as real, predicted as real);
    RatioMonotone(h1 as real, h2 as real, gts as real);
    CorpusF1ClosedForm(h1, predicted, gts);
    CorpusF1ClosedForm(h2, predicted, gts);
    RatioMonotone(2.0 * h1 as real, 2.0 * h2 as real, (predicted + gts) as real);
  }

  /** The three triples the script prints: starts, boundaries with shorts, strict boundaries. */
  datatype CorpusScores = CorpusScores(starts: Triple, boundaryAndShorts: Triple, boundary: Triple)

  /** Every prediction the passes scored: the shared precision denominator. */
  function Predicted(t: Totals): nat {
    t.matches + t.longs + t.shorts + t.others
  }

  /** The three triples, in the order the script computes them; none when any division fails. */
  function CorpusSummary(t: Totals): Option<CorpusScores> {
    var starts := CorpusTriple(t.matches + t.longs + t.shorts, Predicted(t), t.gts);
    var withShorts := CorpusTriple(t.matches + t.shorts, Predicted(t), t.gts);
    var boundary := CorpusTriple(t.matches, Predicted(t), t.gts);
    if starts.Some? && withShorts.Some? && boundary.Some? then
      Some(CorpusScores(starts.value, withShorts.value, boundary.value))
    else None
  }

  /** The summary exists exactly when some prediction was a strict boundary match and there is ground truth. */
  lemma CorpusSummaryDefined(t: Totals)
    ensures CorpusSummary(t).Some? <==> t.matches > 0 && t.gts > 0
  {
  }

  /**
    Strict boundary <= boundary with shorts <= starts, in precision, in
    recall and in F1; and, when the hits stay within the ground truth, all
    nine figures lie in (0,1].
  */
  lemma CorpusOrdering(t: Totals)
    requires CorpusSummary(t).Some?
    ensures var c := CorpusSummary(t).value;
      && c.boundary.precision <= c.boundaryAndShorts.precision <= c.starts.precision
      && c.boundary.recall <= c.boundaryAndShorts.recall <= c.starts.recall
      && c.boundary.f1 <= c.boundaryAndShorts.f1 <= c.starts.f1
    ensures t.matches + t.longs + t.shorts <= t.gts ==>
      var c := CorpusSummary(t).value;
      && 0.0 < c.starts.precision <= 1.0 && 0.0 < c.starts.recall <= 1.0 && 0.0 < c.starts.f1 <= 1.0
      && 0.0 < c.boundaryAndShorts.precision <= 1.0 && 0.0 < c.boundaryAndShorts.recall <= 1.0
      && 0.0 < c.boundaryAndShorts.f1 <= 1.0
      && 0.0 < c.boundary.precision <= 1.0 && 0.0 < c.boundary.recall <= 1.0 && 0.0 < c.boundary.f1 <= 1.0
  {
    var n, g := Predicted(t), t.gts;
    CorpusTripleMonotone(t.matches, t.matches + t.shorts, n, g);
    CorpusTripleMonotone(t.matches + t.shorts, t.matches + t.longs + t.shorts, n, g);
    if t.matches + t.longs + t.shorts <= t.gts {
      CorpusTripleBounded(t.matches + t.longs + t.shorts, n, g);
      CorpusTripleBounded(t.matches + t.shorts, n, g);
      CorpusTripleBounded(t.matches, n, g);
    }
  }

  /** Over binaries scored by `Summarize`, the summary, when it exists, lies in (0,1] throughout. */
  lemma CorpusOfSummaries(files: seq<FileSummary>)
    requires forall i :: 0 <= i < |files| ==> Consistent(files[i])
    requires CorpusSummary(SumTotals(files)).Some?
    ensures var c := CorpusSummary(SumTotals(files)).value;
      c.starts.f1 <= 1.0 && c.starts.recall <= 1.0 && c.boundary.precision > 0.0
  {
    SumTotalsBounded(files);
    CorpusOrdering(SumTotals(files));
  }
}
