/**
  Precision, recall and F1 of one binary (scripts/countMatch.py:242-262),
  at start level (`St`: was a true start reported?) and boundary level
  (`Bd`: was it reported with an acceptable length?).  Ratios are exact
  `real`s.
*/
module Metrics {

  /** The eight integer categories the script keeps per binary, in `res[cat][fId]`. */
  datatype FileCounts = FileCounts(
    fpSt: nat, fpBd: nat, tpSt: nat, tpBd: nat, longBd: nat, shortBd: nat, missing: nat, gt: nat)

  /** The six ratio categories. */
  datatype Scores = Scores(precSt: real, recallSt: real, f1St: real, precBd: real, recallBd: real, f1Bd: real)

  function Min(x: real, y: real): real { if x <= y then x else y }
  function Max(x: real, y: real): real { if x <= y then y else x }

  /** `tp/(tp+fp)`, guarded to 0 when there is no true positive. */
  function Precision(tp: nat, fp: nat): (r: real)
    ensures 0.0 <= r <= 1.0
    ensures r == 0.0 <==> tp == 0
    ensures r == 1.0 <==> tp > 0 && fp == 0
  {
    if tp == 0 then 0.0 else tp as real / (tp + fp) as real
  }

  /** `tp/gt`; the script divides unguarded, so `gt` must be positive. */
  function Recall(tp: nat, gt: nat): (r: real)
    requires gt > 0
    ensures 0.0 <= r
    ensures r <= 1.0 <==> tp <= gt
    ensures r == 1.0 <==> tp == gt
  {
    tp as real / gt as real
  }

  /** The harmonic mean of precision and recall, guarded to 0 when precision is 0. */
  function F1(precision: real, recall: real): (f: real)
    requires 0.0 <= precision && 0.0 <= recall
    ensures f == 0.0 <==> precision == 0.0 || recall == 0.0
    ensures precision > 0.0 ==> Min(precision, recall) <= f <= Max(precision, recall)
    ensures precision <= 1.0 && recall <= 1.0 ==> 0.0 <= f <= 1.0
  {
    if precision == 0.0 then 0.0
    else
      var f := 2.0 * precision * recall / (precision + recall);
      HarmonicBetween(precision, recall);
      f
  }

  /** Dividing both sides of an inequality by a positive number. */
  lemma CancelPositive(a: real, b: real, d: real)
    requires d > 0.0 && a * d <= b * d
    ensures a <= b
  {
    assert (b - a) * d == b * d - a * d;
  }

  lemma HarmonicBetween(p: real, r: real)
    requires 0.0 < p && 0.0 <= r
    ensures Min(p, r) <= 2.0 * p * r / (p + r) <= Max(p, r)
    ensures 2.0 * p * r / (p + r) == 0.0 <==> r == 0.0
  {
    var s := p + r;
    var w := 2.0 * p * r;
    var f := w / s;
    assert f * s == w;
    var lo, hi := Min(p, r), Max(p, r);
    assert lo * s <= w by {
      assert lo * p <= r * p && lo * r <= p * r;
    }
    assert w <= hi * s by {
      assert p * r <= hi * r && r * p <= hi * p;
    }
    CancelPositive(lo, f, s);
    CancelPositive(f, hi, s);
    if r > 0.0 {
      assert w > 0.0;
    }
  }

  /** The scores `_main` derives from a binary's counts. */
  function FileScores(c: FileCounts): Scores
    requires c.gt > 0
  {
    var precSt := Precision(c.tpSt, c.fpSt);
    var precBd := Precision(c.tpBd, c.fpBd);
    var recallSt := Recall(c.tpSt, c.gt);
    var recallBd := Recall(c.tpBd, c.gt);
    Scores(precSt, recallSt, F1(precSt, recallSt), precBd, recallBd, F1(precBd, recallBd))
  }

  /** With `tpBd <= tpSt <= gt`, as Pass 1 and Pass 2 guarantee, every score lies in [0,1]. */
  lemma ScoresBounded(c: FileCounts)
    requires 0 < c.gt && c.tpBd <= c.tpSt <= c.gt
    ensures var s := FileScores(c);
      && 0.0 <= s.precSt <= 1.0 && 0.0 <= s.recallSt <= 1.0 && 0.0 <= s.f1St <= 1.0
      && 0.0 <= s.precBd <= 1.0 && 0.0 <= s.recallBd <= 1.0 && 0.0 <= s.f1Bd <= 1.0
      && s.recallBd <= s.recallSt
  {
    RatioMonotone(c.tpBd as real, c.tpSt as real, c.gt as real);
  }

  /** A larger numerator over the same positive denominator gives a larger ratio. */
  lemma RatioMonotone(a: real, b: real, d: real)
    requires 0.0 <= a <= b && d > 0.0
    ensures a / d <= b / d
  {
    assert (a / d) * d == a && (b / d) * d == b;
    CancelPositive(a / d, b / d, d);
  }

  /**
    F1 in closed form: twice the hits over predictions plus ground truth,
    `2*tp / ((tp+fp) + gt)`, including the guarded case `tp == 0`.
  */
  lemma F1ClosedForm(tp: nat, fp: nat, gt: nat)
    requires gt > 0
    ensures F1(Precision(tp, fp), Recall(tp, gt)) == 2.0 * tp as real / (tp + fp + gt) as real
  {
    if tp > 0 {
      F1OfHits(tp, fp, gt);
    } else {
      assert Precision(tp, fp) == 0.0;
      assert 2.0 * tp as real == 0.0;
    }
  }

  lemma F1OfHits(tp: nat, fp: nat, gt: nat)
    requires tp > 0 && gt > 0
    ensures F1(Precision(tp, fp), Recall(tp, gt)) == 2.0 * tp as real / (tp + fp + gt) as real
  {
    var t, n, g := tp as real, (tp + fp) as real, gt as real;
    calc {
      F1(Precision(tp, fp), Recall(tp, gt));
      F1(t / n, t / g);
      2.0 * (t / n) * (t / g) / (t / n + t / g);
      { HarmonicOfRatios(t, n, g); }
      2.0 * t / (n + g);
    }
  }

  lemma HarmonicOfRatios(t: real, n: real, g: real)
    requires t > 0.0 && n > 0.0 && g > 0.0
    ensures 2.0 * (t / n) * (t / g) / (t / n + t / g) == 2.0 * t / (n + g)
  {
    var p, r := t / n, t / g;
    assert p + r == t * (n + g) / (n * g);
    assert 2.0 * p * r == 2.0 * t * t / (n * g);
  }

  /** A binary scores F1 = 1 at start level exactly when the tool reported every true start and nothing else. */
  lemma PerfectStartF1(c: FileCounts)
    requires 0 < c.gt && c.tpSt <= c.gt
    ensures FileScores(c).f1St == 1.0 <==> c.fpSt == 0 && c.tpSt == c.gt
  {
    F1ClosedForm(c.tpSt, c.fpSt, c.gt);
  }
}
