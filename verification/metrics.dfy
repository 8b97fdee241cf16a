/** The screening metrics (`MetricsMixin.compute_screening_metrics`): confusion counts
    over the zipped ground-truth and predicted labels, the asymmetric screening loss,
    and precision, recall and F-beta with their zero-denominator fallback. */
module Metrics {
  import opened Common

  /** Confusion-matrix cells. A false negative is a false exclusion (ground truth
      include, predicted exclude); a false positive is a false inclusion. */
  datatype Confusion = Confusion(tp: nat, tn: nat, fp: nat, fn: nat)

  /** The six values the metrics return, and whether the zero-division warning was issued. */
  datatype ScreeningScores = ScreeningScores(
    precision: real, recall: real, fbeta: real, loss: real,
    fnCount: real, fpCount: real, zeroDivisionWarning: bool)

  /** The cell that one (ground truth, prediction) pair increments. */
  function Cell(g: Label, p: Label): Confusion
  {
    if g == 1 && p == 0 then Confusion(0, 0, 0, 1)
    else if g == 0 && p == 1 then Confusion(0, 0, 1, 0)
    else if g == 1 && p == 1 then Confusion(1, 0, 0, 0)
    else Confusion(0, 1, 0, 0)
  }

  function Add(a: Confusion, b: Confusion): Confusion
  {
    Confusion(a.tp + b.tp, a.tn + b.tn, a.fp + b.fp, a.fn + b.fn)
  }

  function Total(c: Confusion): nat
  {
    c.tp + c.tn + c.fp + c.fn
  }

  /** Confusion counts over two equally long label sequences. */
  function Tally(g: seq<Label>, p: seq<Label>): Confusion
    requires |g| == |p|
  {
    if g == [] then Confusion(0, 0, 0, 0)
    else
      var n := |g| - 1;
      Add(Tally(g[..n], p[..n]), Cell(g[n], p[n]))
  }

  /** The number of pairs `zip(gt, predicted)` yields. */
  function Zipped(gt: seq<Label>, predicted: seq<Label>): nat
  {
    if |gt| < |predicted| then |gt| else |predicted|
  }

  /** Confusion counts over the zipped pairs. */
  function ZippedTally(gt: seq<Label>, predicted: seq<Label>): Confusion
  {
    var n := Zipped(gt, predicted);
    Tally(gt[..n], predicted[..n])
  }

  /** The loss numerator: each false exclusion costs `lr`, each false inclusion 1. */
  function LossNumerator(c: Confusion, lr: real): real
  {
    c.fn as real * lr + c.fp as real
  }

  /** The loss, precision, recall and F-beta computed from the counts; precision,
      recall and F-beta fall back to zero, with a warning, on a zero denominator. */
  function Scores(tp: real, fn: real, fp: real, total: nat, lr: real, beta: real): ScreeningScores
    requires total > 0
  {
    var loss := (fn * lr + fp) / total as real;
    if tp + fn == 0.0 || tp + fp == 0.0 then
      ScreeningScores(0.0, 0.0, 0.0, loss, fn, fp, true)
    else
      var recall := tp / (tp + fn);
      var precision := tp / (tp + fp);
      var denominator := recall + beta * beta * precision;
      if denominator == 0.0 then
        ScreeningScores(0.0, 0.0, 0.0, loss, fn, fp, true)
      else
        ScreeningScores(precision, recall, FBeta(precision, recall, beta), loss, fn, fp, false)
  }

  /** The F-beta score of a precision and a recall. */
  function FBeta(precision: real, recall: real, beta: real): real
    requires recall + beta * beta * precision != 0.0
  {
    (beta * beta + 1.0) * precision * recall / (recall + beta * beta * precision)
  }

  /** The value of `compute_screening_metrics(gt, predicted, lr, beta)`; `Err` is the
      uncaught ZeroDivisionError of an empty ground truth. */
  function ScreeningMetrics(gt: seq<Label>, predicted: seq<Label>, lr: real, beta: real): Result<ScreeningScores>
  {
    if |gt| == 0 then Err(ZeroDivision)
    else
      var c := ZippedTally(gt, predicted);
      Ok(Scores(c.tp as real, c.fn as real, c.fp as real, |gt|, lr, beta))
  }

  /** The counting loop of `compute_screening_metrics`, followed by the loss and the
      guarded precision, recall and F-beta. */
  method ComputeScreeningMetrics(gt: seq<Label>, predicted: seq<Label>, lr: real, beta: real)
    returns (r: Result<ScreeningScores>)
    ensures r == ScreeningMetrics(gt, predicted, lr, beta)
  {
    // The counts are whole numbers: the floating-point counters of the source hold
    // them exactly, so they are kept as naturals here.
    var fp, fn, tp, tn := 0, 0, 0, 0;
    var n := Zipped(gt, predicted);
    var i := 0;
    while i < n
      invariant 0 <= i <= n
      invariant Tally(gt[..i], predicted[..i]) == Confusion(tp, tn, fp, fn)
    {
      var g, p := gt[i], predicted[i];
      assert gt[..i + 1] == gt[..i] + [g] && predicted[..i + 1] == predicted[..i] + [p];
      TallyAppend(gt[..i], predicted[..i], g, p);
      if g == 1 && p == 0 { fn := fn + 1; }
      if g == 0 && p == 1 { fp := fp + 1; }
      if g == 1 && p == 1 { tp := tp + 1; }
      if g == 0 && p == 0 { tn := tn + 1; }
      i := i + 1;
    }
    if |gt| == 0 {
      return Err(ZeroDivision);
    }
    r := Ok(Scores(tp as real, fn as real, fp as real, |gt|, lr, beta));
  }

  /** Every pair increments exactly one cell, so the four counts add up to the
      number of pairs. */
  lemma {:induction false} TallyCountsEveryPair(g: seq<Label>, p: seq<Label>)
    requires |g| == |p|
    ensures Total(Tally(g, p)) == |g|
  {
    if g != [] {
      var n := |g| - 1;
      TallyCountsEveryPair(g[..n], p[..n]);
      assert Tally(g, p) == Add(Tally(g[..n], p[..n]), Cell(g[n], p[n]));
      assert Total(Cell(g[n], p[n])) == 1;
    }
  }

  /** The four counts of the metrics add up to the number of zipped pairs. */
  lemma ConfusionCountsPartitionPairs(gt: seq<Label>, predicted: seq<Label>)
    ensures Total(ZippedTally(gt, predicted)) == Zipped(gt, predicted)
  {
    var n := Zipped(gt, predicted);
    TallyCountsEveryPair(gt[..n], predicted[..n]);
  }

  /** Appending one pair to both label sequences adds that pair's cell. */
  lemma {:induction false} TallyAppend(g: seq<Label>, p: seq<Label>, a: Label, b: Label)
    requires |g| == |p|
    ensures Tally(g + [a], p + [b]) == Add(Tally(g, p), Cell(a, b))
  {
    var ga, pb := g + [a], p + [b];
    assert ga[..|g|] == g && pb[..|g|] == p;
    assert ga[|g|] == a && pb[|g|] == b;
  }

  /** The loss numerator of one more cell. */
  lemma CellWeight(c: Confusion, a: Label, b: Label, lr: real)
    ensures LossNumerator(Add(c, Cell(a, b)), lr) ==
      LossNumerator(c, lr) + (if a == 1 && b == 0 then lr else if a == 0 && b == 1 then 1.0 else 0.0)
  {
  }

  /** One more pair raises the loss numerator by `lr` for a false exclusion, by 1 for a
      false inclusion, and not at all for a correct label. */
  lemma LossWeighsErrors(g: seq<Label>, p: seq<Label>, a: Label, b: Label, lr: real)
    requires |g| == |p|
    ensures LossNumerator(Tally(g + [a], p + [b]), lr) ==
      LossNumerator(Tally(g, p), lr) + (if a == 1 && b == 0 then lr else if a == 0 && b == 1 then 1.0 else 0.0)
  {
    TallyAppend(g, p, a, b);
    CellWeight(Tally(g, p), a, b, lr);
  }

  /** The loss is never negative when false exclusions are not rewarded. */
  lemma LossNonNegative(gt: seq<Label>, predicted: seq<Label>, lr: real, beta: real)
    requires lr >= 0.0 && |gt| > 0
    ensures ScreeningMetrics(gt, predicted, lr, beta).Ok?
    ensures ScreeningMetrics(gt, predicted, lr, beta).value.loss >= 0.0
  {
    var c := ZippedTally(gt, predicted);
    assert LossNumerator(c, lr) >= 0.0;
  }

  /** From non-negative counts, the scores fall back to zero, with a warning, exactly
      when there is no true positive; otherwise precision, recall and F-beta are proper
      fractions in (0, 1]. */
  lemma {:induction false} ScoresFallbackIffNoTruePositive(tp: real, fn: real, fp: real, total: nat, lr: real, beta: real)
    requires tp >= 0.0 && fn >= 0.0 && fp >= 0.0 && total > 0
    ensures var s := Scores(tp, fn, fp, total, lr, beta);
      && (s.zeroDivisionWarning <==> tp == 0.0)
      && (s.zeroDivisionWarning ==> s.precision == 0.0 && s.recall == 0.0 && s.fbeta == 0.0)
      && (!s.zeroDivisionWarning ==>
            && 0.0 < s.precision <= 1.0 && 0.0 < s.recall <= 1.0 && 0.0 < s.fbeta <= 1.0)
  {
    if tp > 0.0 {
      FractionInUnit(tp, tp + fn);
      FractionInUnit(tp, tp + fp);
      FBetaInUnit(tp / (tp + fp), tp / (tp + fn), beta);
    } else {
      assert tp == 0.0;
      if tp + fn != 0.0 && tp + fp != 0.0 {
        assert tp / (tp + fn) == 0.0 && tp / (tp + fp) == 0.0;
      }
    }
  }

  /** F-beta of proper fractions is a proper fraction: it is a weighted harmonic mean. */
  lemma FBetaInUnit(precision: real, recall: real, beta: real)
    requires 0.0 < precision <= 1.0 && 0.0 < recall <= 1.0
    ensures recall + beta * beta * precision > 0.0
    ensures 0.0 < FBeta(precision, recall, beta) <= 1.0
  {
    var b2 := beta * beta;
    var weighted := b2 * precision;
    assert weighted >= 0.0 by {
      assert b2 >= 0.0;
    }
    var d := recall + weighted;
    var pr := precision * recall;
    assert 0.0 < pr <= recall by {
      ScaleDown(precision, recall);
    }
    var wr := weighted * recall;
    assert wr <= weighted by {
      ScaleDown(recall, weighted);
    }
    var num := (b2 + 1.0) * precision * recall;
    assert num == pr + wr by {
      Distribute(b2, precision, recall);
    }
    assert 0.0 < num <= d;
    FractionInUnit(num, d);
    assert FBeta(precision, recall, beta) == num / d;
  }

  lemma Distribute(w: real, x: real, y: real)
    ensures (w + 1.0) * x * y == x * y + w * x * y
  {
  }

  lemma FractionInUnit(x: real, y: real)
    requires 0.0 < x <= y
    ensures 0.0 < x / y <= 1.0
  {
  }

  lemma ScaleDown(a: real, b: real)
    requires 0.0 < a <= 1.0 && b >= 0.0
    ensures 0.0 <= a * b <= b && (b > 0.0 ==> a * b > 0.0)
  {
  }

  /** The metrics fail exactly on an empty ground truth; otherwise they fall back to
      zero, with a warning, exactly when no pair is a true positive. */
  lemma FallbackIffNoTruePositive(gt: seq<Label>, predicted: seq<Label>, lr: real, beta: real)
    ensures ScreeningMetrics(gt, predicted, lr, beta).Ok? <==> |gt| > 0
    ensures |gt| > 0 ==>
      var s := ScreeningMetrics(gt, predicted, lr, beta).value;
      && (s.zeroDivisionWarning <==> ZippedTally(gt, predicted).tp == 0)
      && (s.zeroDivisionWarning ==> s.precision == 0.0 && s.recall == 0.0 && s.fbeta == 0.0)
      && (!s.zeroDivisionWarning ==>
            && 0.0 < s.precision <= 1.0 && 0.0 < s.recall <= 1.0 && 0.0 < s.fbeta <= 1.0)
  {
    if |gt| > 0 {
      var c := ZippedTally(gt, predicted);
      ScoresFallbackIffNoTruePositive(c.tp as real, c.fn as real, c.fp as real, |gt|, lr, beta);
    }
  }

  /** One of each cell, with a false exclusion costing 5: every score is one half and the
      loss is (5 + 1) / 4. */
  lemma WorkedExample()
    ensures Scores(1.0, 1.0, 1.0, 4, 5.0, 3.0) == ScreeningScores(0.5, 0.5, 0.5, 1.5, 1.0, 1.0, false)
  {
  }
}
