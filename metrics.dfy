/** Evaluation of binary predictions against true labels, for a designated positive label
    (`trueLabel`) and negative label (`falseLabel`). Labels are compared by value. */
module Metrics {
  import opened Numeric
  import opened Instances

  /** An evaluation measure whose definition is not part of this model (accuracy, recall):
      given trueLabel, falseLabel, the true labels and the predictions, a double or NaN. */
  type Measure = (int, int, seq<int>, seq<int>) -> Value

  /** The immutable result of one evaluation pass; its fields are the four getters. */
  datatype EvaluationMetrics = EvaluationMetrics(accuracy: Value, precision: Value, recall: Value, f1Score: Value)

  datatype Confusion = Confusion(tp: nat, fp: nat, fn: nat, tn: nat) {
    function Total(): nat {
      tp + fp + fn + tn
    }
  }

  /** How one (true label, prediction) pair moves the four counters. */
  function Tally(c: Confusion, y: int, p: int, trueLabel: int, falseLabel: int): Confusion {
    if y == trueLabel then
      (if p == trueLabel then c.(tp := c.tp + 1) else c.(fn := c.fn + 1))
    else if y == falseLabel then
      (if p == falseLabel then c.(tn := c.tn + 1) else c.(fp := c.fp + 1))
    else c
  }

  /** The confusion counts of the first |labels| pairs, tallied in list order. */
  function Count(labels: seq<int>, preds: seq<int>, trueLabel: int, falseLabel: int): Confusion
    requires |preds| >= |labels|
  {
    if labels == [] then Confusion(0, 0, 0, 0)
    else
      var n := |labels| - 1;
      Tally(Count(labels[..n], preds, trueLabel, falseLabel), labels[n], preds[n], trueLabel, falseLabel)
  }

  /** Number of positions whose true label is one of the two designated labels. */
  function Relevant(labels: seq<int>, trueLabel: int, falseLabel: int): (n: nat)
    ensures n <= |labels|
  {
    if labels == [] then 0
    else
      var k := |labels| - 1;
      Relevant(labels[..k], trueLabel, falseLabel)
        + (if labels[k] == trueLabel || labels[k] == falseLabel then 1 else 0)
  }

  /** Every pair whose true label is designated is counted exactly once; the others are not
      counted, so tp + fp + fn + tn never exceeds the number of instances. */
  lemma {:induction false} CountTotal(labels: seq<int>, preds: seq<int>, trueLabel: int, falseLabel: int)
    requires |preds| >= |labels|
    ensures Count(labels, preds, trueLabel, falseLabel).Total() == Relevant(labels, trueLabel, falseLabel)
    ensures Count(labels, preds, trueLabel, falseLabel).Total() <= |labels|
  {
    if labels != [] {
      var n := |labels| - 1;
      CountTotal(labels[..n], preds, trueLabel, falseLabel);
      TallyTotal(Count(labels[..n], preds, trueLabel, falseLabel), labels[n], preds[n], trueLabel, falseLabel);
    }
  }

  /** One pair adds one to the total exactly when its true label is designated. */
  lemma TallyTotal(c: Confusion, y: int, p: int, trueLabel: int, falseLabel: int)
    ensures Tally(c, y, p, trueLabel, falseLabel).Total()
         == c.Total() + (if y == trueLabel || y == falseLabel then 1 else 0)
  {
  }

  /** A positive instance is a true positive exactly when it is predicted positive;
      a negative one is a true negative exactly when it is predicted negative. */
  lemma {:induction false} CountSplitsByPrediction(labels: seq<int>, preds: seq<int>, trueLabel: int, falseLabel: int)
    requires |preds| >= |labels|
    requires trueLabel != falseLabel
    ensures var c := Count(labels, preds, trueLabel, falseLabel);
            c.tp + c.fn == Occurrences(labels, trueLabel) && c.tn + c.fp == Occurrences(labels, falseLabel)
  {
    if labels != [] {
      var n := |labels| - 1;
      CountSplitsByPrediction(labels[..n], preds, trueLabel, falseLabel);
    }
  }

  function Occurrences(s: seq<int>, x: int): (n: nat)
    ensures n <= |s|
  {
    if s == [] then 0 else Occurrences(s[..|s| - 1], x) + (if s[|s| - 1] == x then 1 else 0)
  }

  /** precision = tp / (tp + fp); NaN when nothing was predicted positive among designated pairs. */
  function PrecisionOf(c: Confusion): (r: Value)
    ensures r.NaN? <==> c.tp + c.fp == 0
    ensures r.Num? ==> 0.0 <= r.v <= 1.0
  {
    var r := Ratio(c.tp as real, c.tp as real + c.fp as real);
    if r.NaN? then r
    else RatioBelowOne(c.tp as real, c.tp as real + c.fp as real, r.v); r
  }

  lemma RatioBelowOne(num: real, den: real, q: real)
    requires 0.0 <= num <= den && den > 0.0 && q * den == num
    ensures 0.0 <= q <= 1.0
  {
    assert (1.0 - q) * den == den - num;
    NonNegativeFactor(1.0 - q, den);
    NonNegativeFactor(q, den);
  }

  /** A product with a positive factor is non-negative only if the other factor is. */
  lemma NonNegativeFactor(a: real, b: real)
    requires b > 0.0 && a * b >= 0.0
    ensures a >= 0.0
  {
  }

  /** A measure value that is NaN or a ratio in [0, 1]. */
  predicate IsRate(x: Value) {
    x.Num? ==> 0.0 <= x.v <= 1.0
  }

  /** A measure whose every result is NaN or a rate in [0, 1], as a recall is. */
  ghost predicate RateMeasure(m: Measure) {
    forall t, f, l, p :: IsRate(m(t, f, l, p))
  }

  /** f1 = 2 * ((p * r) / (p + r)), NaN when either input is NaN or p + r == 0. */
  function F1(p: Value, r: Value): (f: Value)
    requires IsRate(p) && IsRate(r)
    ensures f.Num? <==> p.Num? && r.Num? && p.v + r.v != 0.0
  {
    if p.NaN? || r.NaN? then NaN
    else if p.v + r.v == 0.0 then NaN
    else Num(2.0 * ((p.v * r.v) / (p.v + r.v)))
  }

  lemma F1Symmetric(p: Value, r: Value)
    requires IsRate(p) && IsRate(r)
    ensures F1(p, r) == F1(r, p)
  {
    if p.Num? && r.Num? && p.v + r.v != 0.0 {
      assert p.v * r.v == r.v * p.v;
    }
  }

  /** Equal precision and recall give that same value as F1. */
  lemma F1OfEqual(p: real)
    requires 0.0 < p <= 1.0
    ensures F1(Num(p), Num(p)) == Num(p)
  {
    assert (p * p) / (p + p) == p / 2.0;
  }

  /** F1 is a mean: it lies between the smaller and the larger of precision and recall. */
  lemma F1Between(p: real, r: real)
    requires 0.0 <= p <= 1.0 && 0.0 <= r <= 1.0 && p + r > 0.0
    ensures F1(Num(p), Num(r)).Num?
    ensures MinReal(p, r) <= F1(Num(p), Num(r)).v <= MaxReal(p, r)
  {
    var f := 2.0 * ((p * r) / (p + r));
    assert F1(Num(p), Num(r)) == Num(f);
    assert f * (p + r) == 2.0 * p * r;
    if p <= r {
      assert p * (p + r) <= 2.0 * p * r by { assert p * p <= p * r; }
      assert 2.0 * p * r <= r * (p + r) by { assert p * r <= r * r; }
      DivBounds(p, r, f);
    } else {
      assert f * (r + p) == 2.0 * r * p;
      assert r * (r + p) <= 2.0 * r * p by { assert r * r <= p * r; }
      assert 2.0 * r * p <= p * (r + p) by { assert p * r <= p * p; }
      DivBounds(r, p, f);
    }
  }

  lemma DivBounds(lo: real, hi: real, f: real)
    requires 0.0 <= lo <= hi && lo + hi > 0.0
    requires f * (lo + hi) == 2.0 * lo * hi
    requires lo * (lo + hi) <= 2.0 * lo * hi <= hi * (lo + hi)
    ensures lo <= f <= hi
  {
    assert (f - lo) * (lo + hi) == 2.0 * lo * hi - lo * (lo + hi);
    NonNegativeFactor(f - lo, lo + hi);
    assert (hi - f) * (lo + hi) == hi * (lo + hi) - 2.0 * lo * hi;
    NonNegativeFactor(hi - f, lo + hi);
  }

  class Precision {
    const trueLabel: int
    const falseLabel: int

    constructor (trueLabel: int, falseLabel: int)
      ensures this.trueLabel == trueLabel && this.falseLabel == falseLabel
    {
      this.trueLabel := trueLabel;
      this.falseLabel := falseLabel;
    }

    /** Tallies tp/fp/fn/tn over the instances (predictions indexed in parallel) and returns
        tp / (tp + fp). */
    method Evaluate(instances: seq<Example>, predictions: seq<int>) returns (r: Value)
      requires |predictions| >= |instances|
      ensures r == PrecisionOf(Count(LabelsOf(instances), predictions, trueLabel, falseLabel))
    {
      ghost var labels := LabelsOf(instances);
      var tp, fp, fn, tn := 0, 0, 0, 0;
      var i := 0;
      while i < |instances|
        invariant 0 <= i <= |instances|
        invariant Confusion(tp, fp, fn, tn) == Count(labels[..i], predictions, trueLabel, falseLabel)
      {
        assert labels[..i + 1][..i] == labels[..i];
        if instances[i].classLabel == trueLabel {
          if predictions[i] == trueLabel {
            tp := tp + 1;
          } else {
            fn := fn + 1;
          }
        } else if instances[i].classLabel == falseLabel {
          if predictions[i] == falseLabel {
            tn := tn + 1;
          } else {
            fp := fp + 1;
          }
        }
        i := i + 1;
      }
      assert labels[..i] == labels;
      r := Ratio(tp as real, tp as real + fp as real);
    }
  }

  class F1Score {
    const trueLabel: int
    const falseLabel: int

    constructor (trueLabel: int, falseLabel: int)
      ensures this.trueLabel == trueLabel && this.falseLabel == falseLabel
    {
      this.trueLabel := trueLabel;
      this.falseLabel := falseLabel;
    }

    /** Combines precision and recall, both computed for the same label pair. */
    method Evaluate(instances: seq<Example>, predictions: seq<int>, recall: Measure) returns (f: Value)
      requires |predictions| >= |instances|
      requires IsRate(recall(trueLabel, falseLabel, LabelsOf(instances), predictions))
      ensures f == F1(PrecisionOf(Count(LabelsOf(instances), predictions, trueLabel, falseLabel)),
                      recall(trueLabel, falseLabel, LabelsOf(instances), predictions))
    {
      var precisionObj := new Precision(trueLabel, falseLabel);
      var p := precisionObj.Evaluate(instances, predictions);
      var r := recall(trueLabel, falseLabel, LabelsOf(instances), predictions);
      f := F1(p, r);
    }
  }

  /** The four metrics every classifier's test step reports, for one label pair. */
  function MetricsOf(labels: seq<int>, preds: seq<int>, trueLabel: int, falseLabel: int,
                     accuracy: Measure, recall: Measure): EvaluationMetrics
    requires |preds| >= |labels|
    requires IsRate(recall(trueLabel, falseLabel, labels, preds))
  {
    var p := PrecisionOf(Count(labels, preds, trueLabel, falseLabel));
    var r := recall(trueLabel, falseLabel, labels, preds);
    EvaluationMetrics(accuracy(trueLabel, falseLabel, labels, preds), p, r, F1(p, r))
  }

  /** Runs the four measures the way each classifier's test method does. */
  method ComputeMetrics(instances: seq<Example>, predictions: seq<int>, trueLabel: int, falseLabel: int,
                        accuracy: Measure, recall: Measure) returns (m: EvaluationMetrics)
    requires |predictions| >= |instances|
    requires IsRate(recall(trueLabel, falseLabel, LabelsOf(instances), predictions))
    ensures m == MetricsOf(LabelsOf(instances), predictions, trueLabel, falseLabel, accuracy, recall)
    ensures m.precision.Num? ==> 0.0 <= m.precision.v <= 1.0
  {
    var precisionObj := new Precision(trueLabel, falseLabel);
    var f1Obj := new F1Score(trueLabel, falseLabel);
    var acc := accuracy(trueLabel, falseLabel, LabelsOf(instances), predictions);
    var prec := precisionObj.Evaluate(instances, predictions);
    var rec := recall(trueLabel, falseLabel, LabelsOf(instances), predictions);
    var f1 := f1Obj.Evaluate(instances, predictions, recall);
    m := EvaluationMetrics(acc, prec, rec, f1);
  }

  /** The worked example: labels [1,1,0,0], predictions [1,0,0,1], positive 1, negative 0. */
  lemma WorkedExample()
    ensures Count([1, 1, 0, 0], [1, 0, 0, 1], 1, 0) == Confusion(1, 1, 1, 1)
    ensures PrecisionOf(Confusion(1, 1, 1, 1)) == Num(0.5)
    ensures F1(Num(0.5), Num(0.5)) == Num(0.5)
  {
    assert [1, 1, 0, 0][..3] == [1, 1, 0];
    assert [1, 1, 0][..2] == [1, 1];
    assert [1, 1][..1] == [1];
    assert [1][..0] == [];
  }
}
