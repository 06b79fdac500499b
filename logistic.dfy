/** Logistic regression: a sigmoid of the linear output, read as the probability of label 1,
    trained by AVERAGED mini-batch gradient steps on the log-loss, keeping the weights of the
    epoch with the best validation accuracy. */
module Logistic {
  import opened Numeric
  import opened Instances
  import opened Metrics
  import opened Linear
  import opened Training

  // ---------------------------------------------------------------- specification

  type Positive = x: real | x > 0.0 witness 1.0

  /** Math.exp as far as every member needs it: positive everywhere. */
  type Exp = real -> Positive

  /** The rest of what the threshold argument needs from Math.exp: exp(0) == 1 and strictly
      increasing. */
  ghost predicate Increasing(exp: Exp) {
    exp(0.0) == 1.0 && forall a, b :: a < b ==> exp(a) < exp(b)
  }

  /** Math.log as far as the model needs it: defined on every positive number. */
  type Log = f: real --> real | forall x :: 0.0 < x ==> f.requires(x)
    witness (x: real) => 0.0

  /** 1 / (1 + exp(-z)), a probability strictly between 0 and 1. */
  function Sigmoid(exp: Exp, z: real): (r: real)
    ensures 0.0 < r < 1.0
  {
    1.0 / (1.0 + exp(-z))
  }

  /** 1/d is at least 1/2 exactly when d is at most 2. */
  lemma ReciprocalHalf(d: real)
    requires d > 0.0
    ensures 1.0 / d >= 0.5 <==> d <= 2.0
  {
    var r := 1.0 / d;
    assert r * d == 1.0;
    if d <= 2.0 {
      assert r * 2.0 >= r * d;
    } else {
      assert r * 2.0 < r * d;
    }
  }

  /** The sigmoid reaches 1/2 exactly where its argument becomes non-negative. */
  lemma SigmoidThreshold(exp: Exp, z: real)
    requires Increasing(exp)
    ensures Sigmoid(exp, z) >= 0.5 <==> z >= 0.0
  {
    var e := exp(-z);
    assert Sigmoid(exp, z) == 1.0 / (1.0 + e);
    ReciprocalHalf(1.0 + e);
    if z > 0.0 {
      assert e < exp(0.0);
    } else if z < 0.0 {
      assert exp(0.0) < e;
    }
  }

  /** The model's probability that x has label 1. */
  function Probability(exp: Exp, p: Params, x: seq<real>): real
    requires |p.weights| <= |x|
  {
    Sigmoid(exp, Score(p.weights, p.bias, x))
  }

  /** 1 when the probability is at least 0.5, otherwise 0. */
  function PredictLabel(exp: Exp, p: Params, x: seq<real>): int
    requires |p.weights| <= |x|
  {
    if Probability(exp, p, x) >= 0.5 then 1 else 0
  }

  /** The decision is the sign of the linear output: label 1 exactly when bias + w·x >= 0. */
  lemma PredictLabelIsSign(exp: Exp, p: Params, x: seq<real>)
    requires Increasing(exp) && |p.weights| <= |x|
    ensures PredictLabel(exp, p, x) == (if Score(p.weights, p.bias, x) >= 0.0 then 1 else 0)
  {
    SigmoidThreshold(exp, Score(p.weights, p.bias, x));
  }

  /** One prediction per example, in order. */
  function Predictions(exp: Exp, p: Params, data: seq<Example>): (r: seq<int>)
    requires Wide(data, |p.weights|)
    ensures |r| == |data|
    ensures forall k :: 0 <= k < |data| ==> r[k] == PredictLabel(exp, p, data[k].features)
  {
    seq(|data|, k requires 0 <= k < |data| => PredictLabel(exp, p, data[k].features))
  }

  /** An example's error `prediction - label`, the prediction being the probability. */
  function Residual(exp: Exp, p: Params, e: Example): real
    requires |e.features| >= |p.weights|
  {
    Probability(exp, p, e.features) - e.classLabel as real
  }

  /** The summed gradient of a batch: Σ error * x (weights) and Σ error (bias), every
      probability computed with the same `p`. */
  function Gradient(exp: Exp, p: Params, batch: seq<Example>): (g: Params)
    requires Wide(batch, |p.weights|)
    ensures |g.weights| == |p.weights|
  {
    if |batch| == 0 then Params(Zeros(|p.weights|), 0.0)
    else
      var k := |batch| - 1;
      var g := Gradient(exp, p, batch[..k]);
      var r := Residual(exp, p, batch[k]);
      Params(AddScaled(g.weights, r, batch[k].features), g.bias + r)
  }

  /** The summed gradient divided, component by component, by the batch length. */
  function Averaged(g: Params, count: int): (a: Params)
    requires count > 0
    ensures |a.weights| == |g.weights|
  {
    Params(seq(|g.weights|, i requires 0 <= i < |g.weights| => g.weights[i] / count as real), g.bias / count as real)
  }

  /** Subtracts learningRate times an update from the parameters. */
  function Descend(p: Params, lr: real, u: Params): (r: Params)
    requires |u.weights| >= |p.weights|
    ensures |r.weights| == |p.weights|
  {
    Params(seq(|p.weights|, i requires 0 <= i < |p.weights| => p.weights[i] - lr * u.weights[i]), p.bias - lr * u.bias)
  }

  /** One batch: a gradient step on the batch's AVERAGE gradient. */
  function Step(exp: Exp, p: Params, batch: seq<Example>, lr: real): (r: Params)
    requires |batch| > 0 && Wide(batch, |p.weights|)
    ensures |r.weights| == |p.weights|
  {
    Descend(p, lr, Averaged(Gradient(exp, p, batch), |batch|))
  }

  lemma GradientSnoc(exp: Exp, p: Params, batch: seq<Example>, e: Example)
    requires Wide(batch, |p.weights|) && |e.features| >= |p.weights|
    ensures Wide(batch + [e], |p.weights|)
    ensures var g := Gradient(exp, p, batch);
            var r := Residual(exp, p, e);
            Gradient(exp, p, batch + [e]) == Params(AddScaled(g.weights, r, e.features), g.bias + r)
  {
    assert (batch + [e])[..|batch|] == batch;
  }

  /** The gradient of a concatenation of batches is the sum of their gradients. */
  lemma {:induction false} GradientAppend(exp: Exp, p: Params, a: seq<Example>, b: seq<Example>)
    requires Wide(a, |p.weights|) && Wide(b, |p.weights|)
    ensures Wide(a + b, |p.weights|)
    ensures Gradient(exp, p, a + b) == Add(Gradient(exp, p, a), Gradient(exp, p, b))
  {
    if b == [] {
      assert a + b == a;
      assert Add(Gradient(exp, p, a), Gradient(exp, p, b)) == Gradient(exp, p, a);
    } else {
      var k := |b| - 1;
      var e := b[k];
      assert b == b[..k] + [e];
      assert a + b == (a + b[..k]) + [e];
      GradientAppend(exp, p, a, b[..k]);
      GradientSnoc(exp, p, a + b[..k], e);
      GradientSnoc(exp, p, b[..k], e);
      AddThenScale(Gradient(exp, p, a), Gradient(exp, p, b[..k]), Residual(exp, p, e), e.features);
    }
  }

  /** Averaging twice the sum over twice the count gives the same average. */
  lemma AveragedDouble(g: Params, count: int)
    requires count > 0
    ensures Averaged(Add(g, g), 2 * count) == Averaged(g, count)
  {
    var n := count as real;
    assert (2 * count) as real == 2.0 * n;
    var a := Averaged(Add(g, g), 2 * count);
    var b := Averaged(g, count);
    forall i | 0 <= i < |g.weights|
      ensures a.weights[i] == b.weights[i]
    {
      HalfOfDouble(g.weights[i], n);
    }
    HalfOfDouble(g.bias, n);
  }

  lemma HalfOfDouble(a: real, n: real)
    requires n > 0.0
    ensures (a + a) / (2.0 * n) == a / n
  {
  }

  /** The step depends on the batch's average, not its size: presenting every example of a
      batch twice moves the parameters exactly as far as presenting it once. */
  lemma DuplicatedBatchSameStep(exp: Exp, p: Params, batch: seq<Example>, lr: real)
    requires |batch| > 0 && Wide(batch, |p.weights|)
    ensures Wide(batch + batch, |p.weights|)
    ensures Step(exp, p, batch + batch, lr) == Step(exp, p, batch, lr)
  {
    var g := Gradient(exp, p, batch);
    GradientAppend(exp, p, batch, batch);
    AveragedDouble(g, |batch|);
    assert |batch + batch| == 2 * |batch|;
    assert Averaged(Gradient(exp, p, batch + batch), |batch + batch|) == Averaged(g, |batch|);
  }

  /** Every example of the batch has the same label. */
  predicate AllLabelled(batch: seq<Example>, y: int) {
    forall k :: 0 <= k < |batch| ==> batch[k].classLabel == y
  }

  /** Each error lies strictly between -1 and 0 for label 1, and between 0 and 1 for label 0,
      so the summed bias gradient of a non-empty batch has the sign the labels call for. */
  lemma {:induction false} GradientBiasSign(exp: Exp, p: Params, batch: seq<Example>)
    requires Wide(batch, |p.weights|) && |batch| > 0
    ensures AllLabelled(batch, 1) ==> Gradient(exp, p, batch).bias < 0.0
    ensures AllLabelled(batch, 0) ==> Gradient(exp, p, batch).bias > 0.0
  {
    var k := |batch| - 1;
    if k > 0 {
      GradientBiasSign(exp, p, batch[..k]);
    }
  }

  /** With a positive learning rate, a batch of label-1 examples raises the bias and a batch
      of label-0 examples lowers it. */
  lemma StepMovesBiasTowardLabel(exp: Exp, p: Params, batch: seq<Example>, lr: real)
    requires |batch| > 0 && Wide(batch, |p.weights|) && lr > 0.0
    ensures AllLabelled(batch, 1) ==> Step(exp, p, batch, lr).bias > p.bias
    ensures AllLabelled(batch, 0) ==> Step(exp, p, batch, lr).bias < p.bias
  {
    GradientBiasSign(exp, p, batch);
    var g := Gradient(exp, p, batch);
    var a := Averaged(g, |batch|);
    QuotientSign(g.bias, |batch| as real);
    ProductSign(lr, a.bias);
    assert Step(exp, p, batch, lr) == Descend(p, lr, a);
  }

  /** g / n has the sign of g for positive n. */
  lemma QuotientSign(g: real, n: real)
    requires n > 0.0
    ensures g < 0.0 ==> g / n < 0.0
    ensures g > 0.0 ==> g / n > 0.0
  {
  }

  /** The logistic step on a training batch; a batch it could not read is never passed to it. */
  function Rule(exp: Exp, lr: real): StepFn {
    (q: Params, b: seq<Example>) => if |b| > 0 && Wide(b, |q.weights|) then Step(exp, q, b, lr) else q
  }

  lemma RuleIsStep(exp: Exp, lr: real, p: Params, batch: seq<Example>)
    requires |batch| > 0 && Wide(batch, |p.weights|)
    ensures Rule(exp, lr)(p, batch) == Step(exp, p, batch, lr)
  {
  }

  /** Validation accuracy with positive label 1 and negative label 0. */
  function Validation(exp: Exp, valid: seq<Example>, accuracy: Measure): Validator {
    (q: Params) => if Wide(valid, |q.weights|) then accuracy(1, 0, LabelsOf(valid), Predictions(exp, q, valid)) else NaN
  }

  /** A model whose best accuracy training never raised tests with its initial checkpoint;
      from the constructor that is all-zero weights and bias, whose probability is at least
      1/2 everywhere, so it predicts 1 for every input. */
  lemma UnimprovedPredictsPositive(exp: Exp, st: LinearState, orders: seq<seq<Example>>, valid: seq<Example>,
                                   lr: real, batchSize: int, accuracy: Measure, x: seq<real>)
    requires Increasing(exp) && batchSize > 0
    requires st.checkpoint == Params(Zeros(|st.current.weights|), 0.0)
    requires Trained(Rule(exp, lr), Validation(exp, valid, accuracy), st, orders, batchSize).bestAccuracy == st.bestAccuracy
    requires |x| >= |st.current.weights|
    ensures var c := Restore(Trained(Rule(exp, lr), Validation(exp, valid, accuracy), st, orders, batchSize)).current;
            c == st.checkpoint && |c.weights| <= |x|
            && PredictLabel(exp, c, x) == 1
  {
    TrainedKeepsCheckpoint(Rule(exp, lr), Validation(exp, valid, accuracy), st, orders, batchSize);
    DotOfZeros(Zeros(|st.current.weights|), x);
    SigmoidThreshold(exp, 0.0);
  }

  // ---------------------------------------------------------------- loss

  const Epsilon: real := 0.000000000000001

  /** The prediction clamped into [epsilon, 1 - epsilon] before any logarithm is taken. */
  function Clamp(prediction: real): (c: real)
    ensures Epsilon <= c <= 1.0 - Epsilon
    ensures Epsilon <= prediction <= 1.0 - Epsilon ==> c == prediction
  {
    MinReal(1.0 - Epsilon, MaxReal(Epsilon, prediction))
  }

  /** One example's log-likelihood y * log(c) + (1 - y) * log(1 - c), c the clamped probability. */
  function LossTerm(exp: Exp, log: Log, p: Params, e: Example): real
    requires |e.features| >= |p.weights|
  {
    var c := Clamp(Probability(exp, p, e.features));
    var y := e.classLabel as real;
    LabelWeighted(y, log(c), log(1.0 - c))
  }

  /** y * a + (1 - y) * b: the log term of the observed label, for a label 0 or 1. */
  function LabelWeighted(y: real, a: real, b: real): real {
    y * a + (1.0 - y) * b
  }

  /** The summed log-likelihood of a list, in list order. */
  function LossSum(exp: Exp, log: Log, p: Params, data: seq<Example>): real
    requires Wide(data, |p.weights|)
  {
    if |data| == 0 then 0.0
    else LossSum(exp, log, p, data[..|data| - 1]) + LossTerm(exp, log, p, data[|data| - 1])
  }

  /** The sum over one more example adds that example's term. */
  lemma LossSumSnoc(exp: Exp, log: Log, p: Params, data: seq<Example>, k: nat)
    requires Wide(data, |p.weights|) && k < |data|
    ensures LossSum(exp, log, p, data[..k + 1]) == LossSum(exp, log, p, data[..k]) + LossTerm(exp, log, p, data[k])
  {
    assert data[..k + 1][..k] == data[..k];
  }

  /** The term of an example whose clamped probability is c. */
  lemma LossTermOf(exp: Exp, log: Log, p: Params, e: Example, c: real)
    requires |e.features| >= |p.weights|
    requires c == Clamp(Probability(exp, p, e.features))
    ensures 0.0 < c < 1.0
    ensures LossTerm(exp, log, p, e) == LabelWeighted(e.classLabel as real, log(c), log(1.0 - c))
  {
  }

  /** The mean cross-entropy -Σ / m; NaN for an empty list. */
  function Loss(exp: Exp, log: Log, p: Params, data: seq<Example>): Value
    requires Wide(data, |p.weights|)
  {
    Ratio(-LossSum(exp, log, p, data), |data| as real)
  }

  lemma NegatedQuotient(s: real, n: real)
    requires s <= 0.0 && n > 0.0
    ensures -s / n >= 0.0
  {
    assert -s >= 0.0;
  }

  /** With a label 0 or 1 the term is the log of the probability given to that label, and a
      logarithm that is never positive on (0, 1] makes it at most 0. */
  lemma LossTermNonPositive(exp: Exp, log: Log, p: Params, e: Example)
    requires |e.features| >= |p.weights|
    requires e.classLabel == 0 || e.classLabel == 1
    requires forall x :: 0.0 < x <= 1.0 ==> log(x) <= 0.0
    ensures LossTerm(exp, log, p, e) <= 0.0
  {
    var c := Clamp(Probability(exp, p, e.features));
    LossTermOf(exp, log, p, e, c);
    LabelWeightedNonPositive(e.classLabel as real, log(c), log(1.0 - c));
  }

  lemma LabelWeightedNonPositive(y: real, a: real, b: real)
    requires y == 0.0 || y == 1.0
    requires a <= 0.0 && b <= 0.0
    ensures LabelWeighted(y, a, b) <= 0.0
  {
  }

  /** Every term is at most 0, so their sum is. */
  lemma {:induction false} LossSumNonPositive(exp: Exp, log: Log, p: Params, data: seq<Example>)
    requires Wide(data, |p.weights|)
    requires forall k :: 0 <= k < |data| ==> data[k].classLabel == 0 || data[k].classLabel == 1
    requires forall x :: 0.0 < x <= 1.0 ==> log(x) <= 0.0
    ensures LossSum(exp, log, p, data) <= 0.0
  {
    if |data| > 0 {
      var k := |data| - 1;
      assert forall j :: 0 <= j < k ==> data[..k][j] == data[j];
      LossSumNonPositive(exp, log, p, data[..k]);
      LossTermNonPositive(exp, log, p, data[k]);
    }
  }

  /** With labels 0 and 1 and a logarithm that is never positive on (0, 1], the loss of a
      non-empty list is a number and at least 0 (and of an empty list NaN). */
  lemma LossNonNegative(exp: Exp, log: Log, p: Params, data: seq<Example>)
    requires Wide(data, |p.weights|)
    requires forall k :: 0 <= k < |data| ==> data[k].classLabel == 0 || data[k].classLabel == 1
    requires forall x :: 0.0 < x <= 1.0 ==> log(x) <= 0.0
    ensures |data| > 0 ==> Loss(exp, log, p, data).Num? && Loss(exp, log, p, data).v >= 0.0
    ensures |data| == 0 ==> Loss(exp, log, p, data).NaN?
  {
    LossSumNonPositive(exp, log, p, data);
    if |data| > 0 {
      NegatedQuotient(LossSum(exp, log, p, data), |data| as real);
    }
  }

  // ---------------------------------------------------------------- the class

  class LogisticRegression {
    const weights: array<real>
    const checkpointWeights: array<real>
    var bias: real
    var checkpointBias: real
    const learningRate: real
    const maxEpochs: int
    const batchSize: int
    var bestAccuracy: real
    /** The Math.exp the sigmoid uses. */
    const exp: Exp

    ghost predicate Valid()
      reads this
    {
      weights != checkpointWeights && weights.Length == checkpointWeights.Length
    }

    function State(): LinearState
      reads this, weights, checkpointWeights
    {
      LinearState(Params(weights[..], bias), Params(checkpointWeights[..], checkpointBias), bestAccuracy)
    }

    /** `draws` are the generator's nextDouble() values in [0, 1): one per weight, then the bias. */
    constructor (inputSize: nat, learningRate: real, maxEpochs: int, batchSize: int, draws: seq<real>, exp: Exp)
      requires |draws| == inputSize + 1
      requires forall k :: 0 <= k < |draws| ==> 0.0 <= draws[k] < 1.0
      ensures Valid() && fresh(weights) && fresh(checkpointWeights)
      ensures weights.Length == inputSize
      ensures forall i :: 0 <= i < inputSize ==> weights[i] == InitialWeight(draws[i])
      ensures bias == InitialWeight(draws[inputSize])
      ensures State().checkpoint == Params(Zeros(inputSize), 0.0) && bestAccuracy == 0.0
      ensures this.learningRate == learningRate && this.maxEpochs == maxEpochs && this.batchSize == batchSize
      ensures this.exp == exp
    {
      var w := DrawWeights(inputSize, draws);
      var c := new real[inputSize](_ => 0.0);
      weights := w;
      checkpointWeights := c;
      bias := InitialWeight(draws[inputSize]);
      checkpointBias := 0.0;
      this.learningRate := learningRate;
      this.maxEpochs := maxEpochs;
      this.batchSize := batchSize;
      bestAccuracy := 0.0;
      this.exp := exp;
      new;
      assert checkpointWeights[..] == Zeros(inputSize);
    }

    /** The sigmoid of the linear output: the probability that the instance has label 1. */
    method Predict(instance: Example) returns (prediction: real)
      requires |instance.features| >= weights.Length
      ensures prediction == Probability(exp, State().current, instance.features)
      ensures 0.0 < prediction < 1.0
    {
      var output := LinearOutput(weights, bias, instance.features);
      prediction := Sigmoid(exp, output);
    }

    /** Labels every instance 1 when its probability is at least 0.5, otherwise 0. */
    method GetPredictions(dataSet: seq<Example>) returns (preds: seq<int>)
      requires Wide(dataSet, weights.Length)
      ensures preds == Predictions(exp, State().current, dataSet)
    {
      preds := [];
      var k := 0;
      while k < |dataSet|
        invariant 0 <= k <= |dataSet|
        invariant preds == Predictions(exp, State().current, dataSet)[..k]
      {
        var prediction := Predict(dataSet[k]);
        var predLabel := if prediction >= 0.5 then 1 else 0;
        preds := preds + [predLabel];
        k := k + 1;
      }
    }

    /** Subtracts learningRate times the update from every weight and from the bias. */
    method UpdateWeights(weightsUpdate: array<real>, biasUpdate: real)
      requires Valid() && weightsUpdate != weights
      requires weightsUpdate.Length >= weights.Length
      modifies weights, this`bias
      ensures State() == old(State()).(current := Descend(old(State().current), learningRate, Params(weightsUpdate[..], biasUpdate)))
    {
      ghost var r := Descend(State().current, learningRate, Params(weightsUpdate[..], biasUpdate));
      var i := 0;
      while i < weights.Length
        invariant 0 <= i <= weights.Length
        invariant forall j :: 0 <= j < i ==> weights[j] == r.weights[j]
        invariant forall j :: i <= j < weights.Length ==> weights[j] == old(weights[j])
        invariant bias == old(bias)
      {
        weights[i] := weights[i] - learningRate * weightsUpdate[i];
        i := i + 1;
      }
      bias := bias - learningRate * biasUpdate;
      assert weights[..] == r.weights;
    }

    /** One example's share of the batch gradient: its error `prediction - label`, added to the
        bias update and, scaled by each feature, to the weight updates. */
    method AccumulateExample(weightsUpdate: array<real>, biasUpdate: real, instance: Example) returns (newBiasUpdate: real)
      requires weightsUpdate != weights && weightsUpdate != checkpointWeights
      requires weightsUpdate.Length == weights.Length <= |instance.features|
      modifies weightsUpdate
      ensures var r := Residual(exp, State().current, instance);
              weightsUpdate[..] == AddScaled(old(weightsUpdate[..]), r, instance.features)
              && newBiasUpdate == biasUpdate + r
    {
      var features := instance.features;
      var actual := instance.classLabel as real;
      var prediction := Predict(instance);
      var error := prediction - actual;
      AddScaledInto(weightsUpdate, error, features);
      newBiasUpdate := biasUpdate + error;
    }

    /** The inner loop of one batch: the summed gradient, every probability computed with the
        parameters the batch started from. */
    method AccumulateBatch(batch: seq<Example>) returns (weightsUpdate: array<real>, biasUpdate: real)
      requires Wide(batch, weights.Length)
      ensures fresh(weightsUpdate)
      ensures Params(weightsUpdate[..], biasUpdate) == Gradient(exp, State().current, batch)
    {
      ghost var p := State().current;
      weightsUpdate := new real[weights.Length](_ => 0.0);
      biasUpdate := 0.0;
      assert weightsUpdate[..] == Zeros(weights.Length);
      var k := 0;
      while k < |batch|
        invariant 0 <= k <= |batch|
        invariant Params(weightsUpdate[..], biasUpdate) == Gradient(exp, p, batch[..k])
      {
        GradientSnoc(exp, p, batch[..k], batch[k]);
        assert batch[..k + 1] == batch[..k] + [batch[k]];
        biasUpdate := AccumulateExample(weightsUpdate, biasUpdate, batch[k]);
        k := k + 1;
      }
      assert batch[..k] == batch;
    }

    /** Divides every weight update and the bias update by the number of examples in the batch. */
    method AverageUpdate(weightsUpdate: array<real>, biasUpdate: real, batchCount: int) returns (avgBiasUpdate: real)
      requires batchCount > 0
      modifies weightsUpdate
      ensures Params(weightsUpdate[..], avgBiasUpdate) == Averaged(Params(old(weightsUpdate[..]), biasUpdate), batchCount)
    {
      ghost var a := Averaged(Params(weightsUpdate[..], biasUpdate), batchCount);
      var w := 0;
      while w < weightsUpdate.Length
        invariant 0 <= w <= weightsUpdate.Length
        invariant forall j :: 0 <= j < w ==> weightsUpdate[j] == a.weights[j]
        invariant forall j :: w <= j < weightsUpdate.Length ==> weightsUpdate[j] == old(weightsUpdate[j])
      {
        weightsUpdate[w] := weightsUpdate[w] / batchCount as real;
        w := w + 1;
      }
      avgBiasUpdate := biasUpdate / batchCount as real;
      assert weightsUpdate[..] == a.weights;
    }

    /** One batch of `batchCount` examples: sum the gradient with the current parameters,
        average it, then descend. */
    method RunBatch(batch: seq<Example>, batchCount: int)
      requires Valid() && Wide(batch, weights.Length)
      requires batchCount == |batch| > 0
      modifies weights, this`bias
      ensures State() == old(State()).(current := Step(exp, old(State().current), batch, learningRate))
    {
      var weightsUpdate, biasUpdate := AccumulateBatch(batch);
      biasUpdate := AverageUpdate(weightsUpdate, biasUpdate, batchCount);
      UpdateWeights(weightsUpdate, biasUpdate);
    }

    /** The body of the batch loop at position i: applies the batch order[i..min(i + size, n)],
        whose length end - i is the divisor, leaving the rest of the pass to the new weights. */
    method NextBatch(order: seq<Example>, size: nat, i: nat, ghost target: Params) returns (next: nat)
      requires Valid() && size > 0 && i < |order| && Wide(order, weights.Length)
      requires EpochFrom(Rule(exp, learningRate), State().current, order, size, i) == target
      modifies weights, this`bias
      ensures next == i + size
      ensures State().checkpoint == old(State().checkpoint)
      ensures EpochFrom(Rule(exp, learningRate), State().current, order, size, next) == target
    {
      ghost var p := State().current;
      var end := Min(i + size, |order|);
      next := i + size;
      EpochFromUnfold(Rule(exp, learningRate), p, order, size, i, end, next);
      RuleIsStep(exp, learningRate, p, order[i..end]);
      var batchCount := end - i;
      RunBatch(order[i..end], batchCount);
    }

    /** One epoch's batch loop over the given order. */
    method RunEpoch(order: seq<Example>)
      requires Valid() && batchSize > 0
      requires Wide(order, weights.Length)
      modifies weights, this`bias
      ensures State() == old(State()).(current := Epoch(Rule(exp, learningRate), old(State().current), order, batchSize))
    {
      var size: nat := batchSize;
      ghost var target := Epoch(Rule(exp, learningRate), State().current, order, size);
      ghost var st0 := State();
      var n := |order|;
      var i: nat := 0;
      while i < n
        invariant Valid()
        invariant State().checkpoint == st0.checkpoint && bestAccuracy == st0.bestAccuracy
        invariant EpochFrom(Rule(exp, learningRate), State().current, order, size, i) == target
      {
        i := NextBatch(order, size, i, target);
      }
    }

    /** After an epoch: computes the validation accuracy (labels 1 / 0) and snapshots the
        weights and bias only when it strictly beats the best so far. */
    method Validate(validationSet: seq<Example>, accuracy: Measure) returns (valAccuracy: Value)
      requires Valid() && Wide(validationSet, weights.Length)
      modifies checkpointWeights, this`checkpointBias, this`bestAccuracy
      ensures valAccuracy == Validation(exp, validationSet, accuracy)(old(State().current))
      ensures State() == Checkpoint(old(State()), valAccuracy)
    {
      var valPredictions := GetPredictions(validationSet);
      valAccuracy := accuracy(1, 0, LabelsOf(validationSet), valPredictions);
      if valAccuracy.Greater(bestAccuracy) {
        bestAccuracy := valAccuracy.v;
        ArrayCopy(weights, checkpointWeights);
        checkpointBias := bias;
      }
    }

    /** maxEpochs epochs; epoch e visits the train list in the order orders[e] (the shuffle),
        then validates and maybe checkpoints. */
    method Train(trainSet: seq<Example>, validationSet: seq<Example>, orders: seq<seq<Example>>, accuracy: Measure)
      requires Valid()
      requires |orders| == if maxEpochs > 0 then maxEpochs else 0
      requires forall e :: 0 <= e < |orders| ==> multiset(orders[e]) == multiset(trainSet)
      requires Wide(trainSet, weights.Length) && Wide(validationSet, weights.Length)
      requires batchSize > 0
      modifies weights, checkpointWeights, this`bias, this`checkpointBias, this`bestAccuracy
      ensures State() == Trained(Rule(exp, learningRate), Validation(exp, validationSet, accuracy), old(State()), orders, batchSize)
    {
      ghost var st := State();
      var epoch: nat := 0;
      while epoch < maxEpochs
        invariant epoch <= |orders|
        invariant Valid()
        invariant State() == Trained(Rule(exp, learningRate), Validation(exp, validationSet, accuracy), st, orders[..epoch], batchSize)
      {
        var next := epoch + 1;
        TrainedSnoc(Rule(exp, learningRate), Validation(exp, validationSet, accuracy), st, orders, epoch, next, batchSize);
        PermutationWide(trainSet, orders[epoch], weights.Length);
        RunEpoch(orders[epoch]);
        var valAccuracy := Validate(validationSet, accuracy);
        epoch := next;
      }
      assert orders[..epoch] == orders;
    }

    /** One example's term of the loss: y * log(c) + (1 - y) * log(1 - c), with c the
        prediction clamped into [epsilon, 1 - epsilon]. */
    method ExampleLoss(instance: Example, log: Log) returns (term: real)
      requires |instance.features| >= weights.Length
      ensures term == LossTerm(exp, log, State().current, instance)
    {
      var prediction := Predict(instance);
      var y := instance.classLabel as real;
      prediction := MaxReal(Epsilon, prediction);
      prediction := MinReal(1.0 - Epsilon, prediction);
      LossTermOf(exp, log, State().current, instance, prediction);
      term := LabelWeighted(y, log(prediction), log(1.0 - prediction));
    }

    /** The mean cross-entropy of the current parameters on a list: minus the summed terms
        over m; NaN when m is 0. */
    method ComputeLoss(dataset: seq<Example>, log: Log) returns (loss: Value)
      requires Wide(dataset, weights.Length)
      ensures loss == Loss(exp, log, State().current, dataset)
    {
      ghost var p := State().current;
      var totalLoss := 0.0;
      var m := |dataset|;
      var k := 0;
      while k < m
        invariant 0 <= k <= m
        invariant totalLoss == LossSum(exp, log, p, dataset[..k])
      {
        LossSumSnoc(exp, log, p, dataset, k);
        var term := ExampleLoss(dataset[k], log);
        totalLoss := totalLoss + term;
        k := k + 1;
      }
      assert dataset[..k] == dataset;
      loss := Ratio(-totalLoss, m as real);
    }

    /** Copies the best checkpoint back into the weights and the bias. */
    method RestoreCheckpoint()
      requires Valid()
      modifies weights, this`bias
      ensures State() == Restore(old(State()))
    {
      ArrayCopy(checkpointWeights, weights);
      bias := checkpointBias;
    }

    /** Restores the checkpoint, then predicts the test set and measures it (labels 1 / 0). */
    method Test(testSet: seq<Example>, accuracy: Measure, recall: Measure) returns (metrics: EvaluationMetrics)
      requires Valid()
      requires Wide(testSet, weights.Length)
      requires RateMeasure(recall)
      modifies weights, this`bias
      ensures State() == Restore(old(State()))
      ensures metrics == MetricsOf(LabelsOf(testSet), Predictions(exp, State().current, testSet), 1, 0, accuracy, recall)
    {
      RestoreCheckpoint();
      var testPredictions := GetPredictions(testSet);
      metrics := ComputeMetrics(testSet, testPredictions, 1, 0, accuracy, recall);
    }
  }
}
