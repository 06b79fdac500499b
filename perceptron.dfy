/** The perceptron: a margin classifier over labels -1/+1, trained by summed mini-batch
    corrections, keeping the weights of the epoch with the best validation accuracy. */
module Perceptrons {
  import opened Numeric
  import opened Instances
  import opened Metrics
  import opened Linear
  import opened Training

  // ---------------------------------------------------------------- specification

  /** +1 when bias + Σ x[i] * w[i] >= 0, otherwise -1. */
  function PredictLabel(p: Params, x: seq<real>): int
    requires |p.weights| <= |x|
  {
    if Score(p.weights, p.bias, x) >= 0.0 then 1 else -1
  }

  /** One prediction per example, in order. */
  function Predictions(p: Params, data: seq<Example>): (r: seq<int>)
    requires Wide(data, |p.weights|)
    ensures |r| == |data|
    ensures forall k :: 0 <= k < |data| ==> r[k] == PredictLabel(p, data[k].features)
  {
    seq(|data|, k requires 0 <= k < |data| => PredictLabel(p, data[k].features))
  }

  /** The correction factor `(actual - prediction) / 2` in Java's truncating int division. */
  function Error(actual: int, prediction: int): int {
    JavaIntDiv(actual - prediction, 2)
  }

  /** With labels in {-1, +1} the error is -1, 0 or +1, and 0 exactly for a correct prediction;
      an unconverted actual 0 always gives error 0 (Euclidean division would give -1 for a
      +1 prediction). */
  lemma ErrorValues(actual: int, prediction: int)
    requires prediction == 1 || prediction == -1
    ensures (actual == 1 || actual == -1) ==>
              (Error(actual, prediction) == 0 <==> actual == prediction)
              && -1 <= Error(actual, prediction) <= 1
              && Error(actual, prediction) * 2 == actual - prediction
    ensures actual == 0 ==> Error(actual, prediction) == 0 && (actual - prediction) / 2 == (if prediction == 1 then -1 else 0)
  {
  }

  /** The accumulated batch update: the SUM over the batch of learningRate * error * x
      (weights) and learningRate * error (bias), every prediction made with the same `p`. */
  function Delta(p: Params, batch: seq<Example>, lr: real): (d: Params)
    requires Wide(batch, |p.weights|)
    ensures |d.weights| == |p.weights|
  {
    if |batch| == 0 then Params(Zeros(|p.weights|), 0.0)
    else
      var k := |batch| - 1;
      var d := Delta(p, batch[..k], lr);
      var x := batch[k].features;
      var c := Correction(p, batch[k], lr);
      Params(AddScaled(d.weights, c, x), d.bias + c)
  }

  function Step(p: Params, batch: seq<Example>, lr: real): (r: Params)
    requires Wide(batch, |p.weights|)
    ensures |r.weights| == |p.weights|
  {
    Add(p, Delta(p, batch, lr))
  }

  /** The correction an example contributes, all corrections of a batch computed with `p`. */
  function Correction(p: Params, e: Example, lr: real): real
    requires |e.features| >= |p.weights|
  {
    lr * Error(e.classLabel, PredictLabel(p, e.features)) as real
  }

  lemma DeltaSnoc(p: Params, batch: seq<Example>, e: Example, lr: real)
    requires Wide(batch, |p.weights|) && |e.features| >= |p.weights|
    ensures Wide(batch + [e], |p.weights|)
    ensures var d := Delta(p, batch, lr);
            var c := Correction(p, e, lr);
            Delta(p, batch + [e], lr) == Params(AddScaled(d.weights, c, e.features), d.bias + c)
  {
    assert (batch + [e])[..|batch|] == batch;
  }

  /** The update of a concatenation of batches is the sum of their updates (a sum, not an
      average, so a batch's size scales its step). */
  lemma {:induction false} DeltaAppend(p: Params, a: seq<Example>, b: seq<Example>, lr: real)
    requires Wide(a, |p.weights|) && Wide(b, |p.weights|)
    ensures Wide(a + b, |p.weights|)
    ensures Delta(p, a + b, lr) == Add(Delta(p, a, lr), Delta(p, b, lr))
  {
    if b == [] {
      assert a + b == a;
      assert Add(Delta(p, a, lr), Delta(p, b, lr)) == Delta(p, a, lr);
    } else {
      var k := |b| - 1;
      var e := b[k];
      assert b == b[..k] + [e];
      assert a + b == (a + b[..k]) + [e];
      DeltaAppend(p, a, b[..k], lr);
      DeltaSnoc(p, a + b[..k], e, lr);
      DeltaSnoc(p, b[..k], e, lr);
      AddThenScale(Delta(p, a, lr), Delta(p, b[..k], lr), Correction(p, e, lr), e.features);
    }
  }

  /** A batch in which every example is predicted correctly, or carries the unconverted label
      0, leaves the weights and the bias unchanged. */
  lemma {:induction false} NoMistakeNoChange(p: Params, batch: seq<Example>, lr: real)
    requires Wide(batch, |p.weights|)
    requires forall k :: 0 <= k < |batch| ==>
               batch[k].classLabel == 0 || batch[k].classLabel == PredictLabel(p, batch[k].features)
    ensures Delta(p, batch, lr) == Params(Zeros(|p.weights|), 0.0)
    ensures Step(p, batch, lr) == p
  {
    var zero := Params(Zeros(|p.weights|), 0.0);
    if batch != [] {
      var k := |batch| - 1;
      NoMistakeNoChange(p, batch[..k], lr);
      ErrorValues(batch[k].classLabel, PredictLabel(p, batch[k].features));
      assert Correction(p, batch[k], lr) == 0.0;
      assert AddScaled(zero.weights, 0.0, batch[k].features) == zero.weights;
    }
    assert Add(p, zero).weights == p.weights;
  }

  /** The perceptron's batch update as a training step; a batch it could not read (an
      example shorter than the weights, where Java throws) is never passed to it. */
  function Rule(lr: real): StepFn {
    (q: Params, b: seq<Example>) => if Wide(b, |q.weights|) then Step(q, b, lr) else q
  }

  lemma RuleIsStep(lr: real, p: Params, batch: seq<Example>)
    requires Wide(batch, |p.weights|)
    ensures Rule(lr)(p, batch) == Step(p, batch, lr)
  {
  }

  /** Validation accuracy with positive label 1 and negative label -1. */
  function Validation(valid: seq<Example>, accuracy: Measure): Validator {
    (q: Params) => if Wide(valid, |q.weights|) then accuracy(1, -1, LabelsOf(valid), Predictions(q, valid)) else NaN
  }

  /** A perceptron whose best accuracy training never raised tests with its initial checkpoint;
      from the constructor that is all-zero weights and bias, which predicts +1 for every input. */
  lemma UnimprovedPredictsPositive(st: LinearState, orders: seq<seq<Example>>, valid: seq<Example>,
                                   lr: real, batchSize: int, accuracy: Measure, x: seq<real>)
    requires batchSize > 0
    requires st.checkpoint == Params(Zeros(|st.current.weights|), 0.0)
    requires Trained(Rule(lr), Validation(valid, accuracy), st, orders, batchSize).bestAccuracy == st.bestAccuracy
    requires |x| >= |st.current.weights|
    ensures var c := Restore(Trained(Rule(lr), Validation(valid, accuracy), st, orders, batchSize)).current;
            c == st.checkpoint && |c.weights| <= |x| && PredictLabel(c, x) == 1
  {
    TrainedKeepsCheckpoint(Rule(lr), Validation(valid, accuracy), st, orders, batchSize);
    DotOfZeros(Zeros(|st.current.weights|), x);
  }

  // ---------------------------------------------------------------- the class

  class Perceptron {
    const weights: array<real>
    const checkpointWeights: array<real>
    var bias: real
    var checkpointBias: real
    const learningRate: real
    const maxEpochs: int
    const batchSize: int
    var bestAccuracy: real

    ghost predicate Valid()
      reads this
    {
      weights != checkpointWeights && weights.Length == checkpointWeights.Length
    }

    function State(): LinearState
      reads this, weights, checkpointWeights
    {
      LinearState(Params(weights[..], bias), Params(checkpointWeights[..], checkpointBias), bestAccuracy)
    }

    /** `draws` are the generator's nextDouble() values in [0, 1): one per weight, then the bias. */
    constructor (inputSize: nat, learningRate: real, maxEpochs: int, batchSize: int, draws: seq<real>)
      requires |draws| == inputSize + 1
      requires forall k :: 0 <= k < |draws| ==> 0.0 <= draws[k] < 1.0
      ensures Valid() && fresh(weights) && fresh(checkpointWeights)
      ensures weights.Length == inputSize
      ensures forall i :: 0 <= i < inputSize ==> weights[i] == InitialWeight(draws[i])
      ensures bias == InitialWeight(draws[inputSize])
      ensures State().checkpoint == Params(Zeros(inputSize), 0.0) && bestAccuracy == 0.0
      ensures this.learningRate == learningRate && this.maxEpochs == maxEpochs && this.batchSize == batchSize
    {
      var w := DrawWeights(inputSize, draws);
      var c := new real[inputSize](_ => 0.0);
      weights := w;
      checkpointWeights := c;
      bias := InitialWeight(draws[inputSize]);
      checkpointBias := 0.0;
      this.learningRate := learningRate;
      this.maxEpochs := maxEpochs;
      this.batchSize := batchSize;
      bestAccuracy := 0.0;
      new;
      assert checkpointWeights[..] == Zeros(inputSize);
    }

    /** The sign of the linear output: +1 when bias + Σ x[i] * weights[i] >= 0, else -1. */
    method Predict(instance: Example) returns (r: int)
      requires |instance.features| >= weights.Length
      ensures r == PredictLabel(State().current, instance.features)
      ensures r == 1 || r == -1
    {
      var output := LinearOutput(weights, bias, instance.features);
      if output >= 0.0 {
        r := 1;
      } else {
        r := -1;
      }
    }

    method GetPredictions(dataSet: seq<Example>) returns (predictions: seq<int>)
      requires Wide(dataSet, weights.Length)
      ensures predictions == Predictions(State().current, dataSet)
    {
      predictions := [];
      var k := 0;
      while k < |dataSet|
        invariant 0 <= k <= |dataSet|
        invariant predictions == Predictions(State().current, dataSet)[..k]
      {
        var prediction := Predict(dataSet[k]);
        predictions := predictions + [prediction];
        k := k + 1;
      }
    }

    /** Adds the accumulated update to every weight and to the bias. */
    method UpdateWeights(weightsUpdate: array<real>, biasUpdate: real)
      requires Valid() && weightsUpdate != weights
      requires weightsUpdate.Length >= weights.Length
      modifies weights, this`bias
      ensures State() == old(State()).(current := Add(old(State().current), Params(weightsUpdate[..], biasUpdate)))
    {
      var i := 0;
      while i < weights.Length
        invariant 0 <= i <= weights.Length
        invariant forall j :: 0 <= j < i ==> weights[j] == old(weights[j]) + weightsUpdate[j]
        invariant forall j :: i <= j < weights.Length ==> weights[j] == old(weights[j])
        invariant bias == old(bias)
      {
        weights[i] := weights[i] + weightsUpdate[i];
        i := i + 1;
      }
      bias := bias + biasUpdate;
      assert weights[..] == Add(old(State().current), Params(weightsUpdate[..], biasUpdate)).weights;
    }

    /** One example's share of a batch update: its prediction error, times the learning rate,
        added to the bias update and, scaled by each feature, to the weight updates. */
    method AccumulateExample(weightsUpdate: array<real>, biasUpdate: real, instance: Example) returns (newBiasUpdate: real)
      requires weightsUpdate != weights && weightsUpdate != checkpointWeights
      requires weightsUpdate.Length == weights.Length <= |instance.features|
      modifies weightsUpdate
      ensures var c := Correction(State().current, instance, learningRate);
              weightsUpdate[..] == AddScaled(old(weightsUpdate[..]), c, instance.features)
              && newBiasUpdate == biasUpdate + c
    {
      var features := instance.features;
      var actual := instance.classLabel;
      var prediction := Predict(instance);
      var error := JavaIntDiv(actual - prediction, 2);
      assert learningRate * error as real == Correction(State().current, instance, learningRate);
      AddScaledInto(weightsUpdate, learningRate * error as real, features);
      newBiasUpdate := biasUpdate + learningRate * error as real;
    }

    /** The inner loop of one batch: sums learningRate * error * x and learningRate * error
        over the batch, every prediction made with the parameters the batch started from. */
    method AccumulateBatch(batch: seq<Example>) returns (weightsUpdate: array<real>, biasUpdate: real)
      requires Wide(batch, weights.Length)
      ensures fresh(weightsUpdate)
      ensures Params(weightsUpdate[..], biasUpdate) == Delta(State().current, batch, learningRate)
    {
      ghost var p := State().current;
      weightsUpdate := new real[weights.Length](_ => 0.0);
      biasUpdate := 0.0;
      assert weightsUpdate[..] == Zeros(weights.Length);
      var k := 0;
      while k < |batch|
        invariant 0 <= k <= |batch|
        invariant Params(weightsUpdate[..], biasUpdate) == Delta(p, batch[..k], learningRate)
      {
        DeltaSnoc(p, batch[..k], batch[k], learningRate);
        assert batch[..k + 1] == batch[..k] + [batch[k]];
        biasUpdate := AccumulateExample(weightsUpdate, biasUpdate, batch[k]);
        k := k + 1;
      }
      assert batch[..k] == batch;
    }

    /** One batch: accumulate its update with the current parameters, then apply it. */
    method RunBatch(batch: seq<Example>)
      requires Valid() && Wide(batch, weights.Length)
      modifies weights, this`bias
      ensures State() == old(State()).(current := Step(old(State().current), batch, learningRate))
    {
      var weightsUpdate, biasUpdate := AccumulateBatch(batch);
      UpdateWeights(weightsUpdate, biasUpdate);
    }

    /** The body of the batch loop at position i: applies the batch order[i..min(i + size, n)],
        which leaves the rest of the pass to run from the new weights. */
    method NextBatch(order: seq<Example>, size: nat, i: nat, ghost target: Params) returns (next: nat)
      requires Valid() && size > 0 && i < |order| && Wide(order, weights.Length)
      requires EpochFrom(Rule(learningRate), State().current, order, size, i) == target
      modifies weights, this`bias
      ensures next == i + size
      ensures State().checkpoint == old(State().checkpoint)
      ensures EpochFrom(Rule(learningRate), State().current, order, size, next) == target
    {
      ghost var p := State().current;
      var end := Min(i + size, |order|);
      next := i + size;
      EpochFromUnfold(Rule(learningRate), p, order, size, i, end, next);
      RuleIsStep(learningRate, p, order[i..end]);
      RunBatch(order[i..end]);
    }

    /** One epoch's batch loop over the given order: contiguous batches of batchSize, each
        applied once it has been accumulated. */
    method RunEpoch(order: seq<Example>)
      requires Valid() && batchSize > 0
      requires Wide(order, weights.Length)
      modifies weights, this`bias
      ensures State() == old(State()).(current := Epoch(Rule(learningRate), old(State().current), order, batchSize))
    {
      var size: nat := batchSize;
      ghost var target := Epoch(Rule(learningRate), State().current, order, size);
      ghost var st0 := State();
      var n := |order|;
      var i: nat := 0;
      while i < n
        invariant Valid()
        invariant State().checkpoint == st0.checkpoint && bestAccuracy == st0.bestAccuracy
        invariant EpochFrom(Rule(learningRate), State().current, order, size, i) == target
      {
        i := NextBatch(order, size, i, target);
      }
    }

    /** After an epoch: computes the validation accuracy (labels 1 / -1) and snapshots the
        weights and bias only when it strictly beats the best so far. */
    method Validate(validationSet: seq<Example>, accuracy: Measure) returns (valAccuracy: Value)
      requires Valid() && Wide(validationSet, weights.Length)
      modifies checkpointWeights, this`checkpointBias, this`bestAccuracy
      ensures valAccuracy == Validation(validationSet, accuracy)(old(State().current))
      ensures State() == Checkpoint(old(State()), valAccuracy)
    {
      var valPredictions := GetPredictions(validationSet);
      valAccuracy := accuracy(1, -1, LabelsOf(validationSet), valPredictions);
      if valAccuracy.Greater(bestAccuracy) {
        bestAccuracy := valAccuracy.v;
        ArrayCopy(weights, checkpointWeights);
        checkpointBias := bias;
      }
    }

    /** maxEpochs epochs; epoch e visits the train list in the order orders[e] (the shuffle),
        then validates and maybe checkpoints. */
    method Train(trainSet: seq<Example>, validationSet: seq<Example>, orders: seq<seq<Example>>, accuracy: Measure)
      requires Valid()
      requires |orders| == if maxEpochs > 0 then maxEpochs else 0
      requires forall e :: 0 <= e < |orders| ==> multiset(orders[e]) == multiset(trainSet)
      requires Wide(trainSet, weights.Length) && Wide(validationSet, weights.Length)
      requires batchSize > 0
      modifies weights, checkpointWeights, this`bias, this`checkpointBias, this`bestAccuracy
      ensures State() == Trained(Rule(learningRate), Validation(validationSet, accuracy), old(State()), orders, batchSize)
    {
      ghost var st := State();
      var epoch: nat := 0;
      while epoch < maxEpochs
        invariant epoch <= |orders|
        invariant Valid()
        invariant State() == Trained(Rule(learningRate), Validation(validationSet, accuracy), st, orders[..epoch], batchSize)
      {
        var next := epoch + 1;
        TrainedSnoc(Rule(learningRate), Validation(validationSet, accuracy), st, orders, epoch, next, batchSize);
        PermutationWide(trainSet, orders[epoch], weights.Length);
        RunEpoch(orders[epoch]);
        var valAccuracy := Validate(validationSet, accuracy);
        epoch := next;
      }
      assert orders[..epoch] == orders;
    }

    /** Copies the best checkpoint back into the weights and the bias. */
    method RestoreCheckpoint()
      requires Valid()
      modifies weights, this`bias
      ensures State() == Restore(old(State()))
    {
      ArrayCopy(checkpointWeights, weights);
      bias := checkpointBias;
    }

    /** Restores the checkpoint, then predicts the test set and measures it (labels 1 / -1). */
    method Test(testSet: seq<Example>, accuracy: Measure, recall: Measure) returns (metrics: EvaluationMetrics)
      requires Valid()
      requires Wide(testSet, weights.Length)
      requires RateMeasure(recall)
      modifies weights, this`bias
      ensures State() == Restore(old(State()))
      ensures metrics == MetricsOf(LabelsOf(testSet), Predictions(State().current, testSet), 1, -1, accuracy, recall)
    {
      RestoreCheckpoint();
      var testPredictions := GetPredictions(testSet);
      metrics := ComputeMetrics(testSet, testPredictions, 1, -1, accuracy, recall);
    }
  }
}
