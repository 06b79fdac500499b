/** The training loop both linear classifiers share: `maxEpochs` epochs, each a pass over a
    (shuffled) order of the train list in contiguous mini-batches, followed by validation and
    the checkpoint rule. The update of one batch is the learner's own `StepFn`. */
module Training {
  import opened Numeric
  import opened Instances
  import opened Linear

  /** How a learner turns its parameters and one batch into new parameters. */
  type StepFn = (Params, seq<Example>) -> Params

  /** How a learner scores parameters on the validation list. */
  type Validator = Params -> Value

  /** The rest of one pass over `rows` from position i: the batches rows[i..min(i + size, n)],
      rows[i + size..min(i + 2 * size, n)], ... applied in order. */
  function EpochFrom(step: StepFn, p: Params, rows: seq<Example>, size: nat, i: nat): Params
    requires size > 0
    decreases if i < |rows| then |rows| - i else 0
  {
    if i >= |rows| then p
    else EpochFrom(step, step(p, rows[i..Min(i + size, |rows|)]), rows, size, i + size)
  }

  /** The pass from position i runs the batch rows[i..end] first, then the pass from i + size. */
  lemma EpochFromUnfold(step: StepFn, p: Params, rows: seq<Example>, size: nat, i: nat, end: nat, next: nat)
    requires size > 0 && i < |rows| && end == Min(i + size, |rows|) && next == i + size
    ensures i < end <= |rows|
    ensures EpochFrom(step, p, rows, size, i) == EpochFrom(step, step(p, rows[i..end]), rows, size, next)
  {
  }

  /** The batches of a pass, given by their [start, end) bounds, applied in order. */
  function RunBatches(step: StepFn, p: Params, rows: seq<Example>, bs: seq<(nat, nat)>): Params
    requires InBounds(bs, |rows|)
    decreases |bs|
  {
    if bs == [] then p
    else RunBatches(step, step(p, rows[bs[0].0..bs[0].1]), rows, bs[1..])
  }

  /** Running the listed batches from position i is running the first one, then the rest. */
  lemma RunBatchesUnfold(step: StepFn, p: Params, rows: seq<Example>, size: nat, i: nat, end: nat)
    requires size > 0 && i < |rows| && end == Min(i + size, |rows|)
    ensures RunBatches(step, p, rows, Batches(|rows|, size, i))
         == RunBatches(step, step(p, rows[i..end]), rows, Batches(|rows|, size, i + size))
  {
    var bs := Batches(|rows|, size, i);
    assert bs[0] == (i, end) && bs[1..] == Batches(|rows|, size, i + size);
  }

  /** A pass visits exactly the slices that `Batches` lists, in order; by `BatchesCover` and
      `BatchesShape` these cover the order once, all `size` long but the last. */
  lemma {:induction false} EpochFromRunsBatches(step: StepFn, p: Params, rows: seq<Example>, size: nat, i: nat)
    requires size > 0
    ensures EpochFrom(step, p, rows, size, i) == RunBatches(step, p, rows, Batches(|rows|, size, i))
    decreases if i < |rows| then |rows| - i else 0
  {
    if i < |rows| {
      var end := Min(i + size, |rows|);
      EpochFromUnfold(step, p, rows, size, i, end, i + size);
      RunBatchesUnfold(step, p, rows, size, i, end);
      EpochFromRunsBatches(step, step(p, rows[i..end]), rows, size, i + size);
    } else {
      assert Batches(|rows|, size, i) == [];
    }
  }

  /** One epoch over a train order, in contiguous batches of `batchSize`. */
  function Epoch(step: StepFn, p: Params, order: seq<Example>, batchSize: int): Params
    requires batchSize > 0
  {
    EpochFrom(step, p, order, batchSize, 0)
  }

  /** The parameters after each epoch; epoch e runs over orders[e] from where epoch e - 1 ended. */
  function Trajectory(step: StepFn, p0: Params, orders: seq<seq<Example>>, batchSize: int): (ps: seq<Params>)
    requires batchSize > 0
    ensures |ps| == |orders|
  {
    if orders == [] then []
    else
      var k := |orders| - 1;
      var prev := Trajectory(step, p0, orders[..k], batchSize);
      prev + [Epoch(step, if k == 0 then p0 else prev[k - 1], orders[k], batchSize)]
  }

  /** The validation accuracy of each epoch's parameters. */
  function Accuracies(ps: seq<Params>, validate: Validator): (accs: seq<Value>)
    ensures |accs| == |ps|
    ensures forall e :: 0 <= e < |ps| ==> accs[e] == validate(ps[e])
  {
    seq(|ps|, e requires 0 <= e < |ps| => validate(ps[e]))
  }

  /** The state `train` leaves: each epoch's parameters pass through the checkpoint rule. */
  function Trained(step: StepFn, validate: Validator, st: LinearState, orders: seq<seq<Example>>,
                   batchSize: int): LinearState
    requires batchSize > 0
  {
    var ps := Trajectory(step, st.current, orders, batchSize);
    Replay(st, ps, Accuracies(ps, validate))
  }

  lemma TrajectorySnoc(step: StepFn, p0: Params, orders: seq<seq<Example>>, k: nat, batchSize: int)
    requires batchSize > 0 && k < |orders|
    ensures var ps := Trajectory(step, p0, orders[..k], batchSize);
            Trajectory(step, p0, orders[..k + 1], batchSize)
            == ps + [Epoch(step, if k == 0 then p0 else ps[k - 1], orders[k], batchSize)]
  {
    assert orders[..k + 1][..k] == orders[..k];
  }

  lemma AccuraciesSnoc(ps: seq<Params>, p: Params, validate: Validator)
    ensures Accuracies(ps + [p], validate) == Accuracies(ps, validate) + [validate(p)]
  {
  }

  /** One more epoch of training: run epoch k from the current parameters, validate them and
      apply the checkpoint rule. This is the step of the epoch loop's invariant. */
  lemma TrainedSnoc(step: StepFn, validate: Validator, st: LinearState, orders: seq<seq<Example>>,
                    k: nat, next: nat, batchSize: int)
    requires batchSize > 0 && k < |orders| && next == k + 1
    ensures var before := Trained(step, validate, st, orders[..k], batchSize);
            var p := Epoch(step, before.current, orders[k], batchSize);
            Trained(step, validate, st, orders[..next], batchSize) == Checkpoint(before.(current := p), validate(p))
  {
    var ps := Trajectory(step, st.current, orders[..k], batchSize);
    var accs := Accuracies(ps, validate);
    ReplayBest(st, ps, accs);
    var before := Replay(st, ps, accs);
    var p := Epoch(step, before.current, orders[k], batchSize);
    TrajectorySnoc(step, st.current, orders, k, batchSize);
    AccuraciesSnoc(ps, p, validate);
    ReplaySnoc(st, ps, accs, p, validate(p));
  }

  /** Training never lowers the best accuracy, and if it did not raise it the checkpoint is
      still the one training started from (which `test` then restores). */
  lemma TrainedKeepsCheckpoint(step: StepFn, validate: Validator, st: LinearState,
                               orders: seq<seq<Example>>, batchSize: int)
    requires batchSize > 0
    ensures Trained(step, validate, st, orders, batchSize).bestAccuracy >= st.bestAccuracy
    ensures Trained(step, validate, st, orders, batchSize).bestAccuracy == st.bestAccuracy ==>
              Restore(Trained(step, validate, st, orders, batchSize)).current == st.checkpoint
  {
    var ps := Trajectory(step, st.current, orders, batchSize);
    var accs := Accuracies(ps, validate);
    ReplayBest(st, ps, accs);
    if Replay(st, ps, accs).bestAccuracy == st.bestAccuracy {
      NoImprovementKeepsCheckpoint(st, ps, accs);
    }
  }
}
