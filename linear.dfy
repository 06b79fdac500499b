/** What the perceptron and logistic regression share: a weight vector and a bias, a linear
    score, contiguous mini-batches, and the keep-the-best-so-far checkpoint. */
module Linear {
  import opened Numeric
  import opened Instances

  /** Σ w[i] * x[i] over the indices of `w`, accumulated in index order. */
  function Dot(w: seq<real>, x: seq<real>): real
    requires |w| <= |x|
  {
    if |w| == 0 then 0.0 else Dot(w[..|w| - 1], x) + x[|w| - 1] * w[|w| - 1]
  }

  /** The linear output bias + Σ x[i] * weights[i]. */
  function Score(w: seq<real>, b: real, x: seq<real>): real
    requires |w| <= |x|
  {
    b + Dot(w, x)
  }

  function Zeros(n: nat): (z: seq<real>)
    ensures |z| == n && forall i :: 0 <= i < n ==> z[i] == 0.0
  {
    seq(n, _ => 0.0)
  }

  /** With all-zero weights the dot product is zero, whatever the input. */
  lemma {:induction false} DotOfZeros(w: seq<real>, x: seq<real>)
    requires |w| <= |x|
    requires forall i :: 0 <= i < |w| ==> w[i] == 0.0
    ensures Dot(w, x) == 0.0
  {
    if w != [] {
      DotOfZeros(w[..|w| - 1], x);
    }
  }

  /** v + c * x, component by component over the indices of `v`. */
  function AddScaled(v: seq<real>, c: real, x: seq<real>): (r: seq<real>)
    requires |v| <= |x|
    ensures |r| == |v|
  {
    seq(|v|, i requires 0 <= i < |v| => v[i] + c * x[i])
  }

  /** The inner accumulation loop `acc[w] += c * x[w]` over every index of `acc`. */
  method AddScaledInto(acc: array<real>, c: real, x: seq<real>)
    requires acc.Length <= |x|
    modifies acc
    ensures acc[..] == AddScaled(old(acc[..]), c, x)
  {
    ghost var r := AddScaled(acc[..], c, x);
    var w := 0;
    while w < acc.Length
      invariant 0 <= w <= acc.Length
      invariant forall j :: 0 <= j < w ==> acc[j] == r[j]
      invariant forall j :: w <= j < acc.Length ==> acc[j] == old(acc[j])
    {
      acc[w] := acc[w] + c * x[w];
      w := w + 1;
    }
    assert acc[..] == r;
  }

  /** The initial weight drawn from one `nextDouble()` value in [0, 1): draw * 0.02 - 0.01. */
  function InitialWeight(draw: real): (w: real)
    requires 0.0 <= draw < 1.0
    ensures -0.01 <= w < 0.01
  {
    draw * 0.02 - 0.01
  }

  /** The constructor's weight loop: weight i is drawn from the i-th nextDouble() value. */
  method DrawWeights(inputSize: nat, draws: seq<real>) returns (w: array<real>)
    requires |draws| >= inputSize
    requires forall k :: 0 <= k < |draws| ==> 0.0 <= draws[k] < 1.0
    ensures fresh(w) && w.Length == inputSize
    ensures forall i :: 0 <= i < inputSize ==> w[i] == InitialWeight(draws[i])
  {
    w := new real[inputSize];
    var i := 0;
    while i < inputSize
      invariant 0 <= i <= inputSize
      invariant forall j :: 0 <= j < i ==> w[j] == InitialWeight(draws[j])
    {
      w[i] := InitialWeight(draws[i]);
      i := i + 1;
    }
  }

  /** The linear output loop of `predict`: output starts at the bias and adds
      features[i] * weights[i] for every weight index in turn. */
  method LinearOutput(weights: array<real>, bias: real, features: seq<real>) returns (output: real)
    requires weights.Length <= |features|
    ensures output == Score(weights[..], bias, features)
  {
    output := bias;
    var i := 0;
    while i < weights.Length
      invariant 0 <= i <= weights.Length
      invariant output == bias + Dot(weights[..i], features)
    {
      assert weights[..i + 1][..i] == weights[..i];
      output := output + features[i] * weights[i];
      i := i + 1;
    }
    assert weights[..i] == weights[..];
  }

  /** System.arraycopy of a whole array into another of the same length. */
  method ArrayCopy(src: array<real>, dst: array<real>)
    requires src.Length == dst.Length
    modifies dst
    ensures dst[..] == old(src[..])
  {
    var k := 0;
    while k < src.Length
      invariant 0 <= k <= src.Length
      invariant forall j :: 0 <= j < k ==> dst[j] == old(src[j])
      invariant forall j :: k <= j < src.Length ==> src[j] == old(src[j])
    {
      dst[k] := src[k];
      k := k + 1;
    }
  }

  // ---------------------------------------------------------------- mini-batches

  /** The [start, end) bounds of the batches visited from position `i` of a list of length
      `n`: start at i, i + size, i + 2 * size, ... and stop each at min(start + size, n). */
  function Batches(n: nat, size: nat, i: nat): (bs: seq<(nat, nat)>)
    requires size > 0
    ensures forall k :: 0 <= k < |bs| ==> i <= bs[k].0 < bs[k].1 <= n
    decreases if i < n then n - i else 0
  {
    if i >= n then [] else [(i, Min(i + size, n))] + Batches(n, size, i + size)
  }

  predicate InBounds(bs: seq<(nat, nat)>, n: nat) {
    forall k :: 0 <= k < |bs| ==> bs[k].0 <= bs[k].1 <= n
  }

  /** The rows of the batches, one after another. */
  function Concat(rows: seq<Example>, bs: seq<(nat, nat)>): seq<Example>
    requires InBounds(bs, |rows|)
  {
    if bs == [] then [] else rows[bs[0].0..bs[0].1] + Concat(rows, bs[1..])
  }

  /** Together the batches visit rows[i..] exactly once, in order. */
  lemma {:induction false} BatchesCover(rows: seq<Example>, size: nat, i: nat)
    requires size > 0 && i <= |rows|
    ensures Concat(rows, Batches(|rows|, size, i)) == rows[i..]
    decreases |rows| - i
  {
    var n := |rows|;
    if i < n {
      var e := Min(i + size, n);
      var rest := Batches(n, size, i + size);
      assert Batches(n, size, i)[1..] == rest;
      if i + size <= n {
        BatchesCover(rows, size, i + size);
        assert rows[i..] == rows[i..e] + rows[e..];
      } else {
        assert rows[i..] == rows[i..e];
      }
    }
  }

  /** The batches are contiguous and non-empty, start at i, end at n, are at most `size` long,
      and all but the last are exactly `size` long. */
  lemma {:induction false} BatchesShape(n: nat, size: nat, i: nat)
    requires size > 0 && i <= n
    ensures var bs := Batches(n, size, i);
            && (bs != [] ==> bs[0].0 == i && bs[|bs| - 1].1 == n)
            && (forall k :: 0 <= k < |bs| ==> 0 < bs[k].1 - bs[k].0 <= size)
            && (forall k :: 0 <= k < |bs| - 1 ==> bs[k].1 == bs[k + 1].0 && bs[k].1 - bs[k].0 == size)
    decreases n - i
  {
    if i < n {
      var bs := Batches(n, size, i);
      var rest := Batches(n, size, i + size);
      assert bs == [(i, Min(i + size, n))] + rest;
      if i + size <= n {
        BatchesShape(n, size, i + size);
        forall k | 0 <= k < |bs| - 1
          ensures bs[k].1 == bs[k + 1].0 && bs[k].1 - bs[k].0 == size
        {
          if k > 0 { assert bs[k] == rest[k - 1] && bs[k + 1] == rest[k]; }
        }
      }
    }
  }

  // ---------------------------------------------------------------- checkpointing

  datatype Params = Params(weights: seq<real>, bias: real)

  /** Parameters being trained, the best snapshot so far and its validation accuracy. */
  datatype LinearState = LinearState(current: Params, checkpoint: Params, bestAccuracy: real)

  /** Adds an update to the parameters, component by component. */
  function Add(p: Params, d: Params): (r: Params)
    requires |d.weights| >= |p.weights|
    ensures |r.weights| == |p.weights|
    ensures r.bias == p.bias + d.bias
  {
    Params(seq(|p.weights|, i requires 0 <= i < |p.weights| => p.weights[i] + d.weights[i]), p.bias + d.bias)
  }

  /** Adding a scaled example after summing two updates is summing the first with the
      second after it was scaled in. */
  lemma AddThenScale(a: Params, d: Params, c: real, x: seq<real>)
    requires |a.weights| == |d.weights| <= |x|
    ensures Add(a, Params(AddScaled(d.weights, c, x), d.bias + c))
         == Params(AddScaled(Add(a, d).weights, c, x), Add(a, d).bias + c)
  {
    assert Add(a, Params(AddScaled(d.weights, c, x), d.bias + c)).weights
        == AddScaled(Add(a, d).weights, c, x);
  }

  /** After an epoch: snapshot the current parameters only on a STRICT improvement of the
      validation accuracy (NaN never improves). */
  function Checkpoint(st: LinearState, acc: Value): (r: LinearState)
    ensures r.current == st.current
    ensures acc.Greater(st.bestAccuracy) ==> r.checkpoint == st.current && r.bestAccuracy == acc.v
    ensures !acc.Greater(st.bestAccuracy) ==> r == st
  {
    if acc.Greater(st.bestAccuracy) then st.(checkpoint := st.current, bestAccuracy := acc.v) else st
  }

  /** Before testing: copy the checkpoint back into the current parameters. */
  function Restore(st: LinearState): (r: LinearState)
    ensures r.current == st.checkpoint && r.checkpoint == st.checkpoint && r.bestAccuracy == st.bestAccuracy
  {
    st.(current := st.checkpoint)
  }

  /** Restoring twice is restoring once, so two test runs in a row see the same parameters. */
  lemma RestoreIdempotent(st: LinearState)
    ensures Restore(Restore(st)) == Restore(st)
  {
  }

  /** Training seen from outside: epoch e leaves parameters ps[e] whose validation accuracy is
      accs[e]; after each epoch the checkpoint rule runs. */
  function Replay(st: LinearState, ps: seq<Params>, accs: seq<Value>): LinearState
    requires |ps| == |accs|
  {
    if ps == [] then st
    else
      var k := |ps| - 1;
      Checkpoint(Replay(st, ps[..k], accs[..k]).(current := ps[k]), accs[k])
  }

  /** The best accuracy never decreases, bounds every epoch's accuracy, and the current
      parameters are the last epoch's. */
  lemma {:induction false} ReplayBest(st: LinearState, ps: seq<Params>, accs: seq<Value>)
    requires |ps| == |accs|
    ensures Replay(st, ps, accs).bestAccuracy >= st.bestAccuracy
    ensures forall e :: 0 <= e < |accs| && accs[e].Num? ==> accs[e].v <= Replay(st, ps, accs).bestAccuracy
    ensures ps != [] ==> Replay(st, ps, accs).current == ps[|ps| - 1]
  {
    if ps != [] {
      var k := |ps| - 1;
      ReplayBest(st, ps[..k], accs[..k]);
      forall e | 0 <= e < k && accs[e].Num?
        ensures accs[e].v <= Replay(st, ps, accs).bestAccuracy
      {
        assert accs[..k][e] == accs[e];
      }
    }
  }

  /** The checkpoint is either untouched (and so is the best accuracy) or it is the parameters
      of the FIRST epoch that reached the final best accuracy. */
  lemma {:induction false} ReplayCheckpoint(st: LinearState, ps: seq<Params>, accs: seq<Value>)
    requires |ps| == |accs|
    ensures var r := Replay(st, ps, accs);
            || (r.checkpoint == st.checkpoint && r.bestAccuracy == st.bestAccuracy
                && forall e :: 0 <= e < |accs| ==> !accs[e].Greater(st.bestAccuracy))
            || (exists e :: 0 <= e < |ps| && r.checkpoint == ps[e] && accs[e] == Num(r.bestAccuracy)
                  && r.bestAccuracy > st.bestAccuracy
                  && forall j :: 0 <= j < e && accs[j].Num? ==> accs[j].v < r.bestAccuracy)
  {
    if ps != [] {
      var k := |ps| - 1;
      var prev := Replay(st, ps[..k], accs[..k]);
      ReplayCheckpoint(st, ps[..k], accs[..k]);
      ReplayBest(st, ps[..k], accs[..k]);
      var r := Replay(st, ps, accs);
      if accs[k].Greater(prev.bestAccuracy) {
        forall j | 0 <= j < k && accs[j].Num?
          ensures accs[j].v < r.bestAccuracy
        {
          assert accs[..k][j] == accs[j];
        }
      } else {
        assert r.checkpoint == prev.checkpoint && r.bestAccuracy == prev.bestAccuracy;
        if prev.checkpoint == st.checkpoint && prev.bestAccuracy == st.bestAccuracy
           && forall e :: 0 <= e < k ==> !accs[..k][e].Greater(st.bestAccuracy) {
          forall e | 0 <= e < |accs| ensures !accs[e].Greater(st.bestAccuracy) {
            if e < k { assert accs[..k][e] == accs[e]; }
          }
        } else {
          var e :| 0 <= e < k && prev.checkpoint == ps[..k][e] && accs[..k][e] == Num(prev.bestAccuracy)
                   && prev.bestAccuracy > st.bestAccuracy
                   && forall j :: 0 <= j < e && accs[..k][j].Num? ==> accs[..k][j].v < prev.bestAccuracy;
          assert ps[..k][e] == ps[e] && accs[..k][e] == accs[e];
          forall j | 0 <= j < e && accs[j].Num? ensures accs[j].v < r.bestAccuracy {
            assert accs[..k][j] == accs[j];
          }
        }
      }
    }
  }

  /** If the best accuracy did not move, no epoch was ever snapshotted. */
  lemma NoImprovementKeepsCheckpoint(st: LinearState, ps: seq<Params>, accs: seq<Value>)
    requires |ps| == |accs|
    requires Replay(st, ps, accs).bestAccuracy == st.bestAccuracy
    ensures Replay(st, ps, accs).checkpoint == st.checkpoint
  {
    ReplayCheckpoint(st, ps, accs);
  }

  /** Extending the run by one epoch applies the checkpoint rule once more. */
  lemma ReplaySnoc(st: LinearState, ps: seq<Params>, accs: seq<Value>, p: Params, a: Value)
    requires |ps| == |accs|
    ensures Replay(st, ps + [p], accs + [a]) == Checkpoint(Replay(st, ps, accs).(current := p), a)
  {
    assert (ps + [p])[..|ps|] == ps;
    assert (accs + [a])[..|accs|] == accs;
  }
}
