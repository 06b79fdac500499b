/** The dataset pipeline: label conversion, a contiguous three-way split, feature statistics
    of the train slice and in-place standardisation of the shared instance objects. */
module Datasets {
  import opened Numeric
  import opened Instances
  import opened SplitResults

  type NonNegative = x: real | x >= 0.0 witness 0.0

  /** `Math.sqrt`, of which the model only needs that it is non-negative on a non-negative
      argument. */
  type Sqrt = NonNegative -> NonNegative

  // ---------------------------------------------------------------- labels

  /** `convertLabelsToMinusOne` on one label: 0 becomes -1, anything else stays. */
  function ToMinusOne(y: int): int {
    if y == 0 then -1 else y
  }

  /** The labels after conversion: the same list with every 0 replaced by -1. */
  function ConvertedLabels(labels: seq<int>): (r: seq<int>)
    ensures |r| == |labels|
  {
    seq(|labels|, k requires 0 <= k < |labels| => ToMinusOne(labels[k]))
  }

  /** Conversion leaves no label 0, keeps every other label, and a second conversion changes
      nothing. */
  lemma ConversionSettles(labels: seq<int>)
    ensures forall k :: 0 <= k < |labels| ==> ConvertedLabels(labels)[k] != 0
    ensures forall k :: 0 <= k < |labels| && labels[k] != 0 ==> ConvertedLabels(labels)[k] == labels[k]
    ensures ConvertedLabels(ConvertedLabels(labels)) == ConvertedLabels(labels)
  {
  }

  // ---------------------------------------------------------------- statistics

  /** The sum of feature j over the list. */
  function FeatureSum(data: seq<Example>, j: nat): real
    requires Wide(data, j + 1)
  {
    if |data| == 0 then 0.0 else FeatureSum(data[..|data| - 1], j) + data[|data| - 1].features[j]
  }

  /** The arithmetic mean of feature j. */
  function Mean(data: seq<Example>, j: nat): real
    requires |data| > 0 && Wide(data, j + 1)
  {
    FeatureSum(data, j) / |data| as real
  }

  /** The sum of the squared deviations of feature j from mu. */
  function SquaredDeviations(data: seq<Example>, j: nat, mu: real): (r: real)
    requires Wide(data, j + 1)
    ensures r >= 0.0
  {
    if |data| == 0 then 0.0
    else
      var deviation := data[|data| - 1].features[j] - mu;
      SquaredDeviations(data[..|data| - 1], j, mu) + deviation * deviation
  }

  /** The population variance of feature j around mu: the squared deviations divided by n. */
  function Variance(data: seq<Example>, j: nat, mu: real): NonNegative
    requires |data| > 0 && Wide(data, j + 1)
  {
    SquaredDeviations(data, j, mu) / |data| as real
  }

  /** The standard deviation `computeStdDevs` stores: the square root of the variance, or 1 in
      place of 0. It is always positive, so dividing by it is safe. */
  function StdDev(sqrt: Sqrt, data: seq<Example>, j: nat, mu: real): (s: real)
    requires |data| > 0 && Wide(data, j + 1)
    ensures s > 0.0
    ensures s == 1.0 || s == sqrt(Variance(data, j, mu))
    ensures sqrt(Variance(data, j, mu)) != 0.0 ==> s == sqrt(Variance(data, j, mu))
  {
    var d := sqrt(Variance(data, j, mu));
    if d == 0.0 then 1.0 else d
  }

  // ---------------------------------------------------------------- standardisation

  /** Every standard deviation is non-zero. */
  predicate NonZero(stdDevs: seq<real>) {
    forall j :: 0 <= j < |stdDevs| ==> stdDevs[j] != 0.0
  }

  /** One feature list standardised: (v - means[j]) / stdDevs[j] at every position j. */
  function Scaled(x: seq<real>, means: seq<real>, stdDevs: seq<real>): (r: seq<real>)
    requires |x| <= |means| && |x| <= |stdDevs| && NonZero(stdDevs)
    ensures |r| == |x|
  {
    seq(|x|, j requires 0 <= j < |x| => (x[j] - means[j]) / stdDevs[j])
  }

  /** Position j of a standardised feature list. */
  lemma ScaledAt(x: seq<real>, means: seq<real>, stdDevs: seq<real>, j: nat)
    requires |x| <= |means| && |x| <= |stdDevs| && NonZero(stdDevs) && j < |x|
    ensures Scaled(x, means, stdDevs)[j] == (x[j] - means[j]) / stdDevs[j]
  {
  }

  /** Standardising loses no information: each original feature is recovered from its scaled
      value and the statistics, as scaled * stdDevs[j] + means[j]. */
  lemma {:induction false} StandardizeRoundTrip(x: seq<real>, means: seq<real>, stdDevs: seq<real>)
    requires |x| <= |means| && |x| <= |stdDevs| && NonZero(stdDevs)
    ensures forall j :: 0 <= j < |x| ==> Scaled(x, means, stdDevs)[j] * stdDevs[j] + means[j] == x[j]
  {
    forall j | 0 <= j < |x|
      ensures Scaled(x, means, stdDevs)[j] * stdDevs[j] + means[j] == x[j]
    {
      ScaledAt(x, means, stdDevs, j);
      DivideThenMultiply(x[j] - means[j], stdDevs[j], Scaled(x, means, stdDevs)[j]);
    }
  }

  lemma DivideThenMultiply(a: real, s: real, q: real)
    requires s != 0.0 && q == a / s
    ensures q * s == a
  {
  }

  /** Every example standardised; labels are kept. */
  function ScaledAll(data: seq<Example>, means: seq<real>, stdDevs: seq<real>): (r: seq<Example>)
    requires forall k :: 0 <= k < |data| ==> |data[k].features| <= |means| && |data[k].features| <= |stdDevs|
    requires NonZero(stdDevs)
    ensures |r| == |data|
  {
    if |data| == 0 then []
    else
      var e := data[|data| - 1];
      ScaledAll(data[..|data| - 1], means, stdDevs) + [Example(Scaled(e.features, means, stdDevs), e.classLabel)]
  }

  /** Standardising keeps every label and every feature count. */
  lemma {:induction false} ScaledAllShape(data: seq<Example>, means: seq<real>, stdDevs: seq<real>)
    requires forall k :: 0 <= k < |data| ==> |data[k].features| <= |means| && |data[k].features| <= |stdDevs|
    requires NonZero(stdDevs)
    ensures forall k :: 0 <= k < |data| ==>
              ScaledAll(data, means, stdDevs)[k] == Example(Scaled(data[k].features, means, stdDevs), data[k].classLabel)
  {
    if |data| > 0 {
      ScaledAllShape(data[..|data| - 1], means, stdDevs);
    }
  }

  /** The sum of the deviations of feature j from mu. */
  function DeviationSum(data: seq<Example>, j: nat, mu: real): real
    requires Wide(data, j + 1)
  {
    if |data| == 0 then 0.0 else DeviationSum(data[..|data| - 1], j, mu) + (data[|data| - 1].features[j] - mu)
  }

  /** The deviations from mu sum to the feature sum less n times mu. */
  lemma {:induction false} DeviationSumShift(data: seq<Example>, j: nat, mu: real)
    requires Wide(data, j + 1)
    ensures DeviationSum(data, j, mu) == FeatureSum(data, j) - |data| as real * mu
  {
    if |data| > 0 {
      var n := |data| - 1;
      DeviationSumShift(data[..n], j, mu);
      assert (n + 1) as real * mu == n as real * mu + mu;
    }
  }

  /** Division by s distributes over a sum c = a + b. */
  lemma DivideSum(a: real, b: real, c: real, s: real)
    requires s != 0.0 && c == a + b
    ensures a / s + b / s == c / s
  {
    assert (a / s) * s == a && (b / s) * s == b;
    assert (a / s + b / s) * s == a + b;
  }

  /** Appending one example adds its feature j to the sum. */
  lemma FeatureSumSnoc(rest: seq<Example>, x: Example, j: nat)
    requires Wide(rest, j + 1) && j < |x.features|
    ensures Wide(rest + [x], j + 1)
    ensures FeatureSum(rest + [x], j) == FeatureSum(rest, j) + x.features[j]
  {
    assert (rest + [x])[..|rest|] == rest;
  }

  /** Standardising feature j with mean m and deviation s divides the sum of its deviations
      from m by s. */
  lemma {:induction false} ScaledSum(data: seq<Example>, j: nat, means: seq<real>, stdDevs: seq<real>)
    requires HasWidth(data, |means|) && j < |means| == |stdDevs| && NonZero(stdDevs)
    ensures Wide(ScaledAll(data, means, stdDevs), j + 1)
    ensures FeatureSum(ScaledAll(data, means, stdDevs), j) == DeviationSum(data, j, means[j]) / stdDevs[j]
  {
    if |data| > 0 {
      var front, e := data[..|data| - 1], data[|data| - 1];
      ScaledSum(front, j, means, stdDevs);
      var rest := ScaledAll(front, means, stdDevs);
      var x := Example(Scaled(e.features, means, stdDevs), e.classLabel);
      var last := e.features[j] - means[j];
      assert ScaledAll(data, means, stdDevs) == rest + [x];
      ScaledAt(e.features, means, stdDevs, j);
      assert Wide(rest + [x], j + 1) && FeatureSum(rest + [x], j) == FeatureSum(rest, j) + x.features[j] by {
        FeatureSumSnoc(rest, x, j);
      }
      DivideSum(DeviationSum(front, j, means[j]), last, DeviationSum(data, j, means[j]), stdDevs[j]);
    }
  }

  /** Deviations d from the mean total / n sum to 0, so d / s / n is 0 as well. */
  lemma MeanZeroArithmetic(total: real, n: real, mu: real, d: real, s: real)
    requires n > 0.0 && s != 0.0 && mu == total / n && d == total - n * mu
    ensures (d / s) / n == 0.0
  {
    assert n * mu == total;
  }

  /** The mean of standardised feature j is the mean deviation from means[j], divided by
      stdDevs[j]. */
  lemma ScaledMean(data: seq<Example>, j: nat, means: seq<real>, stdDevs: seq<real>)
    requires |data| > 0 && HasWidth(data, |means|) && j < |means| == |stdDevs| && NonZero(stdDevs)
    ensures Wide(ScaledAll(data, means, stdDevs), j + 1)
    ensures Mean(ScaledAll(data, means, stdDevs), j) == (DeviationSum(data, j, means[j]) / stdDevs[j]) / |data| as real
  {
    ScaledSum(data, j, means, stdDevs);
  }

  /** Standardised with the mean of the list itself, every feature of a non-empty list has
      mean 0. */
  lemma {:induction false} StandardizedMeanZero(data: seq<Example>, j: nat, means: seq<real>, stdDevs: seq<real>)
    requires |data| > 0 && HasWidth(data, |means|) && j < |means| == |stdDevs| && NonZero(stdDevs)
    requires means[j] == Mean(data, j)
    ensures Wide(ScaledAll(data, means, stdDevs), j + 1)
    ensures Mean(ScaledAll(data, means, stdDevs), j) == 0.0
  {
    ScaledMean(data, j, means, stdDevs);
    DeviationSumShift(data, j, means[j]);
    MeanZeroArithmetic(FeatureSum(data, j), |data| as real, means[j], DeviationSum(data, j, means[j]), stdDevs[j]);
  }

  // ---------------------------------------------------------------- the split

  /** `(int) (n * trainRatio)`. */
  function TrainSize(n: nat, trainRatio: real): int {
    TruncateToInt(n as real * trainRatio)
  }

  /** `(int) (n * 0.15)`. */
  function ValidationSize(n: nat): (v: nat)
    ensures v <= n
  {
    (n as real * 0.15).Floor
  }

  /** The three `subList` calls succeed: 0 <= trainSize and trainSize + validationSize <= n. */
  predicate SplitFits(n: nat, trainRatio: real) {
    0 <= TrainSize(n, trainRatio) && TrainSize(n, trainRatio) + ValidationSize(n) <= n
  }

  /** The three slices are contiguous, in order, and together the whole list. */
  lemma SlicesCover<T>(s: seq<T>, a: nat, b: nat)
    requires a <= b <= |s|
    ensures s[..a] + s[a..b] + s[b..] == s
  {
  }

  // ---------------------------------------------------------------- the class

  /** `Dataset(instances, inputSize, featureParser)`: the instance list and the two statistics
      arrays of length inputSize. The parser only turns a scaled value back into a feature,
      which on reals is the identity. */
  class Dataset {
    var instances: seq<Instance>
    const means: array<real>
    const stdDevs: array<real>

    ghost predicate Valid()
      reads this
    {
      means != stdDevs && means.Length == stdDevs.Length
    }

    constructor (instances: seq<Instance>, inputSize: nat)
      ensures Valid() && fresh(means) && fresh(stdDevs)
      ensures this.instances == instances
      ensures means.Length == inputSize && stdDevs.Length == inputSize
      ensures forall j :: 0 <= j < inputSize ==> means[j] == 0.0 && stdDevs[j] == 0.0
    {
      this.instances := instances;
      means := new real[inputSize](_ => 0.0);
      stdDevs := new real[inputSize](_ => 0.0);
    }

    /** Every label 0 becomes -1; other labels and all features stay. A repeated instance is
        converted once and then left alone. */
    method ConvertLabelsToMinusOne()
      modifies (set i | i in instances)`classLabel
      ensures forall k :: 0 <= k < |instances| ==> instances[k].classLabel == ToMinusOne(old(instances[k].classLabel))
      ensures LabelsOf(Examples(instances)) == ConvertedLabels(old(LabelsOf(Examples(instances))))
    {
      var k := 0;
      while k < |instances|
        invariant 0 <= k <= |instances|
        invariant forall m :: 0 <= m < k ==> instances[m].classLabel == ToMinusOne(old(instances[m].classLabel))
        invariant forall m :: 0 <= m < |instances| ==>
                    instances[m].classLabel == old(instances[m].classLabel)
                    || instances[m].classLabel == ToMinusOne(old(instances[m].classLabel))
      {
        var instance := instances[k];
        if instance.GetLabel() == 0 {
          instance.SetLabel(-1);
        }
        k := k + 1;
      }
    }

    /** `means[j]` := the mean of feature j over the given list, for every j < means.length. */
    method ComputeMeans(trainInstances: seq<Instance>)
      requires |trainInstances| > 0 && Wide(Examples(trainInstances), means.Length)
      modifies means
      ensures forall j :: 0 <= j < means.Length ==> means[j] == Mean(Examples(trainInstances), j)
    {
      var j := 0;
      while j < means.Length
        invariant 0 <= j <= means.Length
        invariant forall m :: 0 <= m < j ==> means[m] == Mean(Examples(trainInstances), m)
      {
        var sum := FeatureTotal(trainInstances, j);
        means[j] := sum / |trainInstances| as real;
        j := j + 1;
      }
    }

    /** The inner loop of `computeMeans`: the sum of feature j over the list. */
    method FeatureTotal(trainInstances: seq<Instance>, j: nat) returns (sum: real)
      requires Wide(Examples(trainInstances), j + 1)
      ensures sum == FeatureSum(Examples(trainInstances), j)
    {
      ghost var data := Examples(trainInstances);
      sum := 0.0;
      var i := 0;
      while i < |trainInstances|
        invariant 0 <= i <= |trainInstances|
        invariant sum == FeatureSum(data[..i], j)
      {
        assert data[..i + 1][..i] == data[..i];
        var features := trainInstances[i].GetFeatures();
        sum := sum + features[j];
        i := i + 1;
      }
      assert data[..i] == data;
    }

    /** `stdDevs[j]` := the square root of the population variance of feature j around the
        current `means[j]`, with 1 in place of 0; afterwards no deviation is zero. */
    method ComputeStdDevs(trainInstances: seq<Instance>, sqrt: Sqrt)
      requires Valid()
      requires |trainInstances| > 0 && Wide(Examples(trainInstances), stdDevs.Length)
      modifies stdDevs
      ensures forall j :: 0 <= j < stdDevs.Length ==> stdDevs[j] == StdDev(sqrt, Examples(trainInstances), j, means[j])
      ensures NonZero(stdDevs[..])
    {
      ghost var data := Examples(trainInstances);
      var j := 0;
      while j < stdDevs.Length
        invariant 0 <= j <= stdDevs.Length
        invariant forall m :: 0 <= m < j ==> stdDevs[m] == StdDev(sqrt, data, m, means[m])
      {
        var sum := DeviationTotal(trainInstances, j, means[j]);
        var variance := sum / |trainInstances| as real;
        assert variance == Variance(data, j, means[j]);
        stdDevs[j] := sqrt(variance);
        if stdDevs[j] == 0.0 {
          stdDevs[j] := 1.0;
        }
        assert stdDevs[j] == StdDev(sqrt, data, j, means[j]);
        j := j + 1;
      }
    }

    /** The inner loop of `computeStdDevs`: the sum of the squared deviations of feature j from mu. */
    method DeviationTotal(trainInstances: seq<Instance>, j: nat, mu: real) returns (sum: real)
      requires Wide(Examples(trainInstances), j + 1)
      ensures sum == SquaredDeviations(Examples(trainInstances), j, mu)
    {
      ghost var data := Examples(trainInstances);
      sum := 0.0;
      var i := 0;
      while i < |trainInstances|
        invariant 0 <= i <= |trainInstances|
        invariant sum == SquaredDeviations(data[..i], j, mu)
      {
        assert data[..i + 1][..i] == data[..i];
        var deviation := trainInstances[i].GetFeatures()[j] - mu;
        deviation := deviation * deviation;
        sum := sum + deviation;
        i := i + 1;
      }
      assert data[..i] == data;
    }

    /** Replaces every feature v at position j of every instance by (v - means[j]) / stdDevs[j].
        The list holds no instance twice. */
    method Standardize(dataSet: seq<Instance>)
      requires Valid() && NonZero(stdDevs[..]) && Distinct(dataSet)
      requires forall k :: 0 <= k < |dataSet| ==> |dataSet[k].features| <= means.Length
      modifies (set i | i in dataSet)`features
      ensures forall k :: 0 <= k < |dataSet| ==>
                dataSet[k].features == Scaled(old(dataSet[k].features), means[..], stdDevs[..])
      ensures Examples(dataSet) == ScaledAll(old(Examples(dataSet)), means[..], stdDevs[..])
    {
      var i := 0;
      while i < |dataSet|
        invariant 0 <= i <= |dataSet|
        invariant forall k :: 0 <= k < i ==>
                    dataSet[k].features == Scaled(old(dataSet[k].features), means[..], stdDevs[..])
        invariant forall k :: i <= k < |dataSet| ==> dataSet[k].features == old(dataSet[k].features)
      {
        StandardizeInstance(dataSet[i]);
        i := i + 1;
      }
      ScaledAllShape(old(Examples(dataSet)), means[..], stdDevs[..]);
    }

    /** The feature loop of `standardize` for one instance. */
    method StandardizeInstance(instance: Instance)
      requires Valid() && NonZero(stdDevs[..]) && |instance.features| <= means.Length
      modifies instance`features
      ensures instance.features == Scaled(old(instance.features), means[..], stdDevs[..])
    {
      ghost var original := instance.features;
      var j := 0;
      while j < |instance.GetFeatures()|
        invariant |instance.features| == |original|
        invariant 0 <= j <= |original|
        invariant forall m :: 0 <= m < j ==> instance.features[m] == (original[m] - means[m]) / stdDevs[m]
        invariant forall m :: j <= m < |original| ==> instance.features[m] == original[m]
      {
        var scaledFeature := (instance.GetFeatures()[j] - means[j]) / stdDevs[j];
        instance.SetFeature(scaledFeature, j);
        j := j + 1;
      }
      assert instance.features == Scaled(original, means[..], stdDevs[..]);
    }

    /** `trainTestSplit`: the first (int) (n * trainRatio) instances train, the next
        (int) (n * 0.15) validate and the rest test. When a slice bound is out of range
        `subList` throws before anything changes; otherwise the split is `SplitAt` those bounds. */
    method TrainTestSplit(trainRatio: real, standardize: bool, sqrt: Sqrt) returns (r: Result<SplitResult, string>)
      requires Valid() && HasWidth(Examples(instances), means.Length)
      requires SplitFits(|instances|, trainRatio) ==> TrainSize(|instances|, trainRatio) > 0
      requires standardize ==> Distinct(instances)
      modifies means, stdDevs, (set i | i in instances)`features
      ensures r.Success? <==> SplitFits(|instances|, trainRatio)
      ensures r.Failure? ==> unchanged(means, stdDevs) && Examples(instances) == old(Examples(instances))
      ensures r.Success? ==>
                var t := TrainSize(|instances|, trainRatio);
                var u := t + ValidationSize(|instances|);
                var train := old(Examples(instances[..t]));
                && r.value == SplitResult(instances[..t], instances[t..u], instances[u..])
                && (forall j :: 0 <= j < means.Length ==> means[j] == Mean(train, j))
                && (forall j :: 0 <= j < stdDevs.Length ==> stdDevs[j] == StdDev(sqrt, train, j, means[j]))
                && NonZero(stdDevs[..])
                && Examples(instances)
                   == if standardize then ScaledAll(old(Examples(instances)), means[..], stdDevs[..])
                      else old(Examples(instances))
    {
      var n := |instances|;
      var trainSize := TrainSize(n, trainRatio);
      var validationSize := ValidationSize(n);
      if trainSize < 0 || trainSize + validationSize > n {
        return Failure("IndexOutOfBoundsException");
      }
      var split := SplitAt(trainSize, trainSize + validationSize, standardize, sqrt);
      r := Success(split);
    }

    /** The body of `trainTestSplit` once the bounds 0 < t <= u <= n are known: the slices
        instances[..t], instances[t..u] and instances[u..]; the statistics of the train slice,
        computed before standardisation; and, with `standardize`, every instance of the three
        slices standardised with them. */
    method SplitAt(t: nat, u: nat, standardize: bool, sqrt: Sqrt) returns (split: SplitResult)
      requires Valid() && HasWidth(Examples(instances), means.Length)
      requires 0 < t <= u <= |instances|
      requires standardize ==> Distinct(instances)
      modifies means, stdDevs, (set i | i in instances)`features
      ensures split == SplitResult(instances[..t], instances[t..u], instances[u..])
      ensures forall j :: 0 <= j < means.Length ==> means[j] == Mean(old(Examples(instances[..t])), j)
      ensures forall j :: 0 <= j < stdDevs.Length ==>
                stdDevs[j] == StdDev(sqrt, old(Examples(instances[..t])), j, means[j])
      ensures NonZero(stdDevs[..])
      ensures Examples(instances)
              == if standardize then ScaledAll(old(Examples(instances)), means[..], stdDevs[..])
                 else old(Examples(instances))
    {
      var trainSet := instances[..t];
      var validationSet := instances[t..u];
      var testSet := instances[u..];
      ghost var original := Examples(instances);
      ghost var train := Examples(trainSet);
      HasWidthSlice(instances, 0, t, means.Length);

      ComputeStatistics(trainSet, sqrt);
      if standardize {
        ComputeStatistics(trainSet, sqrt);
        assert forall j :: 0 <= j < means.Length ==> means[j] == Mean(train, j);
        assert forall j :: 0 <= j < stdDevs.Length ==> stdDevs[j] == StdDev(sqrt, train, j, means[j]);
        StandardizeSlices(t, u);
        ScaledAllShape(original, means[..], stdDevs[..]);
      }
      split := SplitResult(trainSet, validationSet, testSet);
    }

    /** `computeMeans` then `computeStdDevs` on the train slice, as `trainTestSplit` does. */
    method ComputeStatistics(trainSet: seq<Instance>, sqrt: Sqrt)
      requires Valid() && |trainSet| > 0 && HasWidth(Examples(trainSet), means.Length)
      modifies means, stdDevs
      ensures Examples(trainSet) == old(Examples(trainSet))
      ensures forall j :: 0 <= j < means.Length ==> means[j] == Mean(Examples(trainSet), j)
      ensures forall j :: 0 <= j < stdDevs.Length ==> stdDevs[j] == StdDev(sqrt, Examples(trainSet), j, means[j])
      ensures NonZero(stdDevs[..])
    {
      ComputeMeans(trainSet);
      ComputeStdDevs(trainSet, sqrt);
    }

    /** The three `standardize` calls of `trainTestSplit`, on instances[..a], instances[a..b]
        and instances[b..]: since no instance occurs twice, each is standardised once. */
    method StandardizeSlices(a: nat, b: nat)
      requires Valid() && NonZero(stdDevs[..]) && Distinct(instances) && a <= b <= |instances|
      requires forall k :: 0 <= k < |instances| ==> |instances[k].features| <= means.Length
      modifies (set i | i in instances)`features
      ensures forall k :: 0 <= k < |instances| ==>
                instances[k].features == Scaled(old(instances[k].features), means[..], stdDevs[..])
    {
      StandardizeRange(0, a);
      StandardizeRange(a, b);
      StandardizeRange(b, |instances|);
    }

    /** `standardize(instances.subList(a, b))`: the instances at positions a to b are
        standardised, and, since no instance occurs twice, those elsewhere keep their features. */
    method StandardizeRange(a: nat, b: nat)
      requires Valid() && NonZero(stdDevs[..]) && Distinct(instances) && a <= b <= |instances|
      requires forall k :: 0 <= k < |instances| ==> |instances[k].features| <= means.Length
      modifies (set i | i in instances)`features
      ensures forall k :: a <= k < b ==>
                instances[k].features == Scaled(old(instances[k].features), means[..], stdDevs[..])
      ensures forall k :: 0 <= k < |instances| && !(a <= k < b) ==> instances[k].features == old(instances[k].features)
      ensures forall k :: 0 <= k < |instances| ==> |instances[k].features| == old(|instances[k].features|)
    {
      var slice := instances[a..b];
      DistinctSlice(instances, a, b);
      Standardize(slice);
      forall k | a <= k < b
        ensures instances[k].features == Scaled(old(instances[k].features), means[..], stdDevs[..])
      {
        assert slice[k - a] == instances[k];
      }
      forall k | 0 <= k < |instances| && !(a <= k < b)
        ensures instances[k].features == old(instances[k].features)
      {
        DistinctApart(instances, a, b, k);
      }
    }

    /** `Collections.shuffle`: for i from n down to 2, swap position i - 1 with a position
        below i. The random positions are the parameter: draws[n - i] is the one drawn for i.
        The list afterwards holds the same instances, each as often as before. */
    method Shuffle(draws: seq<nat>)
      requires |instances| <= |draws| + 1
      requires forall m :: 0 <= m < |draws| && m + 1 < |instances| ==> draws[m] < |instances| - m
      modifies this`instances
      ensures |instances| == old(|instances|)
      ensures multiset(instances) == multiset(old(instances))
    {
      var i := |instances|;
      while i > 1
        invariant 0 <= i <= |instances| == old(|instances|)
        invariant multiset(instances) == multiset(old(instances))
      {
        var j := draws[|instances| - i];
        var swapped := instances[i - 1];
        instances := instances[i - 1 := instances[j]][j := swapped];
        i := i - 1;
      }
    }
  }
}
