/** A CART decision tree over labels 0/1: nodes are split on the feature and midpoint threshold
    of least weighted Gini impurity until a depth bound, a minimum sample count or a pure label
    set stops the growth; a leaf predicts the majority label of the examples that reached it. */
module DecisionTrees {
  import opened Numeric
  import opened Instances
  import opened Metrics
  import opened TreeNodes
  import opened Sorting

  // ---------------------------------------------------------------- label counts

  /** The number of examples labelled 1. */
  function CountOnes(data: seq<Example>): (c: nat)
    ensures c <= |data|
  {
    if |data| == 0 then 0
    else CountOnes(data[..|data| - 1]) + (if data[|data| - 1].classLabel == 1 then 1 else 0)
  }

  /** 1 when at least half of the labels are 1 (ties and the empty list included), otherwise 0. */
  function Majority(data: seq<Example>): int {
    var ones := CountOnes(data);
    if ones >= |data| - ones then 1 else 0
  }

  /** Every label equals the first one; the empty list is pure. */
  predicate Pure(data: seq<Example>) {
    forall k :: 0 <= k < |data| ==> data[k].classLabel == data[0].classLabel
  }

  /** In a pure list every example or none is labelled 1. */
  lemma {:induction false} CountOnesOfPure(data: seq<Example>)
    requires Pure(data) && |data| > 0
    ensures CountOnes(data) == if data[0].classLabel == 1 then |data| else 0
  {
    if |data| > 1 {
      var k := |data| - 1;
      assert Pure(data[..k]);
      CountOnesOfPure(data[..k]);
    }
  }

  /** The majority label is 0 or 1, and a non-empty pure list votes for its own label when that
      label is 0 or 1 (any other common label votes 0). */
  lemma MajorityOfPure(data: seq<Example>)
    ensures Majority(data) == 0 || Majority(data) == 1
    ensures Majority(data) == 1 <==> 2 * CountOnes(data) >= |data|
    ensures Pure(data) && |data| > 0 ==> Majority(data) == if data[0].classLabel == 1 then 1 else 0
  {
    if Pure(data) && |data| > 0 {
      CountOnesOfPure(data);
    }
  }

  // ---------------------------------------------------------------- Gini impurity

  /** 1 - (p1² + p0²) for the share p1 of label 1 and p0 = 1 - p1. */
  function GiniOfShare(p1: real): real {
    var p0 := 1.0 - p1;
    1.0 - (p1 * p1 + p0 * p0)
  }

  /** Gini impurity of a list with `ones` labels 1 among n examples. */
  function GiniOf(ones: nat, n: nat): real
    requires n > 0
  {
    GiniOfShare(ones as real / n as real)
  }

  /** Gini impurity of a list: 0 for the empty list. */
  function GiniImpurity(data: seq<Example>): real {
    if |data| == 0 then 0.0 else GiniOf(CountOnes(data), |data|)
  }

  lemma ShareGiniRange(p: real)
    requires 0.0 <= p <= 1.0
    ensures 0.0 <= GiniOfShare(p) <= 0.5
    ensures GiniOfShare(p) == 0.0 <==> p == 0.0 || p == 1.0
    ensures p == 0.5 ==> GiniOfShare(p) == 0.5
  {
    var q := 1.0 - p;
    assert GiniOfShare(p) == 2.0 * (p * q);
    ProductSign(p, q);
    var d := if p >= 0.5 then p - 0.5 else 0.5 - p;
    assert 0.5 - GiniOfShare(p) == 2.0 * (d * d);
    ProductSign(d, d);
  }

  /** The share ones / n of label 1 lies in [0, 1]; it is 0 or 1 exactly for none or all. */
  lemma ShareRange(ones: nat, n: nat)
    requires 0 < n && ones <= n
    ensures var p := ones as real / n as real;
            0.0 <= p <= 1.0 && (p == 0.0 <==> ones == 0) && (p == 1.0 <==> ones == n)
            && (2 * ones == n ==> p == 0.5)
  {
    var p := ones as real / n as real;
    assert p * n as real == ones as real;
  }

  /** The impurity lies in [0, 1/2]; it is 0 exactly when all or none of the labels are 1, and
      1/2 for a balanced non-empty list. */
  lemma GiniRange(data: seq<Example>)
    ensures 0.0 <= GiniImpurity(data) <= 0.5
    ensures GiniImpurity(data) == 0.0 <==> CountOnes(data) == 0 || CountOnes(data) == |data|
    ensures |data| > 0 && 2 * CountOnes(data) == |data| ==> GiniImpurity(data) == 0.5
  {
    if |data| > 0 {
      var p := CountOnes(data) as real / |data| as real;
      ShareRange(CountOnes(data), |data|);
      ShareGiniRange(p);
      assert GiniImpurity(data) == GiniOfShare(p);
      if 2 * CountOnes(data) == |data| {
        assert p == 0.5;
      }
    }
  }

  // ---------------------------------------------------------------- partition

  /** The examples whose feature f is at most t, in their original order. */
  function Below(data: seq<Example>, f: nat, t: real): (r: seq<Example>)
    requires Wide(data, f + 1)
    ensures |r| <= |data|
  {
    if |data| == 0 then []
    else if data[|data| - 1].features[f] <= t then Below(data[..|data| - 1], f, t) + [data[|data| - 1]]
    else Below(data[..|data| - 1], f, t)
  }

  /** The examples whose feature f exceeds t, in their original order. */
  function Above(data: seq<Example>, f: nat, t: real): (r: seq<Example>)
    requires Wide(data, f + 1)
    ensures |r| <= |data|
  {
    if |data| == 0 then []
    else if data[|data| - 1].features[f] <= t then Above(data[..|data| - 1], f, t)
    else Above(data[..|data| - 1], f, t) + [data[|data| - 1]]
  }

  /** `value <= threshold` sends an example left, anything else right: the two sides together
      hold every example exactly once. */
  lemma {:induction false} PartitionSplits(data: seq<Example>, f: nat, t: real)
    requires Wide(data, f + 1)
    ensures multiset(Below(data, f, t)) + multiset(Above(data, f, t)) == multiset(data)
    ensures |Below(data, f, t)| + |Above(data, f, t)| == |data|
  {
    if |data| > 0 {
      var k := |data| - 1;
      PartitionSplits(data[..k], f, t);
      assert data == data[..k] + [data[k]];
    }
  }

  /** Each side holds exactly the examples of its condition. */
  lemma {:induction false} PartitionMembers(data: seq<Example>, f: nat, t: real)
    requires Wide(data, f + 1)
    ensures forall e :: e in Below(data, f, t) <==> e in data && e.features[f] <= t
    ensures forall e :: e in Above(data, f, t) <==> e in data && e.features[f] > t
  {
    if |data| > 0 {
      var k := |data| - 1;
      PartitionMembers(data[..k], f, t);
      assert data == data[..k] + [data[k]];
    }
  }

  /** Every example has as many features as the first. */
  predicate Uniform(data: seq<Example>) {
    forall k :: 0 <= k < |data| ==> |data[k].features| == |data[0].features|
  }

  /** A list drawn from a uniform list of width m is uniform of width m. */
  lemma DrawnUniform(data: seq<Example>, sub: seq<Example>, m: nat)
    requires HasWidth(data, m)
    requires forall e :: e in sub ==> e in data
    ensures Uniform(sub) && HasWidth(sub, m)
  {
    forall k | 0 <= k < |sub| ensures |sub[k].features| == m {
      assert sub[k] in data;
    }
  }

  // ---------------------------------------------------------------- candidate splits

  /** A candidate split: feature, threshold and the weighted impurity of splitting there. */
  datatype BestSplit = BestSplit(featureIndex: nat, threshold: real, impurity: real)

  /** Feature f of every example, in list order. */
  function Column(data: seq<Example>, f: nat): (r: seq<real>)
    requires Wide(data, f + 1)
    ensures |r| == |data|
    ensures forall k :: 0 <= k < |data| ==> r[k] == data[k].features[f]
  {
    if |data| == 0 then [] else Column(data[..|data| - 1], f) + [data[|data| - 1].features[f]]
  }

  /** The impurity of the two sides of a split, each weighted by its share of the examples. */
  function SplitGini(data: seq<Example>, f: nat, t: real): real
    requires |data| > 0 && Wide(data, f + 1)
  {
    var left := Below(data, f, t);
    var right := Above(data, f, t);
    var leftWeight := |left| as real / |data| as real;
    var rightWeight := |right| as real / |data| as real;
    leftWeight * GiniImpurity(left) + rightWeight * GiniImpurity(right)
  }

  /** A place to split: a feature and a threshold on it. */
  datatype Cut = Cut(featureIndex: nat, threshold: real)

  /** The cuts of feature f from its sorted values v, up to position i: one midpoint for each
      pair of distinct neighbours v[j], v[j + 1] with j < i, in ascending order. */
  function CutsUpTo(f: nat, v: seq<real>, i: nat): (cuts: seq<Cut>)
    requires i < |v|
    ensures forall j :: 0 <= j < |cuts| ==> cuts[j].featureIndex == f
  {
    if i == 0 then []
    else if v[i - 1] == v[i] then CutsUpTo(f, v, i - 1)
    else CutsUpTo(f, v, i - 1) + [Cut(f, (v[i - 1] + v[i]) / 2.0)]
  }

  /** The cuts of feature f: midpoints of distinct neighbours among its sorted values. */
  function FeatureCuts(data: seq<Example>, f: nat): seq<Cut>
    requires |data| > 0 && Wide(data, f + 1)
  {
    CutsUpTo(f, Sort(Column(data, f)), |data| - 1)
  }

  /** The lists of parts, one after another. */
  function Flatten<T>(parts: seq<seq<T>>): seq<T> {
    if |parts| == 0 then [] else Flatten(parts[..|parts| - 1]) + parts[|parts| - 1]
  }

  /** Each element of the flattened list comes from some part. */
  lemma {:induction false} FlattenIndex<T>(parts: seq<seq<T>>, j: nat) returns (g: nat, i: nat)
    requires j < |Flatten(parts)|
    ensures g < |parts| && i < |parts[g]| && Flatten(parts)[j] == parts[g][i]
  {
    var n := |parts| - 1;
    var prior := Flatten(parts[..n]);
    if j < |prior| {
      g, i := FlattenIndex(parts[..n], j);
      assert parts[..n][g] == parts[g];
    } else {
      g, i := n, j - |prior|;
    }
  }

  /** The flattened list is empty exactly when every part is. */
  lemma {:induction false} FlattenEmpty<T>(parts: seq<seq<T>>)
    ensures |Flatten(parts)| == 0 <==> forall g :: 0 <= g < |parts| ==> |parts[g]| == 0
  {
    if |parts| > 0 {
      var n := |parts| - 1;
      FlattenEmpty(parts[..n]);
      assert forall g :: 0 <= g < n ==> parts[..n][g] == parts[g];
    }
  }

  /** The cuts of each of features 0 .. f - 1. */
  function CutLists(data: seq<Example>, f: nat): (lists: seq<seq<Cut>>)
    requires |data| > 0 && Wide(data, f)
    ensures |lists| == f
  {
    seq(f, g requires 0 <= g < f => FeatureCuts(data, g))
  }

  /** The cuts of features 0 .. f - 1, feature by feature. */
  function CutsBefore(data: seq<Example>, f: nat): seq<Cut>
    requires |data| > 0 && Wide(data, f)
  {
    Flatten(CutLists(data, f))
  }

  /** Each cut of features 0 .. f - 1 is a cut of one of them. */
  lemma CutFrom(data: seq<Example>, f: nat, j: nat) returns (g: nat, i: nat)
    requires |data| > 0 && Wide(data, f) && j < |CutsBefore(data, f)|
    ensures g < f && i < |FeatureCuts(data, g)| && CutsBefore(data, f)[j] == FeatureCuts(data, g)[i]
  {
    g, i := FlattenIndex(CutLists(data, f), j);
    assert CutLists(data, f)[g] == FeatureCuts(data, g);
  }

  /** The cuts of one more feature extend those of the features before it. */
  lemma CutsBeforeNext(data: seq<Example>, f: nat)
    requires |data| > 0 && Wide(data, f + 1)
    ensures CutsBefore(data, f + 1) == CutsBefore(data, f) + FeatureCuts(data, f)
  {
    var lists, prior := CutLists(data, f + 1), CutLists(data, f);
    assert forall g :: 0 <= g < f ==> lists[..f][g] == prior[g];
    assert lists[..f] == prior;
  }

  /** Every cut of features 0 .. f - 1 reads one of them. */
  lemma CutsBeforeReads(data: seq<Example>, f: nat)
    requires |data| > 0 && Wide(data, f)
    ensures Reads(CutsBefore(data, f), f)
  {
    forall j | 0 <= j < |CutsBefore(data, f)| ensures CutsBefore(data, f)[j].featureIndex < f {
      var g, i := CutFrom(data, f, j);
    }
  }

  /** Every cut reads a feature below f. */
  predicate Reads(cuts: seq<Cut>, f: nat) {
    forall j :: 0 <= j < |cuts| ==> cuts[j].featureIndex < f
  }

  /** A cut together with the weighted impurity of splitting there. */
  function Candidate(data: seq<Example>, c: Cut): BestSplit
    requires |data| > 0 && Wide(data, c.featureIndex + 1)
  {
    BestSplit(c.featureIndex, c.threshold, SplitGini(data, c.featureIndex, c.threshold))
  }

  /** Each cut with its weighted impurity, in order. */
  function Scored(data: seq<Example>, cuts: seq<Cut>, f: nat): (cands: seq<BestSplit>)
    requires |data| > 0 && Wide(data, f) && Reads(cuts, f)
    ensures |cands| == |cuts|
  {
    seq(|cuts|, j requires 0 <= j < |cuts| => Candidate(data, cuts[j]))
  }

  /** Every candidate, in the order the search visits them: feature ascending, threshold
      ascending. The feature count is that of the first example. */
  function Candidates(data: seq<Example>): seq<BestSplit>
    requires |data| > 0 && Wide(data, |data[0].features|)
  {
    CutsBeforeReads(data, |data[0].features|);
    Scored(data, CutsBefore(data, |data[0].features|), |data[0].features|)
  }

  // ---------------------------------------------------------------- the search

  /** The running best after candidate c: c replaces it only when strictly less impure. */
  function Choose(best: Option<BestSplit>, c: BestSplit): Option<BestSplit> {
    if best.None? || c.impurity < best.value.impurity then Some(c) else best
  }

  /** The running best after visiting `cands` in order, starting from `best`. */
  function Scan(best: Option<BestSplit>, cands: seq<BestSplit>): Option<BestSplit> {
    if |cands| == 0 then best else Choose(Scan(best, cands[..|cands| - 1]), cands[|cands| - 1])
  }

  /** The split `findBestSplit` returns; None stands for null. */
  function FindBest(data: seq<Example>): Option<BestSplit>
    requires |data| > 0 && Wide(data, |data[0].features|)
  {
    Scan(None, Candidates(data))
  }

  lemma {:induction false} ScanAppend(best: Option<BestSplit>, a: seq<BestSplit>, b: seq<BestSplit>)
    ensures Scan(best, a + b) == Scan(Scan(best, a), b)
  {
    if |b| > 0 {
      var k := |b| - 1;
      assert (a + b)[..|a + b| - 1] == a + b[..k];
      ScanAppend(best, a, b[..k]);
    } else {
      assert a + b == a;
    }
  }

  /** Position k holds a least impurity of the list, and no earlier position ties with it. */
  predicate FirstMinimum(cands: seq<BestSplit>, k: int) {
    0 <= k < |cands|
    && (forall j :: 0 <= j < |cands| ==> cands[k].impurity <= cands[j].impurity)
    && (forall j :: 0 <= j < k ==> cands[k].impurity < cands[j].impurity)
  }

  /** A last candidate strictly below the first minimum of the others is the first minimum. */
  lemma NewMinimum(cands: seq<BestSplit>, k: nat)
    requires |cands| > 0 && FirstMinimum(cands[..|cands| - 1], k)
    requires cands[|cands| - 1].impurity < cands[k].impurity
    ensures FirstMinimum(cands, |cands| - 1)
  {
    var n := |cands| - 1;
    forall j | 0 <= j < n ensures cands[n].impurity < cands[j].impurity {
      assert cands[..n][j] == cands[j];
    }
  }

  /** A last candidate not below the first minimum of the others leaves it the first minimum. */
  lemma OldMinimum(cands: seq<BestSplit>, k: nat)
    requires |cands| > 0 && FirstMinimum(cands[..|cands| - 1], k)
    requires cands[k].impurity <= cands[|cands| - 1].impurity
    ensures FirstMinimum(cands, k)
  {
    var n := |cands| - 1;
    forall j | 0 <= j < n ensures cands[k].impurity <= cands[j].impurity {
      assert cands[..n][j] == cands[j];
    }
    forall j | 0 <= j < k ensures cands[k].impurity < cands[j].impurity {
      assert cands[..n][j] == cands[j];
    }
  }

  /** With a strict `<` against a running best that starts empty, the search ends with nothing
      exactly when there are no candidates, and otherwise with the first least-impure one, k. */
  lemma {:induction false} ScanFindsFirstMinimum(cands: seq<BestSplit>) returns (k: nat)
    ensures Scan(None, cands).None? <==> |cands| == 0
    ensures |cands| > 0 ==> FirstMinimum(cands, k) && Scan(None, cands) == Some(cands[k])
  {
    k := 0;
    if |cands| > 0 {
      var n := |cands| - 1;
      var j := ScanFindsFirstMinimum(cands[..n]);
      var best := Scan(None, cands[..n]);
      if best.None? {
        k := 0;
        assert FirstMinimum(cands, 0);
      } else if cands[n].impurity < best.value.impurity {
        NewMinimum(cands, j);
        k := n;
      } else {
        OldMinimum(cands, j);
        k := j;
      }
    }
  }

  // ---------------------------------------------------------------- what the search returns

  /** Feature f takes the same value on every example. */
  predicate ConstantFeature(data: seq<Example>, f: nat)
    requires |data| > 0 && Wide(data, f + 1)
  {
    forall k :: 0 <= k < |data| ==> data[k].features[f] == data[0].features[f]
  }

  /** No cut of the sorted values up to position i exactly when each of them up to i equals
      its right neighbour. */
  lemma {:induction false} CutsUpToEmpty(f: nat, v: seq<real>, i: nat)
    requires i < |v|
    ensures |CutsUpTo(f, v, i)| == 0 <==> forall j :: 0 <= j < i ==> v[j] == v[j + 1]
  {
    if i > 0 {
      CutsUpToEmpty(f, v, i - 1);
    }
  }

  /** Feature f offers no cut exactly when it is constant. */
  lemma FeatureCutsEmpty(data: seq<Example>, f: nat)
    requires |data| > 0 && Wide(data, f + 1)
    ensures |FeatureCuts(data, f)| == 0 <==> ConstantFeature(data, f)
  {
    var column := Column(data, f);
    var v := Sort(column);
    CutsUpToEmpty(f, v, |v| - 1);
    AscendingNeighbours(v);
    ConstantPermutation(column, v);
    ColumnConstant(data, f);
  }

  /** The column of feature f is constant exactly when the feature is. */
  lemma ColumnConstant(data: seq<Example>, f: nat)
    requires |data| > 0 && Wide(data, f + 1)
    ensures Constant(Column(data, f)) <==> ConstantFeature(data, f)
  {
  }

  /** Features 0 .. f - 1 offer no cut exactly when each of them is constant. */
  lemma CutsBeforeEmpty(data: seq<Example>, f: nat)
    requires |data| > 0 && Wide(data, f)
    ensures |CutsBefore(data, f)| == 0 <==> forall g :: 0 <= g < f ==> ConstantFeature(data, g)
  {
    var lists := CutLists(data, f);
    FlattenEmpty(lists);
    forall g | 0 <= g < f ensures |lists[g]| == 0 <==> ConstantFeature(data, g) {
      FeatureCutsEmpty(data, g);
    }
  }

  /** `findBestSplit` returns null exactly when every feature is constant over the data. */
  lemma NoSplitIffConstant(data: seq<Example>)
    requires |data| > 0 && Wide(data, |data[0].features|)
    ensures FindBest(data).None? <==> forall g :: 0 <= g < |data[0].features| ==> ConstantFeature(data, g)
  {
    var _ := ScanFindsFirstMinimum(Candidates(data));
    CutsBeforeEmpty(data, |data[0].features|);
  }

  /** t lies halfway between two distinct neighbours of the list v. */
  predicate MidpointOfNeighbours(v: seq<real>, t: real) {
    exists j :: 0 <= j < |v| - 1 && v[j] != v[j + 1] && t == (v[j] + v[j + 1]) / 2.0
  }

  /** Every cut of feature f is a midpoint of distinct neighbours of v. */
  lemma {:induction false} CutsUpToMidpoints(f: nat, v: seq<real>, i: nat)
    requires i < |v|
    ensures forall j :: 0 <= j < |CutsUpTo(f, v, i)| ==> MidpointOfNeighbours(v, CutsUpTo(f, v, i)[j].threshold)
  {
    if i > 0 {
      CutsUpToMidpoints(f, v, i - 1);
      if v[i - 1] != v[i] {
        assert MidpointOfNeighbours(v, (v[i - 1] + v[i]) / 2.0);
      }
    }
  }

  /** An example whose feature f is at most t lands on the left side. */
  lemma {:induction false} BelowReached(data: seq<Example>, f: nat, t: real, k: nat)
    requires Wide(data, f + 1) && k < |data| && data[k].features[f] <= t
    ensures |Below(data, f, t)| > 0
  {
    var last := |data| - 1;
    if k < last {
      BelowReached(data[..last], f, t, k);
    }
  }

  /** An example whose feature f exceeds t lands on the right side. */
  lemma {:induction false} AboveReached(data: seq<Example>, f: nat, t: real, k: nat)
    requires Wide(data, f + 1) && k < |data| && data[k].features[f] > t
    ensures |Above(data, f, t)| > 0
  {
    var last := |data| - 1;
    if k < last {
      AboveReached(data[..last], f, t, k);
    }
  }

  /** a < b are values of feature f with no value of it strictly between them: neighbours in
      the sorted list of the feature's values. */
  ghost predicate AdjacentValues(data: seq<Example>, f: nat, a: real, b: real)
    requires Wide(data, f + 1)
  {
    a < b
    && (exists k :: 0 <= k < |data| && data[k].features[f] == a)
    && (exists k :: 0 <= k < |data| && data[k].features[f] == b)
    && forall k :: 0 <= k < |data| ==> data[k].features[f] <= a || b <= data[k].features[f]
  }

  /** The cut's threshold lies halfway between two adjacent values of its feature. */
  ghost predicate Halfway(data: seq<Example>, c: Cut)
    requires Wide(data, c.featureIndex + 1)
  {
    exists a, b :: AdjacentValues(data, c.featureIndex, a, b) && c.threshold == (a + b) / 2.0
  }

  /** Distinct neighbours in the sorted values of feature f are adjacent values of it. */
  lemma SortedNeighboursAdjacent(data: seq<Example>, f: nat, j: nat)
    requires Wide(data, f + 1) && j + 1 < |data|
    requires Sort(Column(data, f))[j] != Sort(Column(data, f))[j + 1]
    ensures AdjacentValues(data, f, Sort(Column(data, f))[j], Sort(Column(data, f))[j + 1])
  {
    var column := Column(data, f);
    var ka, kb := SortedNeighbours(column, j);
  }

  /** Each cut of feature f lies halfway between adjacent values of it. */
  lemma FeatureCutHalfway(data: seq<Example>, f: nat, j: nat)
    requires |data| > 0 && Wide(data, f + 1) && j < |FeatureCuts(data, f)|
    ensures Halfway(data, FeatureCuts(data, f)[j])
  {
    var v := Sort(Column(data, f));
    var c := FeatureCuts(data, f)[j];
    CutsUpToMidpoints(f, v, |data| - 1);
    assert MidpointOfNeighbours(v, c.threshold);
    var m :| 0 <= m < |v| - 1 && v[m] != v[m + 1] && c.threshold == (v[m] + v[m + 1]) / 2.0;
    SortedNeighboursAdjacent(data, f, m);
    assert AdjacentValues(data, c.featureIndex, v[m], v[m + 1]);
  }

  /** Each cut of features 0 .. f - 1 lies halfway between adjacent values of its feature. */
  lemma CutHalfway(data: seq<Example>, f: nat, j: nat)
    requires |data| > 0 && Wide(data, f) && j < |CutsBefore(data, f)|
    ensures CutsBefore(data, f)[j].featureIndex < f && Halfway(data, CutsBefore(data, f)[j])
  {
    var g, i := CutFrom(data, f, j);
    FeatureCutHalfway(data, g, i);
  }

  /** A threshold halfway between adjacent values leaves an example on each side. */
  lemma HalfwaySeparates(data: seq<Example>, c: Cut)
    requires Wide(data, c.featureIndex + 1) && Halfway(data, c)
    ensures |Below(data, c.featureIndex, c.threshold)| > 0 && |Above(data, c.featureIndex, c.threshold)| > 0
  {
    var f, t := c.featureIndex, c.threshold;
    var a, b :| AdjacentValues(data, f, a, b) && t == (a + b) / 2.0;
    var ka :| 0 <= ka < |data| && data[ka].features[f] == a;
    var kb :| 0 <= kb < |data| && data[kb].features[f] == b;
    BelowReached(data, f, t, ka);
    AboveReached(data, f, t, kb);
  }

  /** A split the search returns reads a feature of the first example, lies halfway between two
      adjacent values of it and so leaves both sides non-empty, carries its own weighted
      impurity, and is the first least impure candidate in the order the search visits them. */
  lemma FindBestSeparates(data: seq<Example>)
    requires |data| > 0 && Wide(data, |data[0].features|)
    ensures FindBest(data).Some? ==>
              var s := FindBest(data).value;
              s.featureIndex < |data[0].features|
              && Halfway(data, Cut(s.featureIndex, s.threshold))
              && |Below(data, s.featureIndex, s.threshold)| > 0
              && |Above(data, s.featureIndex, s.threshold)| > 0
              && s.impurity == SplitGini(data, s.featureIndex, s.threshold)
              && exists k :: FirstMinimum(Candidates(data), k) && Candidates(data)[k] == s
  {
    var cands := Candidates(data);
    var k := ScanFindsFirstMinimum(cands);
    if FindBest(data).Some? {
      var cuts := CutsBefore(data, |data[0].features|);
      CutHalfway(data, |data[0].features|, k);
      HalfwaySeparates(data, cuts[k]);
    }
  }

  // ---------------------------------------------------------------- growing the tree

  /** Both sides of a split of a list whose examples all have m features have m features too. */
  lemma SidesHaveWidth(data: seq<Example>, f: nat, t: real, m: nat)
    requires HasWidth(data, m) && f < m
    ensures HasWidth(Below(data, f, t), m) && HasWidth(Above(data, f, t), m)
    ensures Uniform(Below(data, f, t)) && Uniform(Above(data, f, t))
  {
    PartitionMembers(data, f, t);
    DrawnUniform(data, Below(data, f, t), m);
    DrawnUniform(data, Above(data, f, t), m);
  }

  /** The search on a uniform non-empty list: its preconditions hold, and a split it returns
      reads a feature every example has. */
  lemma SearchOnUniform(data: seq<Example>)
    requires Uniform(data) && |data| > 0
    ensures Wide(data, |data[0].features|) && HasWidth(data, |data[0].features|)
    ensures FindBest(data).Some? ==> FindBest(data).value.featureIndex < |data[0].features|
  {
    FindBestSeparates(data);
  }

  /** The bound on the recursion of `buildTree`: the levels left above maxDepth. */
  function LevelsLeft(depth: int, maxDepth: int): nat {
    if depth < maxDepth then maxDepth - depth else 0
  }

  /** The split `buildTree` makes at a node: none when the depth bound is reached, fewer than
      minSamplesSplit examples remain or the labels are pure, nor when no feature can be split;
      otherwise the best split of the search. */
  function NodeSplit(data: seq<Example>, depth: int, maxDepth: int, minSamplesSplit: int): (r: Option<BestSplit>)
    requires Uniform(data)
    ensures r.Some? ==> depth < maxDepth && |data| > 0 && r.value.featureIndex < |data[0].features|
  {
    if depth >= maxDepth || |data| < minSamplesSplit || Pure(data) then None
    else
      SearchOnUniform(data);
      FindBest(data)
  }

  /** `buildTree(data, depth)`: a leaf voting the majority label where no split is made;
      otherwise a node on the split whose children grow one level deeper from the examples at
      most, and above, the threshold. */
  function Grow(data: seq<Example>, depth: int, maxDepth: int, minSamplesSplit: int): TreeNode
    requires Uniform(data)
    decreases LevelsLeft(depth, maxDepth)
  {
    match NodeSplit(data, depth, maxDepth, minSamplesSplit)
    case None => MakeLeaf(Majority(data))
    case Some(s) =>
      SidesHaveWidth(data, s.featureIndex, s.threshold, |data[0].features|);
      MakeSplit(s.featureIndex, s.threshold,
                Grow(Below(data, s.featureIndex, s.threshold), depth + 1, maxDepth, minSamplesSplit),
                Grow(Above(data, s.featureIndex, s.threshold), depth + 1, maxDepth, minSamplesSplit))
  }

  /** The grown tree has the builder's shape and splits only on features every example has. */
  lemma {:induction false} GrowWellFormed(data: seq<Example>, depth: int, maxDepth: int, minSamplesSplit: int, m: nat)
    requires HasWidth(data, m)
    ensures Uniform(data)
    ensures WellFormed(Grow(data, depth, maxDepth, minSamplesSplit))
    ensures ReadsBelow(Grow(data, depth, maxDepth, minSamplesSplit), m)
    decreases LevelsLeft(depth, maxDepth)
  {
    MajorityOfPure(data);
    match NodeSplit(data, depth, maxDepth, minSamplesSplit)
    case None =>
    case Some(s) =>
      SidesHaveWidth(data, s.featureIndex, s.threshold, m);
      GrowWellFormed(Below(data, s.featureIndex, s.threshold), depth + 1, maxDepth, minSamplesSplit, m);
      GrowWellFormed(Above(data, s.featureIndex, s.threshold), depth + 1, maxDepth, minSamplesSplit, m);
  }

  /** The grown tree is no deeper than the levels left above maxDepth; in particular at or
      past maxDepth it is a single leaf voting the majority label. */
  lemma {:induction false} GrowHeight(data: seq<Example>, depth: int, maxDepth: int, minSamplesSplit: int)
    requires Uniform(data)
    ensures Height(Grow(data, depth, maxDepth, minSamplesSplit)) <= LevelsLeft(depth, maxDepth)
    ensures depth >= maxDepth ==> Grow(data, depth, maxDepth, minSamplesSplit) == MakeLeaf(Majority(data))
    decreases LevelsLeft(depth, maxDepth)
  {
    match NodeSplit(data, depth, maxDepth, minSamplesSplit)
    case None =>
    case Some(s) =>
      SidesHaveWidth(data, s.featureIndex, s.threshold, |data[0].features|);
      GrowHeight(Below(data, s.featureIndex, s.threshold), depth + 1, maxDepth, minSamplesSplit);
      GrowHeight(Above(data, s.featureIndex, s.threshold), depth + 1, maxDepth, minSamplesSplit);
  }

  // ---------------------------------------------------------------- prediction

  /** `predictSingle` from node t: `x[feature] <= threshold` goes left, anything else right,
      until a leaf, whose label is the prediction; on a built tree that is 0 or 1. */
  function Classify(t: TreeNode, x: seq<real>): (y: int)
    requires WellFormed(t) && ReadsBelow(t, |x|)
    ensures y == 0 || y == 1
    decreases t
  {
    if t.isLeaf then t.predictedLabel
    else if x[t.splitFeatureIndex] <= t.splitThreshold.v then Classify(t.leftChild.value, x)
    else Classify(t.rightChild.value, x)
  }

  /** The side of a split that x takes: at most the threshold left, above it right. The side
      is drawn from the list, keeps its width, and holds every example whose features are x. */
  function Side(data: seq<Example>, f: nat, t: real, x: seq<real>): (side: seq<Example>)
    requires HasWidth(data, |x|) && f < |x|
    ensures HasWidth(side, |x|)
    ensures multiset(side) <= multiset(data)
    ensures forall e :: e in data && e.features == x ==> e in side
  {
    SidesHaveWidth(data, f, t, |x|);
    SidesDrawn(data, f, t);
    PartitionMembers(data, f, t);
    if x[f] <= t then Below(data, f, t) else Above(data, f, t)
  }

  /** The training examples that grew the leaf x is routed to: the examples that take the same
      side as x at every split on the way down. */
  function Reach(data: seq<Example>, depth: int, maxDepth: int, minSamplesSplit: int, x: seq<real>): seq<Example>
    requires HasWidth(data, |x|)
    decreases LevelsLeft(depth, maxDepth)
  {
    match NodeSplit(data, depth, maxDepth, minSamplesSplit)
    case None => data
    case Some(s) => Reach(Side(data, s.featureIndex, s.threshold, x), depth + 1, maxDepth, minSamplesSplit, x)
  }

  /** An input is labelled by the majority vote of the training examples routed with it. */
  lemma {:induction false} GrowClassifies(data: seq<Example>, depth: int, maxDepth: int, minSamplesSplit: int, x: seq<real>)
    requires HasWidth(data, |x|)
    ensures WellFormed(Grow(data, depth, maxDepth, minSamplesSplit))
    ensures ReadsBelow(Grow(data, depth, maxDepth, minSamplesSplit), |x|)
    ensures Classify(Grow(data, depth, maxDepth, minSamplesSplit), x)
            == Majority(Reach(data, depth, maxDepth, minSamplesSplit, x))
    decreases LevelsLeft(depth, maxDepth)
  {
    GrowWellFormed(data, depth, maxDepth, minSamplesSplit, |x|);
    match NodeSplit(data, depth, maxDepth, minSamplesSplit)
    case None =>
    case Some(s) =>
      var f, t := s.featureIndex, s.threshold;
      SidesHaveWidth(data, f, t, |x|);
      GrowClassifies(Side(data, f, t, x), depth + 1, maxDepth, minSamplesSplit, x);
  }

  /** Each side of a split is drawn from the list. */
  lemma SidesDrawn(data: seq<Example>, f: nat, t: real)
    requires Wide(data, f + 1)
    ensures multiset(Below(data, f, t)) <= multiset(data) && multiset(Above(data, f, t)) <= multiset(data)
  {
    PartitionSplits(data, f, t);
  }

  /** The examples routed with an input are drawn from the training list, and a training example
      is routed with its own features. */
  lemma {:induction false} ReachDrawn(data: seq<Example>, depth: int, maxDepth: int, minSamplesSplit: int, x: seq<real>)
    requires HasWidth(data, |x|)
    ensures multiset(Reach(data, depth, maxDepth, minSamplesSplit, x)) <= multiset(data)
    ensures forall e :: e in data && e.features == x ==> e in Reach(data, depth, maxDepth, minSamplesSplit, x)
    decreases LevelsLeft(depth, maxDepth)
  {
    match NodeSplit(data, depth, maxDepth, minSamplesSplit)
    case None =>
    case Some(s) =>
      var side := Side(data, s.featureIndex, s.threshold, x);
      ReachDrawn(side, depth + 1, maxDepth, minSamplesSplit, x);
      MultisetTransitive(multiset(Reach(side, depth + 1, maxDepth, minSamplesSplit, x)), multiset(side), multiset(data));
  }

  // ---------------------------------------------------------------- predictions of a tree

  /** Every input of the list can be routed down t. */
  predicate Routable(t: TreeNode, data: seq<Example>) {
    WellFormed(t) && forall k :: 0 <= k < |data| ==> ReadsBelow(t, |data[k].features|)
  }

  /** The label t gives each example, in list order. */
  function Predictions(t: TreeNode, data: seq<Example>): (r: seq<int>)
    requires Routable(t, data)
    ensures |r| == |data|
    ensures forall k :: 0 <= k < |data| ==> r[k] == Classify(t, data[k].features)
  {
    seq(|data|, k requires 0 <= k < |data| => Classify(t, data[k].features))
  }

  /** A tree grown from examples of m features routes every input of m or more features, and
      labels each input of exactly m features by the majority of the training examples routed
      with it. */
  lemma GrownPredictions(trainSet: seq<Example>, testSet: seq<Example>, maxDepth: int, minSamplesSplit: int, m: nat)
    requires HasWidth(trainSet, m) && Wide(testSet, m)
    ensures Uniform(trainSet)
    ensures Routable(Grow(trainSet, 0, maxDepth, minSamplesSplit), testSet)
    ensures HasWidth(testSet, m) ==>
              forall k :: 0 <= k < |testSet| ==>
                Predictions(Grow(trainSet, 0, maxDepth, minSamplesSplit), testSet)[k]
                == Majority(Reach(trainSet, 0, maxDepth, minSamplesSplit, testSet[k].features))
  {
    var t := Grow(trainSet, 0, maxDepth, minSamplesSplit);
    GrowWellFormed(trainSet, 0, maxDepth, minSamplesSplit, m);
    forall k | 0 <= k < |testSet| ensures ReadsBelow(t, |testSet[k].features|) {
      ReadsBelowWider(t, m, |testSet[k].features|);
    }
    if HasWidth(testSet, m) {
      forall k | 0 <= k < |testSet|
        ensures Predictions(t, testSet)[k] == Majority(Reach(trainSet, 0, maxDepth, minSamplesSplit, testSet[k].features))
      {
        GrowClassifies(trainSet, 0, maxDepth, minSamplesSplit, testSet[k].features);
      }
    }
  }

  // ---------------------------------------------------------------- facts the search loop needs

  /** Scoring distributes over concatenation of cut lists. */
  lemma ScoredAppend(data: seq<Example>, a: seq<Cut>, b: seq<Cut>, w: nat)
    requires |data| > 0 && Wide(data, w) && Reads(a, w) && Reads(b, w)
    ensures Reads(a + b, w)
    ensures Scored(data, a + b, w) == Scored(data, a, w) + Scored(data, b, w)
  {
    var whole, left, right := Scored(data, a + b, w), Scored(data, a, w), Scored(data, b, w);
    forall j | 0 <= j < |whole| ensures whole[j] == (left + right)[j] {
      if j < |a| {
        assert (a + b)[j] == a[j];
      } else {
        assert (a + b)[j] == b[j - |a|];
      }
    }
    assert whole == left + right;
  }

  /** The running best after one more candidate. */
  lemma ScanSnoc(best: Option<BestSplit>, cands: seq<BestSplit>, c: BestSplit)
    ensures Scan(best, cands + [c]) == Choose(Scan(best, cands), c)
  {
    assert (cands + [c])[..|cands|] == cands;
  }

  /** The running best of the threshold loop over the sorted values v of feature f, after the
      neighbours up to position i, starting from `prior`. */
  function Running(data: seq<Example>, f: nat, w: nat, v: seq<real>, i: nat, prior: Option<BestSplit>): Option<BestSplit>
    requires |data| > 0 && f < w && Wide(data, w) && i < |v|
  {
    Scan(prior, Scored(data, CutsUpTo(f, v, i), w))
  }

  /** A step of the threshold loop over equal neighbours leaves the running best alone. */
  lemma ScanStepEqual(data: seq<Example>, f: nat, w: nat, v: seq<real>, i: nat, prior: Option<BestSplit>)
    requires |data| > 0 && f < w && Wide(data, w) && i + 1 < |v| && v[i] == v[i + 1]
    ensures Running(data, f, w, v, i + 1, prior) == Running(data, f, w, v, i, prior)
  {
  }

  /** A step of the threshold loop over distinct neighbours offers the split at their midpoint,
      scored with its weighted impurity `gini`. */
  lemma ScanStepDistinct(data: seq<Example>, f: nat, w: nat, v: seq<real>, i: nat, prior: Option<BestSplit>, gini: real)
    requires |data| > 0 && f < w && Wide(data, w) && i + 1 < |v| && v[i] != v[i + 1]
    requires gini == SplitGini(data, f, (v[i] + v[i + 1]) / 2.0)
    ensures Running(data, f, w, v, i + 1, prior)
            == Choose(Running(data, f, w, v, i, prior), BestSplit(f, (v[i] + v[i + 1]) / 2.0, gini))
  {
    var cut := Cut(f, (v[i] + v[i + 1]) / 2.0);
    assert CutsUpTo(f, v, i + 1) == CutsUpTo(f, v, i) + [cut];
    ScoredAppend(data, CutsUpTo(f, v, i), [cut], w);
    ScanSnoc(prior, Scored(data, CutsUpTo(f, v, i), w), Candidate(data, cut));
  }

  /** The running best of the search after features 0 .. f - 1, of the w features. */
  function Searched(data: seq<Example>, f: nat, w: nat): Option<BestSplit>
    requires |data| > 0 && f <= w && Wide(data, w)
  {
    CutsBeforeReads(data, f);
    Scan(None, Scored(data, CutsBefore(data, f), w))
  }

  /** The feature loop at feature f continues the search with the threshold loop over the
      sorted values of f. */
  lemma SearchStep(data: seq<Example>, f: nat, w: nat)
    requires |data| > 0 && f < w && Wide(data, w)
    ensures |Sort(Column(data, f))| == |data|
    ensures Searched(data, f + 1, w) == Running(data, f, w, Sort(Column(data, f)), |data| - 1, Searched(data, f, w))
  {
    var prior := Searched(data, f, w);
    CutsBeforeNext(data, f);
    CutsBeforeReads(data, f);
    RunningCoversFeature(data, f, w, prior);
    ScoredAppend(data, CutsBefore(data, f), FeatureCuts(data, f), w);
    ScanAppend(None, Scored(data, CutsBefore(data, f), w), Scored(data, FeatureCuts(data, f), w));
  }

  /** The threshold loop over all sorted values of feature f visits exactly its cuts. */
  lemma RunningCoversFeature(data: seq<Example>, f: nat, w: nat, prior: Option<BestSplit>)
    requires |data| > 0 && f < w && Wide(data, w)
    ensures |Sort(Column(data, f))| == |data|
    ensures Reads(FeatureCuts(data, f), w)
    ensures Running(data, f, w, Sort(Column(data, f)), |data| - 1, prior)
            == Scan(prior, Scored(data, FeatureCuts(data, f), w))
  {
  }

  // ---------------------------------------------------------------- the class

  /** `DecisionTree(maxDepth, minSamplesSplit)`: the hyperparameters and the root of the tree
      `train` builds; None before training (the null root). */
  class DecisionTree {
    var root: Option<TreeNode>
    const maxDepth: int
    const minSamplesSplit: int

    constructor (maxDepth: int, minSamplesSplit: int)
      ensures root.None?
      ensures this.maxDepth == maxDepth && this.minSamplesSplit == minSamplesSplit
    {
      this.maxDepth := maxDepth;
      this.minSamplesSplit := minSamplesSplit;
      root := None;
    }

    /** Builds the tree from the train list; the validation list only feeds a printed report. */
    method Train(trainSet: seq<Example>, validationSet: seq<Example>)
      requires Uniform(trainSet)
      modifies this`root
      ensures root == Some(Grow(trainSet, 0, maxDepth, minSamplesSplit))
    {
      var node := BuildTree(trainSet, 0);
      root := Some(node);
    }

    /** Predicts the test list and measures it with 1 as the positive and 0 as the negative label. */
    method Test(testSet: seq<Example>, accuracy: Measure, recall: Measure) returns (metrics: EvaluationMetrics)
      requires root.Some? && Routable(root.value, testSet)
      requires RateMeasure(recall)
      ensures metrics == MetricsOf(LabelsOf(testSet), Predictions(root.value, testSet), 1, 0, accuracy, recall)
    {
      var predictions := GetPredictions(testSet);
      metrics := ComputeMetrics(testSet, predictions, 1, 0, accuracy, recall);
    }

    /** `buildTree(data, depth)`: a leaf voting the majority label when the depth bound is reached,
        fewer than minSamplesSplit examples remain, the labels are pure or no split exists;
        otherwise a node on the best split with a subtree built from each side. */
    method BuildTree(data: seq<Example>, depth: int) returns (node: TreeNode)
      requires Uniform(data)
      ensures node == Grow(data, depth, maxDepth, minSamplesSplit)
      decreases LevelsLeft(depth, maxDepth)
    {
      node := Fresh();
      var stop := depth >= maxDepth || |data| < minSamplesSplit;
      if !stop {
        stop := IsPure(data);
      }
      if stop {
        var majority := MajorityLabel(data);
        node := node.(isLeaf := true, predictedLabel := majority);
        return;
      }
      SearchOnUniform(data);
      var bestSplit := FindBestSplit(data);
      if bestSplit.None? {
        var majority := MajorityLabel(data);
        node := node.(isLeaf := true, predictedLabel := majority);
        return;
      }
      var f, t := bestSplit.value.featureIndex, bestSplit.value.threshold;
      node := node.(splitFeatureIndex := f, splitThreshold := Num(t));
      SidesHaveWidth(data, f, t, |data[0].features|);
      var leftData, rightData := Partition(data, f, t);
      var left := BuildTree(leftData, depth + 1);
      var right := BuildTree(rightData, depth + 1);
      node := node.(leftChild := Some(left), rightChild := Some(right));
    }

    /** The loop that sends each example left (`value <= threshold`) or right, keeping order. */
    method Partition(data: seq<Example>, f: nat, t: real) returns (leftData: seq<Example>, rightData: seq<Example>)
      requires Wide(data, f + 1)
      ensures leftData == Below(data, f, t) && rightData == Above(data, f, t)
    {
      leftData, rightData := [], [];
      var k := 0;
      while k < |data|
        invariant 0 <= k <= |data|
        invariant leftData == Below(data[..k], f, t) && rightData == Above(data[..k], f, t)
      {
        assert data[..k + 1][..k] == data[..k];
        if data[k].features[f] <= t {
          leftData := leftData + [data[k]];
        } else {
          rightData := rightData + [data[k]];
        }
        k := k + 1;
      }
      assert data[..k] == data;
    }

    /** `findBestSplit`: every feature of the first example in turn, its candidates visited
        in threshold order and each kept when strictly below the best so far. The initial
        +infinity best impurity is the None that any first candidate replaces. */
    method FindBestSplit(data: seq<Example>) returns (bestSplit: Option<BestSplit>)
      requires |data| > 0 && Wide(data, |data[0].features|)
      ensures bestSplit == FindBest(data)
    {
      var featureCount := |data[0].features|;
      bestSplit := None;
      var f := 0;
      while f < featureCount
        invariant 0 <= f <= featureCount
        invariant bestSplit == Searched(data, f, featureCount)
      {
        SearchStep(data, f, featureCount);
        bestSplit := ScanFeature(data, f, featureCount, bestSplit);
        f := f + 1;
      }
    }

    /** The body of the feature loop of `findBestSplit`: the values of feature f, sorted, then
        the threshold loop over them. */
    method ScanFeature(data: seq<Example>, f: nat, featureCount: nat, prior: Option<BestSplit>) returns (bestSplit: Option<BestSplit>)
      requires |data| > 0 && f < featureCount && Wide(data, featureCount)
      ensures bestSplit == Running(data, f, featureCount, Sort(Column(data, f)), |data| - 1, prior)
    {
      var values := FeatureValues(data, f);
      values := Sort(values);
      bestSplit := ScanThresholds(data, f, featureCount, values, prior);
    }

    /** The threshold loop of `findBestSplit` over the sorted values of feature f. */
    method ScanThresholds(data: seq<Example>, f: nat, featureCount: nat, values: seq<real>, prior: Option<BestSplit>)
      returns (bestSplit: Option<BestSplit>)
      requires |data| > 0 && f < featureCount && Wide(data, featureCount) && |values| > 0
      ensures bestSplit == Running(data, f, featureCount, values, |values| - 1, prior)
    {
      bestSplit := prior;
      var i := 0;
      while i < |values| - 1
        invariant 0 <= i <= |values| - 1
        invariant bestSplit == Running(data, f, featureCount, values, i, prior)
      {
        bestSplit := ConsiderThreshold(data, f, featureCount, values, i, prior, bestSplit);
        i := i + 1;
      }
    }

    /** The body of the threshold loop: equal neighbours are skipped; the midpoint of distinct
        ones is scored and kept when strictly below the best so far. */
    method ConsiderThreshold(data: seq<Example>, f: nat, featureCount: nat, values: seq<real>, i: nat,
                             ghost prior: Option<BestSplit>, bestSplit: Option<BestSplit>)
      returns (next: Option<BestSplit>)
      requires |data| > 0 && f < featureCount && Wide(data, featureCount) && i + 1 < |values|
      requires bestSplit == Running(data, f, featureCount, values, i, prior)
      ensures next == Running(data, f, featureCount, values, i + 1, prior)
    {
      next := bestSplit;
      if values[i] != values[i + 1] {
        var threshold := (values[i] + values[i + 1]) / 2.0;
        var gini := ComputeSplitGini(data, f, threshold);
        ScanStepDistinct(data, f, featureCount, values, i, prior, gini);
        if bestSplit.None? || gini < bestSplit.value.impurity {
          next := Some(BestSplit(f, threshold, gini));
        }
      } else {
        ScanStepEqual(data, f, featureCount, values, i, prior);
      }
    }

    /** The value of feature f of every example, in list order. */
    method FeatureValues(data: seq<Example>, f: nat) returns (values: seq<real>)
      requires Wide(data, f + 1)
      ensures values == Column(data, f)
    {
      values := [];
      var k := 0;
      while k < |data|
        invariant 0 <= k <= |data|
        invariant values == Column(data[..k], f)
      {
        assert data[..k + 1][..k] == data[..k];
        values := values + [data[k].features[f]];
        k := k + 1;
      }
      assert data[..k] == data;
    }

    /** Each side's impurity weighted by its share of the examples. */
    method ComputeSplitGini(data: seq<Example>, featureIndex: nat, threshold: real) returns (g: real)
      requires |data| > 0 && Wide(data, featureIndex + 1)
      ensures g == SplitGini(data, featureIndex, threshold)
    {
      var leftData, rightData := Partition(data, featureIndex, threshold);
      var leftGini := Gini(leftData);
      var rightGini := Gini(rightData);
      var leftWeight := |leftData| as real / |data| as real;
      var rightWeight := |rightData| as real / |data| as real;
      g := leftWeight * leftGini + rightWeight * rightGini;
    }

    /** 0 for the empty list; otherwise 1 - (p1² + p0²) for the share p1 of label 1. */
    method Gini(data: seq<Example>) returns (g: real)
      ensures g == GiniImpurity(data)
    {
      if |data| == 0 {
        return 0.0;
      }
      var count1 := 0;
      var k := 0;
      while k < |data|
        invariant 0 <= k <= |data|
        invariant count1 == CountOnes(data[..k])
      {
        assert data[..k + 1][..k] == data[..k];
        if data[k].classLabel == 1 {
          count1 := count1 + 1;
        }
        k := k + 1;
      }
      assert data[..k] == data;
      var p1 := count1 as real / |data| as real;
      var p0 := 1.0 - p1;
      g := 1.0 - (p1 * p1 + p0 * p0);
    }

    /** Whether every label equals the first; true for the empty list. */
    method IsPure(data: seq<Example>) returns (pure: bool)
      ensures pure == Pure(data)
    {
      if |data| == 0 {
        return true;
      }
      var firstLabel := data[0].classLabel;
      var k := 0;
      while k < |data|
        invariant 0 <= k <= |data|
        invariant forall j :: 0 <= j < k ==> data[j].classLabel == firstLabel
      {
        if data[k].classLabel != firstLabel {
          return false;
        }
        k := k + 1;
      }
      return true;
    }

    /** 1 when the labels 1 are at least as many as the others, otherwise 0. */
    method MajorityLabel(data: seq<Example>) returns (majority: int)
      ensures majority == Majority(data)
    {
      var count1 := 0;
      var k := 0;
      while k < |data|
        invariant 0 <= k <= |data|
        invariant count1 == CountOnes(data[..k])
      {
        assert data[..k + 1][..k] == data[..k];
        if data[k].classLabel == 1 {
          count1 := count1 + 1;
        }
        k := k + 1;
      }
      assert data[..k] == data;
      majority := if count1 >= |data| - count1 then 1 else 0;
    }

    /** Walks from the root, left when `x[feature] <= threshold` and right otherwise, until a leaf. */
    method PredictSingle(instance: Example) returns (y: int)
      requires root.Some? && WellFormed(root.value) && ReadsBelow(root.value, |instance.features|)
      ensures y == Classify(root.value, instance.features)
    {
      var x := instance.features;
      var currentNode := root.value;
      while !currentNode.isLeaf
        invariant WellFormed(currentNode) && ReadsBelow(currentNode, |x|)
        invariant Classify(currentNode, x) == Classify(root.value, x)
        decreases Height(currentNode)
      {
        var value := x[currentNode.splitFeatureIndex];
        if value <= currentNode.splitThreshold.v {
          currentNode := currentNode.leftChild.value;
        } else {
          currentNode := currentNode.rightChild.value;
        }
      }
      y := currentNode.predictedLabel;
    }

    method GetPredictions(dataSet: seq<Example>) returns (preds: seq<int>)
      requires root.Some? && Routable(root.value, dataSet)
      ensures preds == Predictions(root.value, dataSet)
    {
      preds := [];
      var k := 0;
      while k < |dataSet|
        invariant 0 <= k <= |dataSet|
        invariant preds == Predictions(root.value, dataSet)[..k]
      {
        var prediction := PredictSingle(dataSet[k]);
        preds := preds + [prediction];
        k := k + 1;
      }
    }
  }
}
