/** One labelled data point: a mutable feature list plus a label.
    Instances are heap objects: the train/validation/test lists and the dataset's own list
    hold the SAME objects, so an in-place update through one list is seen through all. */
module Instances {

  /** The value of an instance at one moment: what the learning algorithms read. */
  datatype Example = Example(features: seq<real>, classLabel: int)

  class Instance {
    var features: seq<real>
    var classLabel: int

    constructor (features: seq<real>, classLabel: int)
      ensures this.features == features && this.classLabel == classLabel
    {
      this.features := features;
      this.classLabel := classLabel;
    }

    function GetFeatures(): seq<real>
      reads this
    {
      features
    }

    function GetLabel(): int
      reads this
    {
      classLabel
    }

    /** Replaces the feature at `index`; the list keeps its length and other positions. */
    method SetFeature(feature: real, index: nat)
      requires index < |features|
      modifies this`features
      ensures features == old(features)[index := feature]
      ensures |features| == old(|features|)
      ensures forall k :: 0 <= k < |features| && k != index ==> features[k] == old(features[k])
    {
      features := features[index := feature];
    }

    /** Replaces the label; the features are untouched. */
    method SetLabel(newLabel: int)
      modifies this`classLabel
      ensures this.classLabel == newLabel
    {
      this.classLabel := newLabel;
    }

    function View(): Example
      reads this
    {
      Example(features, classLabel)
    }
  }

  /** The values currently held by a list of instances, in list order. */
  function Examples(s: seq<Instance>): (r: seq<Example>)
    reads set i | i in s
    ensures |r| == |s|
    ensures forall k :: 0 <= k < |s| ==> r[k] == s[k].View()
  {
    seq(|s|, k requires 0 <= k < |s| reads s => s[k].View())
  }

  lemma ExamplesSlice(s: seq<Instance>, a: nat, b: nat)
    requires a <= b <= |s|
    ensures Examples(s[a..b]) == Examples(s)[a..b]
  {
  }

  /** A slice of a list of instances of width m has width m. */
  lemma HasWidthSlice(s: seq<Instance>, a: nat, b: nat, m: nat)
    requires a <= b <= |s| && HasWidth(Examples(s), m)
    ensures HasWidth(Examples(s[a..b]), m)
  {
    forall k | 0 <= k < b - a ensures |Examples(s[a..b])[k].features| == m {
      assert s[a..b][k] == s[a + k];
      assert Examples(s)[a + k] == s[a + k].View();
    }
  }

  function LabelsOf(data: seq<Example>): (r: seq<int>)
    ensures |r| == |data|
    ensures forall k :: 0 <= k < |data| ==> r[k] == data[k].classLabel
  {
    if data == [] then [] else LabelsOf(data[..|data| - 1]) + [data[|data| - 1].classLabel]
  }

  /** Every example has exactly `m` features (the loader's well-formedness promise). */
  predicate HasWidth(data: seq<Example>, m: nat) {
    forall k :: 0 <= k < |data| ==> |data[k].features| == m
  }

  /** Every example has at least `m` features, so a model of width `m` can read it. */
  predicate Wide(data: seq<Example>, m: nat) {
    forall k :: 0 <= k < |data| ==> |data[k].features| >= m
  }

  /** A reordering of a list keeps the width of every example it holds. */
  lemma PermutationWide(a: seq<Example>, b: seq<Example>, m: nat)
    requires multiset(a) == multiset(b)
    requires Wide(a, m)
    ensures Wide(b, m)
  {
    forall k | 0 <= k < |b| ensures |b[k].features| >= m {
      assert b[k] in multiset(a);
    }
  }

  /** No object occurs twice in the list. */
  predicate Distinct(s: seq<Instance>) {
    forall a, b :: 0 <= a < b < |s| ==> s[a] != s[b]
  }

  /** A slice of a list without repeats has none either. */
  lemma DistinctSlice(s: seq<Instance>, a: nat, b: nat)
    requires Distinct(s) && a <= b <= |s|
    ensures Distinct(s[a..b])
  {
    forall m, n | 0 <= m < n < b - a ensures s[a..b][m] != s[a..b][n] {
      assert s[a..b][m] == s[a + m] && s[a..b][n] == s[a + n];
    }
  }

  /** In a list without repeats, the instance at a position outside a..b is not in that slice. */
  lemma DistinctApart(s: seq<Instance>, a: nat, b: nat, k: nat)
    requires Distinct(s) && a <= b <= |s| && k < |s| && !(a <= k < b)
    ensures s[k] !in s[a..b]
  {
    forall m | 0 <= m < b - a ensures s[a..b][m] != s[k] {
      assert s[a..b][m] == s[a + m];
    }
  }
}
