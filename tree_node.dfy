/** A decision-tree node: split information, two children and leaf information, each with the
    default a freshly constructed node has. The tree builder sets the fields of a fresh node
    once, before anyone else sees it, so a node is modelled as an immutable record and each
    "assign a field of the new node" as a record update. */
module TreeNodes {
  import opened Numeric

  datatype TreeNode = TreeNode(
    splitFeatureIndex: int,
    splitThreshold: Value,
    leftChild: Option<TreeNode>,
    rightChild: Option<TreeNode>,
    isLeaf: bool,
    predictedLabel: int)

  /** `new TreeNode()`: feature index -1, threshold NaN, no children, not a leaf, label -1. */
  function Fresh(): (n: TreeNode)
    ensures !n.isLeaf
    ensures n.splitFeatureIndex == -1 && n.splitThreshold.NaN?
    ensures n.leftChild.None? && n.rightChild.None?
    ensures n.predictedLabel == -1
  {
    TreeNode(-1, NaN, None, None, false, -1)
  }

  /** A fresh node made a leaf: only `isLeaf` and `predictedLabel` are assigned. */
  function MakeLeaf(predicted: int): TreeNode {
    Fresh().(isLeaf := true, predictedLabel := predicted)
  }

  /** A fresh node made an internal node: the split and both children are assigned. */
  function MakeSplit(feature: nat, threshold: real, left: TreeNode, right: TreeNode): TreeNode {
    Fresh().(splitFeatureIndex := feature, splitThreshold := Num(threshold),
             leftChild := Some(left), rightChild := Some(right))
  }

  /** The shape the builder produces: a leaf keeps the split defaults, has no children and a
      0/1 label; an internal node is not a leaf, keeps label -1, has a real threshold and both
      children, which are shaped the same way. */
  predicate WellFormed(t: TreeNode)
    decreases t
  {
    if t.isLeaf then
      t.splitFeatureIndex == -1 && t.splitThreshold.NaN? && t.leftChild.None? && t.rightChild.None?
      && (t.predictedLabel == 0 || t.predictedLabel == 1)
    else
      t.splitFeatureIndex >= 0 && t.splitThreshold.Num? && t.predictedLabel == -1
      && t.leftChild.Some? && t.rightChild.Some?
      && WellFormed(t.leftChild.value) && WellFormed(t.rightChild.value)
  }

  /** Every split reads a feature below n, so an input with n features can be routed. */
  predicate ReadsBelow(t: TreeNode, n: nat)
    decreases t
  {
    !t.isLeaf ==>
      t.splitFeatureIndex < n
      && (t.leftChild.Some? ==> ReadsBelow(t.leftChild.value, n))
      && (t.rightChild.Some? ==> ReadsBelow(t.rightChild.value, n))
  }

  /** The number of splits on the longest root-to-leaf path. */
  function Height(t: TreeNode): nat
    decreases t
  {
    if t.isLeaf then 0
    else
      var l := if t.leftChild.Some? then Height(t.leftChild.value) else 0;
      var r := if t.rightChild.Some? then Height(t.rightChild.value) else 0;
      1 + if l >= r then l else r
  }

  /** A tree that routes inputs of n features routes any wider input too. */
  lemma {:induction false} ReadsBelowWider(t: TreeNode, m: nat, n: nat)
    requires ReadsBelow(t, m) && m <= n
    ensures ReadsBelow(t, n)
    decreases t
  {
    if !t.isLeaf {
      if t.leftChild.Some? {
        ReadsBelowWider(t.leftChild.value, m, n);
      }
      if t.rightChild.Some? {
        ReadsBelowWider(t.rightChild.value, m, n);
      }
    }
  }
}
