/** Collections.sort on a list of feature values: the ascending rearrangement of the list. */
module Sorting {

  predicate Ascending(s: seq<real>) {
    forall i, j :: 0 <= i < j < |s| ==> s[i] <= s[j]
  }

  /** No value of an ascending list lies strictly between two neighbours of it. */
  lemma AscendingGap(v: seq<real>, j: nat, x: real)
    requires Ascending(v) && j + 1 < |v| && x in multiset(v)
    ensures x <= v[j] || v[j + 1] <= x
  {
    var m :| 0 <= m < |v| && v[m] == x;
    if m < j {
      assert v[m] <= v[j];
    } else if m > j + 1 {
      assert v[j + 1] <= v[m];
    }
  }

  /** A value no larger than the head of an ascending list extends it at the front. */
  lemma ConsAscending(a: real, s: seq<real>)
    requires Ascending(s) && (|s| > 0 ==> a <= s[0])
    ensures Ascending([a] + s)
  {
    var r := [a] + s;
    forall i, j | 0 <= i < j < |r| ensures r[i] <= r[j] {
      if i == 0 {
        assert s[0] <= s[j - 1];
      }
    }
  }

  /** Inserts x before the first element not smaller than it. */
  function Insert(x: real, s: seq<real>): (r: seq<real>)
    requires Ascending(s)
    ensures |r| == |s| + 1
    ensures r[0] == if |s| == 0 || x <= s[0] then x else s[0]
    ensures Ascending(r)
    ensures multiset(r) == multiset(s) + multiset{x}
  {
    if |s| == 0 then [x]
    else if x <= s[0] then
      ConsAscending(x, s);
      [x] + s
    else
      var rest := Insert(x, s[1..]);
      assert s == [s[0]] + s[1..];
      ConsAscending(s[0], rest);
      [s[0]] + rest
  }

  /** The values of s in ascending order (insertion sort). */
  function Sort(s: seq<real>): (r: seq<real>)
    ensures Ascending(r) && multiset(r) == multiset(s) && |r| == |s|
  {
    if |s| == 0 then []
    else
      assert s == [s[0]] + s[1..];
      Insert(s[0], Sort(s[1..]))
  }

  /** A list is constant when every element equals the first. */
  predicate Constant(s: seq<real>) {
    forall k :: 0 <= k < |s| ==> s[k] == s[0]
  }

  /** An ascending list has two distinct neighbours exactly when it is not constant. */
  lemma AscendingNeighbours(s: seq<real>)
    requires Ascending(s) && |s| > 0
    ensures (forall j :: 0 <= j < |s| - 1 ==> s[j] == s[j + 1]) <==> Constant(s)
  {
    if forall j :: 0 <= j < |s| - 1 ==> s[j] == s[j + 1] {
      assert s[0] == s[|s| - 1] by { NeighboursEqual(s, |s| - 1); }
    }
  }

  lemma {:induction false} NeighboursEqual(s: seq<real>, k: nat)
    requires k < |s|
    requires forall j :: 0 <= j < |s| - 1 ==> s[j] == s[j + 1]
    ensures s[k] == s[0]
  {
    if k > 0 {
      NeighboursEqual(s, k - 1);
    }
  }

  /** Rearranging a list does not change whether it is constant. */
  lemma ConstantPermutation(a: seq<real>, b: seq<real>)
    requires multiset(a) == multiset(b) && |a| > 0
    ensures Constant(a) <==> Constant(b)
  {
    assert |b| == |a| by { assert |multiset(a)| == |multiset(b)|; }
    assert a[0] in multiset(b);
    assert b[0] in multiset(a);
    if Constant(a) {
      forall k | 0 <= k < |b| ensures b[k] == b[0] {
        assert b[k] in multiset(a);
      }
    }
    if Constant(b) {
      forall k | 0 <= k < |a| ensures a[k] == a[0] {
        assert a[k] in multiset(b);
      }
    }
  }

  /** Each sorted value is a value of the list. */
  lemma SortedValueOccurs(s: seq<real>, j: nat) returns (k: nat)
    requires j < |s|
    ensures k < |s| && s[k] == Sort(s)[j]
  {
    var v := Sort(s);
    assert v[j] in multiset(v);
    k :| 0 <= k < |s| && s[k] == v[j];
  }

  /** Two distinct neighbours of the sorted list are values of the list, in increasing order,
      and no value of the list lies strictly between them. */
  lemma SortedNeighbours(s: seq<real>, j: nat) returns (ka: nat, kb: nat)
    requires j + 1 < |s| && Sort(s)[j] != Sort(s)[j + 1]
    ensures Sort(s)[j] < Sort(s)[j + 1]
    ensures ka < |s| && s[ka] == Sort(s)[j] && kb < |s| && s[kb] == Sort(s)[j + 1]
    ensures forall k :: 0 <= k < |s| ==> s[k] <= Sort(s)[j] || Sort(s)[j + 1] <= s[k]
  {
    var v := Sort(s);
    assert v[j] <= v[j + 1];
    ka := SortedValueOccurs(s, j);
    kb := SortedValueOccurs(s, j + 1);
    forall k | 0 <= k < |s| ensures s[k] <= v[j] || v[j + 1] <= s[k] {
      assert s[k] in multiset(s);
      AscendingGap(v, j, s[k]);
    }
  }
}
