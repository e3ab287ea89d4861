/**
 * Index bookkeeping shared by bounding-box extraction (keep the indices
 * whose coordinate passes a range test) and longitude re-wrapping (reorder
 * the columns): selecting indices by a flag, gathering elements by a list
 * of indices, and permutations of `0..n`.
 */
module Indices {

  /** The indices below `n` at which `flags` is true, in ascending order. */
  function Select(flags: seq<bool>, n: nat): (r: seq<nat>)
    requires n <= |flags|
    ensures |r| <= n
    ensures forall j :: 0 <= j < |r| ==> r[j] < n && flags[r[j]]
    ensures forall j1, j2 :: 0 <= j1 < j2 < |r| ==> r[j1] < r[j2]
    decreases n
  {
    if n == 0 then [] else Select(flags, n - 1) + (if flags[n - 1] then [n - 1] else [])
  }

  /** Every flagged index below `n` is selected. */
  lemma {:induction false} SelectComplete(flags: seq<bool>, n: nat, i: nat)
    requires n <= |flags| && i < n && flags[i]
    ensures i in Select(flags, n)
    decreases n
  {
    if i < n - 1 {
      SelectComplete(flags, n - 1, i);
    }
  }

  /** Exactly one of the three flags holds at each index below `n`. */
  predicate Partition(a: seq<bool>, b: seq<bool>, c: seq<bool>, n: nat)
    requires n <= |a| && n <= |b| && n <= |c|
  {
    forall i :: 0 <= i < n ==>
      (a[i] && !b[i] && !c[i]) || (!a[i] && b[i] && !c[i]) || (!a[i] && !b[i] && c[i])
  }

  /** Three selections by flags that classify every index once share out all `n` indices. */
  lemma {:induction false} SelectPartitionSize(a: seq<bool>, b: seq<bool>, c: seq<bool>, n: nat)
    requires n <= |a| && n <= |b| && n <= |c|
    requires Partition(a, b, c, n)
    ensures |Select(a, n)| + |Select(b, n)| + |Select(c, n)| == n
    decreases n
  {
    if n > 0 {
      assert Partition(a, b, c, n - 1);
      SelectPartitionSize(a, b, c, n - 1);
    }
  }

  /** `order` lists each of `0..n` exactly once. */
  predicate IsPermutation(order: seq<nat>, n: nat) {
    && |order| == n
    && (forall j :: 0 <= j < n ==> order[j] < n)
    && (forall j1, j2 :: 0 <= j1 < j2 < n ==> order[j1] != order[j2])
  }

  /** The elements of `s` at the positions `idx`, in that order. */
  function Pick<T>(s: seq<T>, idx: seq<nat>): (r: seq<T>)
    requires forall j :: 0 <= j < |idx| ==> idx[j] < |s|
    ensures |r| == |idx|
  {
    seq(|idx|, j requires 0 <= j < |idx| => s[idx[j]])
  }

  /**
   * The indices of class `a`, then of class `b`, then of class `c`, form a
   * permutation of `0..n` when the classes partition the indices, and every
   * index appears in it.
   */
  lemma PartitionOrderIsPermutation(a: seq<bool>, b: seq<bool>, c: seq<bool>, n: nat)
    requires n <= |a| && n <= |b| && n <= |c|
    requires Partition(a, b, c, n)
    ensures IsPermutation(Select(a, n) + Select(b, n) + Select(c, n), n)
    ensures forall i :: 0 <= i < n ==> i in Select(a, n) + Select(b, n) + Select(c, n)
  {
    var sa, sb, sc := Select(a, n), Select(b, n), Select(c, n);
    var order := sa + sb + sc;
    SelectPartitionSize(a, b, c, n);
    forall j1, j2 | 0 <= j1 < j2 < n
      ensures order[j1] != order[j2]
    {
      var i1, i2 := order[j1], order[j2];
      // Each index carries the flag of the part it comes from, and the parts' flags exclude each other.
      assert (j1 < |sa| && a[i1]) || (|sa| <= j1 < |sa| + |sb| && b[i1]) || (|sa| + |sb| <= j1 && c[i1]);
      assert (j2 < |sa| && a[i2]) || (|sa| <= j2 < |sa| + |sb| && b[i2]) || (|sa| + |sb| <= j2 && c[i2]);
      if j2 < |sa| {
        assert sa[j1] < sa[j2];
      } else if j1 >= |sa| + |sb| {
        assert sc[j1 - |sa| - |sb|] < sc[j2 - |sa| - |sb|];
      } else if |sa| <= j1 && j2 < |sa| + |sb| {
        assert sb[j1 - |sa|] < sb[j2 - |sa|];
      }
    }
    forall i | 0 <= i < n
      ensures i in order
    {
      if a[i] {
        SelectComplete(a, n, i);
      } else if b[i] {
        SelectComplete(b, n, i);
      } else {
        SelectComplete(c, n, i);
      }
    }
  }
}
