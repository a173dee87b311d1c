/**
 * SwiftUI's `remove(atOffsets:)` on `MutableCollection & RangeReplaceableCollection`, used by the card editor's batch
 * delete: the elements whose positions are in the offset set go, the others
 * stay in their original relative order.
 */
module Offsets {

  /** The positions below n that are not in offsets, in increasing order. */
  function KeptIndices(n: nat, offsets: set<int>): (k: seq<nat>)
    ensures forall j :: 0 <= j < |k| ==> k[j] < n && k[j] !in offsets
    ensures forall j1, j2 :: 0 <= j1 < j2 < |k| ==> k[j1] < k[j2]
    ensures forall i :: 0 <= i < n && i !in offsets ==> i in k
  {
    if n == 0 then [] else
    KeptIndices(n - 1, offsets) + (if n - 1 in offsets then [] else [n - 1])
  }

  /** The positions below n that are in offsets. */
  function OffsetsBelow(n: nat, offsets: set<int>): (below: set<int>)
  {
    set i | i in offsets && 0 <= i < n
  }

  /** `s.remove(atOffsets: offsets)`, working from the last element back. */
  function RemovingOffsets<T>(s: seq<T>, offsets: set<int>): (r: seq<T>)
    ensures |r| <= |s|
    ensures forall x :: x in r ==> x in s
  {
    if s == [] then [] else
    var last := |s| - 1;
    RemovingOffsets(s[..last], offsets) + (if last in offsets then [] else [s[last]])
  }

  /** The result is exactly the elements of s at the kept positions, in order. */
  lemma {:induction false} RemovingOffsetsAt<T>(s: seq<T>, offsets: set<int>)
    ensures |RemovingOffsets(s, offsets)| == |KeptIndices(|s|, offsets)|
    ensures forall j :: 0 <= j < |RemovingOffsets(s, offsets)| ==>
              RemovingOffsets(s, offsets)[j] == s[KeptIndices(|s|, offsets)[j]]
  {
    if s != [] {
      var last := |s| - 1;
      var init := s[..last];
      RemovingOffsetsAt(init, offsets);
      var r0, k0 := RemovingOffsets(init, offsets), KeptIndices(last, offsets);
      var r, k := RemovingOffsets(s, offsets), KeptIndices(|s|, offsets);
      assert r == r0 + (if last in offsets then [] else [s[last]]);
      assert k == k0 + (if last in offsets then [] else [last]);
      forall j | 0 <= j < |r| ensures r[j] == s[k[j]] {
        if j < |r0| {
          assert r[j] == r0[j] == init[k0[j]] && k[j] == k0[j];
        }
      }
    }
  }

  /** As many positions are kept as there are positions not in the offset set. */
  lemma {:induction false} KeptCount(n: nat, offsets: set<int>)
    ensures |KeptIndices(n, offsets)| == n - |OffsetsBelow(n, offsets)|
  {
    if n > 0 {
      KeptCount(n - 1, offsets);
      OffsetsBelowStep(n, offsets);
    }
  }

  /** Raising the bound by one adds position n - 1 exactly when it is an offset. */
  lemma OffsetsBelowStep(n: nat, offsets: set<int>)
    requires n > 0
    ensures |OffsetsBelow(n, offsets)| == |OffsetsBelow(n - 1, offsets)| + (if n - 1 in offsets then 1 else 0)
  {
    var below, all := OffsetsBelow(n - 1, offsets), OffsetsBelow(n, offsets);
    if n - 1 in offsets {
      assert all == below + {n - 1};
    } else {
      assert all == below;
    }
  }

  /** With every offset in range, the result is |offsets| elements shorter. */
  lemma RemovingOffsetsLength<T>(s: seq<T>, offsets: set<int>)
    requires forall o :: o in offsets ==> 0 <= o < |s|
    ensures |RemovingOffsets(s, offsets)| == |s| - |offsets|
  {
    RemovingOffsetsAt(s, offsets);
    KeptCount(|s|, offsets);
    assert OffsetsBelow(|s|, offsets) == offsets;
  }

  /** Every element at a kept position survives, and every survivor comes from a kept position. */
  lemma RemovingOffsetsElements<T>(s: seq<T>, offsets: set<int>)
    ensures forall i :: 0 <= i < |s| && i !in offsets ==> s[i] in RemovingOffsets(s, offsets)
    ensures forall x :: x in RemovingOffsets(s, offsets) ==>
              exists i :: 0 <= i < |s| && i !in offsets && s[i] == x
  {
    var r, k := RemovingOffsets(s, offsets), KeptIndices(|s|, offsets);
    RemovingOffsetsAt(s, offsets);
    forall i | 0 <= i < |s| && i !in offsets ensures s[i] in r {
      var j :| 0 <= j < |k| && k[j] == i;
      assert r[j] == s[i];
    }
    forall x | x in r ensures exists i :: 0 <= i < |s| && i !in offsets && s[i] == x {
      var j :| 0 <= j < |r| && r[j] == x;
      assert s[k[j]] == x;
    }
  }

  /** An offset set with nothing in range removes nothing. */
  lemma {:induction false} RemovingNoOffsets<T>(s: seq<T>, offsets: set<int>)
    requires forall i :: 0 <= i < |s| ==> i !in offsets
    ensures RemovingOffsets(s, offsets) == s
  {
    if s != [] {
      var last := |s| - 1;
      RemovingNoOffsets(s[..last], offsets);
      assert s[..last] + [s[last]] == s;
    }
  }

  /** Removing one position, `remove(at: i)`, is removing the offset set {i}. */
  lemma {:induction false} RemoveAtIsSingleOffset<T>(s: seq<T>, i: int)
    requires 0 <= i < |s|
    ensures RemovingOffsets(s, {i}) == s[..i] + s[i + 1..]
  {
    var last := |s| - 1;
    if i == last {
      RemovingNoOffsets(s[..last], {i});
    } else {
      RemoveAtIsSingleOffset(s[..last], i);
      assert s[..last][..i] == s[..i];
      assert s[..last][i + 1..] + [s[last]] == s[i + 1..];
    }
  }
}
