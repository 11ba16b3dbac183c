/** Sorting the blocks of a read by their place in the master file. */
module PairSort {
  import opened Volumes

  /** A block of the request and the slot that holds it. */
  datatype BlockPair = BlockPair(logical: nat, slot: nat)

  ghost predicate Sorted(s: seq<BlockPair>) {
    forall i, j :: 0 <= i < j < |s| ==> s[i].slot <= s[j].slot
  }

  ghost predicate Permutation(s: seq<BlockPair>, t: seq<BlockPair>) {
    |s| == |t| && multiset(s) == multiset(t)
  }

  /** Puts x behind the last element that is not greater. */
  function Insert(s: seq<BlockPair>, x: BlockPair): (r: seq<BlockPair>)
    ensures |r| == |s| + 1
  {
    if s == [] || s[|s| - 1].slot <= x.slot then s + [x]
    else Insert(s[..|s| - 1], x) + [s[|s| - 1]]
  }

  function InsertionSorted(s: seq<BlockPair>): (r: seq<BlockPair>)
    ensures |r| == |s|
  {
    if s == [] then [] else Insert(InsertionSorted(s[..|s| - 1]), s[|s| - 1])
  }

  /** The elements in slot `x`, in the order in which they stand. */
  function InSlot(s: seq<BlockPair>, x: nat): seq<BlockPair> {
    if s == [] then []
    else
      var init, last := InSlot(s[..|s| - 1], x), s[|s| - 1];
      if last.slot == x then init + [last] else init
  }

  /** Where Insert puts x. */
  lemma {:induction false} InsertAt(s: seq<BlockPair>, x: BlockPair, j: nat)
    requires j <= |s| && (j > 0 ==> s[j - 1].slot <= x.slot)
    requires forall k :: j <= k < |s| ==> s[k].slot > x.slot
    ensures Insert(s, x) == s[..j] + [x] + s[j..]
  {
    if j < |s| {
      InsertAt(s[..|s| - 1], x, j);
      assert s[..|s| - 1][..j] == s[..j] && s[..|s| - 1][j..] + [s[|s| - 1]] == s[j..];
    } else {
      assert s[..j] == s && s[j..] == [];
    }
  }

  lemma {:induction false} InsertPlace(s: seq<BlockPair>, x: BlockPair) returns (j: nat)
    ensures j <= |s| && (j > 0 ==> s[j - 1].slot <= x.slot)
    ensures forall k :: j <= k < |s| ==> s[k].slot > x.slot
  {
    j := |s|;
    while j > 0 && s[j - 1].slot > x.slot
      invariant j <= |s| && forall k :: j <= k < |s| ==> s[k].slot > x.slot
    {
      j := j - 1;
    }
  }

  lemma InsertSorts(s: seq<BlockPair>, x: BlockPair)
    requires Sorted(s)
    ensures Sorted(Insert(s, x)) && multiset(Insert(s, x)) == multiset(s) + multiset{x}
  {
    hide Insert, Sorted;
    var j := InsertPlace(s, x);
    InsertAt(s, x, j);
    SortedAround(s, x, j);
    assert s == s[..j] + s[j..];
  }

  lemma SortedAround(s: seq<BlockPair>, x: BlockPair, j: nat)
    requires Sorted(s)
    requires j <= |s| && (j > 0 ==> s[j - 1].slot <= x.slot)
    requires forall k :: j <= k < |s| ==> s[k].slot > x.slot
    ensures Sorted(s[..j] + [x] + s[j..])
  {
    var r := s[..j] + [x] + s[j..];
    forall a, b | 0 <= a < b < |r|
      ensures r[a].slot <= r[b].slot
    {
      assert r[a] == if a < j then s[a] else if a == j then x else s[a - 1];
      assert r[b] == if b < j then s[b] else if b == j then x else s[b - 1];
      assert a < j ==> s[a].slot <= s[j - 1].slot;
    }
  }

  lemma {:induction false} InsertKeepsTies(s: seq<BlockPair>, x: BlockPair, y: nat)
    ensures InSlot(Insert(s, x), y) == InSlot(s + [x], y)
  {
    hide InSlot;
    if s != [] && s[|s| - 1].slot > x.slot {
      var init, last := s[..|s| - 1], s[|s| - 1];
      assert s == init + [last];
      InsertKeepsTies(init, x, y);
      InSlotSnoc(Insert(init, x), last, y);
      InSlotSnoc(init, x, y);
      InSlotSnoc(s, x, y);
      InSlotSnoc(init, last, y);
    }
  }

  lemma InSlotSnoc(s: seq<BlockPair>, x: BlockPair, y: nat)
    ensures InSlot(s + [x], y) == if x.slot == y then InSlot(s, y) + [x] else InSlot(s, y)
  {
    assert (s + [x])[..|s|] == s;
  }

  /** Insertion sort sorts, permutes, and keeps the order of blocks that share a slot. */
  lemma {:induction false} InsertionSortedSorts(s: seq<BlockPair>)
    ensures Sorted(InsertionSorted(s)) && Permutation(InsertionSorted(s), s)
    ensures forall y :: InSlot(InsertionSorted(s), y) == InSlot(s, y)
  {
    if s != [] {
      var init, last := s[..|s| - 1], s[|s| - 1];
      assert s == init + [last];
      InsertionSortedSorts(init);
      InsertSorts(InsertionSorted(init), last);
      forall y
        ensures InSlot(InsertionSorted(s), y) == InSlot(s, y)
      {
        InsertKeepsTies(InsertionSorted(init), last, y);
        InSlotSnoc(init, last, y);
        InSlotSnoc(InsertionSorted(init), last, y);
      }
    }
  }

  /** insertion_sort over the first n elements, in place. */
  method InsertionSort(arr: array<BlockPair>, n: nat)
    requires n <= arr.Length
    modifies arr
    ensures arr[..n] == InsertionSorted(old(arr[..n]))
    ensures Sorted(arr[..n]) && Permutation(arr[..n], old(arr[..n]))
    ensures forall k :: n <= k < arr.Length ==> arr[k] == old(arr[k])
  {
    hide Insert, InsertionSorted, Sorted, Permutation;
    ghost var s0 := arr[..n];
    InsertionSortedSorts(s0);
    var i := 1;
    OneIsSorted(s0);
    while i < n
      invariant i >= 1 && (n >= 1 ==> i <= n)
      invariant n >= 1 ==> arr[..i] == InsertionSorted(s0[..i])
      invariant forall k :: Min(i, n) <= k < arr.Length ==> arr[k] == old(arr[k])
    {
      SortedSnoc(s0, i);
      InsertLast(arr[..i], arr[i]);
      if arr[i - 1].slot <= arr[i].slot {
        assert arr[..i + 1] == arr[..i] + [arr[i]];
      } else {
        InsertInPlace(arr, i);
      }
      i := i + 1;
    }
    assert n >= 1 ==> s0[..n] == s0;
    assert n == 0 ==> arr[..n] == s0 == [];
  }

  lemma OneIsSorted(s: seq<BlockPair>)
    ensures s != [] ==> InsertionSorted(s[..1]) == s[..1]
    ensures s == [] ==> InsertionSorted(s) == s
  {
    if s != [] {
      assert s[..1][..0] == [] && s[..1] == [] + [s[0]];
    }
  }

  lemma SortedSnoc(s: seq<BlockPair>, i: nat)
    requires i < |s|
    ensures InsertionSorted(s[..i + 1]) == Insert(InsertionSorted(s[..i]), s[i])
  {
    assert s[..i + 1][..i] == s[..i];
  }

  /** The fast path of the sort inserts nothing else than Insert would. */
  lemma InsertLast(s: seq<BlockPair>, x: BlockPair)
    ensures s != [] && s[|s| - 1].slot <= x.slot ==> Insert(s, x) == s + [x]
  {
  }

  /** The shifting loop: everything greater than arr[i] moves up by one. */
  method InsertInPlace(arr: array<BlockPair>, i: nat)
    requires i < arr.Length
    modifies arr
    ensures arr[..i + 1] == Insert(old(arr[..i]), old(arr[i]))
    ensures forall k :: i < k < arr.Length ==> arr[k] == old(arr[k])
  {
    hide Insert;
    var tmp := arr[i];
    ghost var s := arr[..i];
    var j := i;
    while j > 0 && arr[j - 1].slot > tmp.slot
      invariant 0 <= j <= i
      invariant forall k :: 0 <= k < j ==> arr[k] == s[k]
      invariant forall k :: j < k <= i ==> arr[k] == s[k - 1]
      invariant forall k :: i < k < arr.Length ==> arr[k] == old(arr[k])
      invariant forall k :: j <= k < i ==> s[k].slot > tmp.slot
    {
      arr[j] := arr[j - 1];
      j := j - 1;
    }
    arr[j] := tmp;
    InsertAt(s, tmp, j);
    assert arr[..i + 1] == s[..j] + [tmp] + s[j..];
  }
}
