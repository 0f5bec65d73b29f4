/** Index sets over a list of extracted events, and the order-preserving filter both
    review screens use to turn a selection into the events to commit. */
module Selection {

  /** `{0, ..., n - 1}`: every index of a list of `n` events. */
  function AllIndices(n: nat): (r: set<nat>)
    ensures forall i: nat :: i in r <==> i < n
    decreases n
  {
    if n == 0 then {} else AllIndices(n - 1) + {n - 1}
  }

  lemma {:induction false} AllIndicesSize(n: nat)
    ensures |AllIndices(n)| == n
  {
    if n > 0 {
      AllIndicesSize(n - 1);
      assert AllIndices(n) == AllIndices(n - 1) + {n - 1};
    }
  }

  /** A set of valid indices has as many members as there are events exactly when it
      holds every index. */
  lemma SizeIsCountIffFull(s: set<nat>, n: nat)
    requires s <= AllIndices(n)
    ensures |s| == n <==> s == AllIndices(n)
  {
    AllIndicesSize(n);
    if |s| == n && s != AllIndices(n) {
      var x :| x in AllIndices(n) && x !in s;
      assert s <= AllIndices(n) - {x};
      assert |AllIndices(n) - {x}| == n - 1;
      SubsetSize(s, AllIndices(n) - {x});
      assert false;
    }
  }

  lemma {:induction false} SubsetSize(s: set<nat>, t: set<nat>)
    requires s <= t
    ensures |s| <= |t|
    decreases |t|
  {
    if s != {} {
      var x :| x in s;
      SubsetSize(s - {x}, t - {x});
    }
  }

  /** `xs.filter((_, index) => keep.has(index))`: the kept elements, in list order. */
  function Filter<T>(xs: seq<T>, keep: set<nat>): (r: seq<T>)
    ensures |r| <= |xs|
    ensures r == [] <==> forall i: nat :: i < |xs| ==> i !in keep
    decreases |xs|
  {
    if xs == [] then []
    else
      var last := |xs| - 1;
      Filter(xs[..last], keep) + (if last in keep then [xs[last]] else [])
  }

  /** The members of `keep` below `n`, in increasing order. */
  function Enumerate(keep: set<nat>, n: nat): (idx: seq<nat>)
    ensures forall k :: 0 <= k < |idx| ==> idx[k] < n && idx[k] in keep
    ensures forall i: nat :: i < n && i in keep ==> i in idx
    ensures forall k, l :: 0 <= k < l < |idx| ==> idx[k] < idx[l]
    decreases n
  {
    if n == 0 then [] else Enumerate(keep, n - 1) + (if n - 1 in keep then [n - 1] else [])
  }

  /** The filter keeps exactly the elements at the chosen indices, in increasing index
      order: its k-th element is the element at the k-th chosen index. */
  lemma {:induction false} FilterPicksInOrder<T>(xs: seq<T>, keep: set<nat>)
    ensures |Filter(xs, keep)| == |Enumerate(keep, |xs|)|
    ensures forall k :: 0 <= k < |Filter(xs, keep)| ==> Filter(xs, keep)[k] == xs[Enumerate(keep, |xs|)[k]]
    decreases |xs|
  {
    if xs != [] {
      var last := |xs| - 1;
      var init := xs[..last];
      FilterPicksInOrder(init, keep);
      var idx, idx' := Enumerate(keep, last), Enumerate(keep, |xs|);
      var r, r' := Filter(init, keep), Filter(xs, keep);
      var tail := if last in keep then [xs[last]] else [];
      assert idx' == idx + (if last in keep then [last] else []);
      assert r' == r + tail;
      forall k | 0 <= k < |r'|
        ensures r'[k] == xs[idx'[k]]
      {
        if k < |r| {
          assert r'[k] == r[k] == init[idx[k]];
          assert idx'[k] == idx[k];
        }
      }
    }
  }

  /** With every index chosen the filter returns the whole list. */
  lemma {:induction false} FilterAll<T>(xs: seq<T>)
    ensures Filter(xs, AllIndices(|xs|)) == xs
    decreases |xs|
  {
    if xs != [] {
      var last := |xs| - 1;
      FilterAllBelow(xs[..last], |xs|);
      assert xs[..last] + [xs[last]] == xs;
    }
  }

  lemma {:induction false} FilterAllBelow<T>(xs: seq<T>, n: nat)
    requires |xs| <= n
    ensures Filter(xs, AllIndices(n)) == xs
    decreases |xs|
  {
    if xs != [] {
      var last := |xs| - 1;
      FilterAllBelow(xs[..last], n);
      assert xs[..last] + [xs[last]] == xs;
    }
  }

  /** The filter returns as many elements as there are chosen valid indices. */
  lemma {:induction false} FilterSize<T>(xs: seq<T>, keep: set<nat>)
    ensures |Filter(xs, keep)| == |keep * AllIndices(|xs|)|
    decreases |xs|
  {
    if xs != [] {
      var last := |xs| - 1;
      FilterSize(xs[..last], keep);
      if last in keep {
        assert keep * AllIndices(|xs|) == keep * AllIndices(last) + {last};
      } else {
        assert keep * AllIndices(|xs|) == keep * AllIndices(last);
      }
    }
  }
}
