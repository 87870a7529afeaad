/** The max-priority dispenser, modelled as a multiset of records. Only its
    contents matter: the binary-heap layout is not modelled, and among
    records of equal priority any one may come out first. */
module PriorityHeap {
  import opened Activities

  /** `top` is in `heap` and no record of `heap` ranks above it. */
  predicate IsMaxOf(top: Activity, heap: multiset<Activity>) {
    top in heap && forall a :: a in heap ==> !Less(top, a)
  }

  /** One pop: `top` is a maximum of `heap`, and `rest` is `heap` with
      exactly one occurrence of `top` removed. */
  predicate PopStep(heap: multiset<Activity>, top: Activity, rest: multiset<Activity>) {
    IsMaxOf(top, heap) && rest == heap - multiset{top}
  }

  /** Records in non-increasing priority order. */
  predicate NonIncreasing(s: seq<Activity>) {
    forall i, j :: 0 <= i < j < |s| ==> !Less(s[i], s[j])
  }

  /** Clears the heap and pushes every record of the catalog, one by one. */
  method Populate(all: seq<Activity>) returns (heap: multiset<Activity>)
    ensures heap == multiset(all)
    ensures |heap| == |all|
  {
    heap := multiset{};
    for i := 0 to |all|
      invariant heap == multiset(all[..i])
    {
      assert all[..i + 1] == all[..i] + [all[i]];
      heap := heap + multiset{all[i]};
    }
    assert all[..|all|] == all;
  }

  /** Reads the top of a non-empty heap and pops it. */
  method PopMax(heap: multiset<Activity>) returns (top: Activity, rest: multiset<Activity>)
    requires |heap| > 0
    ensures PopStep(heap, top, rest)
    ensures |rest| == |heap| - 1
  {
    top :| top in heap;
    var unseen := heap - multiset{top};
    while unseen != multiset{}
      invariant top in heap
      invariant unseen <= heap
      invariant forall a :: a in heap ==> a in unseen || !Less(top, a)
      decreases |unseen|
    {
      var a :| a in unseen;
      var top' := if Less(top, a) then a else top;
      var unseen' := unseen - multiset{a};
      forall x | x in heap
        ensures x in unseen' || !Less(top', x)
      {
        if x !in unseen' && x in unseen {
          assert x == a;
        }
      }
      top, unseen := top', unseen';
    }
    rest := heap - multiset{top};
  }

  /** `heaps[k + 1]` is what is left after popping `tops[k]` from `heaps[k]`. */
  predicate PopChain(heaps: seq<multiset<Activity>>, tops: seq<Activity>) {
    && |heaps| == |tops| + 1
    && forall k :: 0 <= k < |tops| ==> PopStep(heaps[k], tops[k], heaps[k + 1])
  }

  /** A chain of pops grows by one more pop from its last heap. */
  lemma PopChainExtend(heaps: seq<multiset<Activity>>, tops: seq<Activity>, top: Activity, rest: multiset<Activity>)
    requires PopChain(heaps, tops)
    requires PopStep(heaps[|tops|], top, rest)
    ensures PopChain(heaps + [rest], tops + [top])
  {
    var heaps', tops' := heaps + [rest], tops + [top];
    forall k | 0 <= k < |tops'|
      ensures PopStep(heaps'[k], tops'[k], heaps'[k + 1])
    {
      if k < |tops| {
        assert heaps'[k] == heaps[k] && heaps'[k + 1] == heaps[k + 1] && tops'[k] == tops[k];
      }
    }
  }

  /** Each pop of a chain takes out exactly one record. */
  lemma PopChainSize(heaps: seq<multiset<Activity>>, tops: seq<Activity>)
    requires PopChain(heaps, tops)
    ensures |heaps[|tops|]| + |tops| == |heaps[0]|
  {
    PopsAreOrdered(heaps, tops);
  }

  /** Popping a whole sequence of records, each one a maximum of what was
      left, hands out exactly the starting contents minus what remains, in
      non-increasing priority order. */
  lemma {:induction false} PopsAreOrdered(heaps: seq<multiset<Activity>>, tops: seq<Activity>)
    requires PopChain(heaps, tops)
    ensures multiset(tops) + heaps[|tops|] == heaps[0]
    ensures NonIncreasing(tops)
    ensures forall k, a :: 0 <= k < |tops| && a in heaps[|tops|] ==> !Less(tops[k], a)
  {
    if |tops| > 0 {
      var n := |tops| - 1;
      PopsAreOrdered(heaps[..n + 1], tops[..n]);
      assert tops == tops[..n] + [tops[n]];
      assert PopStep(heaps[n], tops[n], heaps[n + 1]);
      forall k, a | 0 <= k < n && a in heaps[n + 1]
        ensures !Less(tops[k], a)
      {
        assert a in heaps[n];
      }
      forall k | 0 <= k < n
        ensures !Less(tops[k], tops[n])
      {
        assert tops[n] in heaps[n];
      }
    }
  }
}
