/**
 The high-cost ranking: the items in descending order of daily cost, cut
 to the first ten.
 */
module TopItemsRanking {
  import opened Sorting
  import opened Types

  const RankingSize: nat := 10

  /** The comparator `b.costPerDay - a.costPerDay`: `a` may precede `b` when it costs no less. */
  predicate ByCostDesc(a: Item, b: Item)
  {
    a.costPerDay >= b.costPerDay
  }

  function Min(a: nat, b: nat): nat
  {
    if a <= b then a else b
  }

  /**
   The ranked items: as many as there are, up to ten, costliest first,
   drawn from the input, and no item left out costs more than any item shown.
   */
  function TopItems(items: seq<Item>): (r: seq<Item>)
    ensures |r| == Min(RankingSize, |items|)
    ensures r == [] <==> items == []
    ensures SortedBy(r, ByCostDesc)
    ensures multiset(r) <= multiset(items)
    ensures forall x, y :: x in multiset(items) - multiset(r) && y in r ==> x.costPerDay <= y.costPerDay
  {
    var sorted := SortBy(items, ByCostDesc);
    var m := Min(RankingSize, |items|);
    SortBySorted(items, ByCostDesc);
    RankingFacts(sorted, m);
    sorted[..m]
  }

  /** A prefix of a descending list holds the costliest elements of the list. */
  lemma RankingFacts(sorted: seq<Item>, m: nat)
    requires m <= |sorted|
    requires SortedBy(sorted, ByCostDesc)
    ensures SortedBy(sorted[..m], ByCostDesc)
    ensures multiset(sorted) == multiset(sorted[..m]) + multiset(sorted[m..])
    ensures forall x, y :: x in multiset(sorted) - multiset(sorted[..m]) && y in sorted[..m] ==> x.costPerDay <= y.costPerDay
  {
    assert sorted == sorted[..m] + sorted[m..];
    var top := sorted[..m];
    forall x, y | x in multiset(sorted) - multiset(top) && y in top
      ensures x.costPerDay <= y.costPerDay
    {
      assert x in multiset(sorted[m..]);
      assert x in sorted[m..];
      var j :| 0 <= j < |sorted[m..]| && sorted[m..][j] == x;
      var i :| 0 <= i < |top| && top[i] == y;
      assert ByCostDesc(sorted[i], sorted[m + j]);
    }
  }

  /**
   Items of equal daily cost are shown in the order they are stored: for
   each cost, the ranked items of that cost are a prefix of the stored ones.
   */
  lemma TopItemsStable(items: seq<Item>, k: real)
    ensures WithKey(TopItems(items), DayCost, k) <= WithKey(items, DayCost, k)
  {
    var sorted := SortBy(items, ByCostDesc);
    SortByStable(items, ByCostDesc, DayCost, k);
    WithKeyPrefix(sorted, Min(RankingSize, |items|), DayCost, k);
  }

  /** With ten items or fewer, every item is ranked and none twice. */
  lemma SmallStoreFullyRanked(items: seq<Item>)
    requires |items| <= RankingSize
    ensures multiset(TopItems(items)) == multiset(items)
  {
    var sorted := SortBy(items, ByCostDesc);
    assert sorted[..|items|] == sorted;
  }
}
