/**
 The summary the store hook computes on every read: portfolio totals per
 day, month and year, and one entry per category in descending order of
 daily cost. The category `Map` of the application is a list of groups in
 insertion order, which is the order a JavaScript `Map` iterates in.
 */
module Aggregation {
  import opened Seqs
  import opened Sorting
  import opened Types
  import opened Calculations

  /** The bucket for items whose category is absent or empty. */
  const Uncategorised: string := "未分類"

  /** `item.category || '未分類'`. */
  function CategoryKey(item: Item): (k: string)
    ensures k != ""
    ensures k == Uncategorised || item.fields.category == Wrappers.Some(k)
    ensures item.fields.category.Some? && item.fields.category.value != "" ==> k == item.fields.category.value
  {
    match item.fields.category
    case Some(c) => if c != "" then c else Uncategorised
    case None => Uncategorised
  }

  /** The category key of every item, in order. */
  function Keys(items: seq<Item>): seq<string>
  {
    MapSeq(items, CategoryKey)
  }

  function InBucket(k: string): Item -> bool
  {
    (item: Item) => CategoryKey(item) == k
  }

  /** The items filed under category `k`, in order. */
  function Bucket(items: seq<Item>, k: string): seq<Item>
  {
    Filter(items, InBucket(k))
  }

  /** One entry of the category map. */
  datatype Group = Group(category: string, items: seq<Item>)

  function GroupName(g: Group): string
  {
    g.category
  }

  function CategoryNames(gs: seq<Group>): seq<string>
  {
    MapSeq(gs, GroupName)
  }

  /**
   `map.set(k, [...existing, item])`: an existing entry grows in place, a new
   key is appended at the end.
   */
  function Upsert(gs: seq<Group>, k: string, item: Item): seq<Group>
  {
    if gs == [] then [Group(k, [item])]
    else if gs[0].category == k then [gs[0].(items := gs[0].items + [item])] + gs[1..]
    else [gs[0]] + Upsert(gs[1..], k, item)
  }

  lemma NamesCons(g: Group, gs: seq<Group>)
    ensures CategoryNames([g] + gs) == [g.category] + CategoryNames(gs)
  {
  }

  lemma {:induction false} UpsertNames(gs: seq<Group>, k: string, item: Item)
    ensures CategoryNames(Upsert(gs, k, item))
         == if k in CategoryNames(gs) then CategoryNames(gs) else CategoryNames(gs) + [k]
  {
    if gs != [] {
      NamesCons(gs[0], gs[1..]);
      assert gs == [gs[0]] + gs[1..];
      if gs[0].category == k {
        NamesCons(gs[0].(items := gs[0].items + [item]), gs[1..]);
      } else {
        UpsertNames(gs[1..], k, item);
        NamesCons(gs[0], Upsert(gs[1..], k, item));
      }
    }
  }

  /**
   Exactly the entry named `k` grows by `item`; when there is none, a new
   entry holding only `item` is appended.
   */
  lemma {:induction false} UpsertItems(gs: seq<Group>, k: string, item: Item)
    requires NoDuplicates(CategoryNames(gs))
    ensures |Upsert(gs, k, item)| == |gs| + (if k in CategoryNames(gs) then 0 else 1)
    ensures forall i :: 0 <= i < |gs| ==>
      Upsert(gs, k, item)[i].items == gs[i].items + (if gs[i].category == k then [item] else [])
    ensures k !in CategoryNames(gs) ==> Upsert(gs, k, item)[|gs|].items == [item]
  {
    UpsertNames(gs, k, item);
    if gs != [] {
      var names := CategoryNames(gs);
      assert names[0] == gs[0].category;
      if gs[0].category == k {
        forall i | 0 < i < |gs| ensures gs[i].category != k {
          assert names[i] == gs[i].category;
        }
      } else {
        assert CategoryNames(gs[1..]) == names[1..];
        UpsertItems(gs[1..], k, item);
      }
    }
  }

  lemma BucketSnoc(items: seq<Item>, x: Item, k: string)
    ensures Bucket(items + [x], k) == Bucket(items, k) + (if CategoryKey(x) == k then [x] else [])
  {
    FilterConcat(items, [x], InBucket(k));
    assert [x][1..] == [];
  }

  lemma BucketOfUnusedKey(items: seq<Item>, k: string)
    requires k !in Keys(items)
    ensures Bucket(items, k) == []
  {
    forall i | 0 <= i < |items| ensures !InBucket(k)(items[i]) {
      assert Keys(items)[i] == CategoryKey(items[i]);
    }
    FilterNone(items, InBucket(k));
  }

  /**
   The category map, filled item by item as `forEach` does: one group per
   category key in order of first appearance, holding exactly that
   category's items in their order.
   */
  function Groups(items: seq<Item>): (gs: seq<Group>)
    ensures CategoryNames(gs) == FirstAppearance(Keys(items))
    ensures forall i :: 0 <= i < |gs| ==> gs[i].items == Bucket(items, gs[i].category)
  {
    if items == [] then []
    else
      var p := items[..|items| - 1];
      var x := items[|items| - 1];
      var before := Groups(p);
      SplitLast(items);
      GroupsStep(p, x, before);
      Upsert(before, CategoryKey(x), x)
  }

  /** One `forEach` step keeps the two facts `Groups` promises. */
  lemma {:induction false} GroupsStep(p: seq<Item>, x: Item, before: seq<Group>)
    requires CategoryNames(before) == FirstAppearance(Keys(p))
    requires forall i :: 0 <= i < |before| ==> before[i].items == Bucket(p, before[i].category)
    ensures var gs := Upsert(before, CategoryKey(x), x);
      && CategoryNames(gs) == FirstAppearance(Keys(p + [x]))
      && forall i :: 0 <= i < |gs| ==> gs[i].items == Bucket(p + [x], gs[i].category)
  {
    GroupsStepNames(p, x, before);
    var gs := Upsert(before, CategoryKey(x), x);
    forall i | 0 <= i < |gs| ensures gs[i].items == Bucket(p + [x], gs[i].category) {
      GroupsStepAt(p, x, before, i);
    }
  }

  lemma {:induction false} GroupsStepNames(p: seq<Item>, x: Item, before: seq<Group>)
    requires CategoryNames(before) == FirstAppearance(Keys(p))
    ensures CategoryNames(Upsert(before, CategoryKey(x), x)) == FirstAppearance(Keys(p + [x]))
  {
    var k := CategoryKey(x);
    var items := p + [x];
    assert items[..|items| - 1] == p;
    assert Keys(items)[..|items| - 1] == Keys(p);
    assert Keys(items)[|items| - 1] == k;
    UpsertNames(before, k, x);
  }

  lemma {:induction false} GroupsStepAt(p: seq<Item>, x: Item, before: seq<Group>, i: nat)
    requires CategoryNames(before) == FirstAppearance(Keys(p))
    requires forall j :: 0 <= j < |before| ==> before[j].items == Bucket(p, before[j].category)
    requires i < |Upsert(before, CategoryKey(x), x)|
    ensures var g := Upsert(before, CategoryKey(x), x)[i];
      g.items == Bucket(p + [x], g.category)
  {
    var k := CategoryKey(x);
    var gs := Upsert(before, k, x);
    var names := CategoryNames(before);
    UpsertNames(before, k, x);
    UpsertItems(before, k, x);
    var c := CategoryNames(gs)[i];
    assert c == gs[i].category;
    BucketSnoc(p, x, c);
    if i < |before| {
      assert names[i] == before[i].category;
      assert CategoryNames(gs)[i] == names[i];
      assert gs[i].items == before[i].items + (if c == k then [x] else []);
    } else {
      assert k !in names;
      assert c == k;
      assert forall j :: 0 <= j < |Keys(p)| ==> Keys(p)[j] in names;
      assert forall j :: 0 <= j < |Keys(p)| ==> Keys(p)[j] != k;
      BucketOfUnusedKey(p, k);
    }
  }

  /** Sum of `f` over all groups' items. */
  function GroupTotal(gs: seq<Group>, f: Item -> real): real
  {
    if gs == [] then 0.0 else SumOf(gs[0].items, f) + GroupTotal(gs[1..], f)
  }

  function GroupCount(gs: seq<Group>): nat
  {
    if gs == [] then 0 else |gs[0].items| + GroupCount(gs[1..])
  }

  lemma {:induction false} UpsertTotals(gs: seq<Group>, k: string, item: Item, f: Item -> real)
    requires NoDuplicates(CategoryNames(gs))
    ensures GroupTotal(Upsert(gs, k, item), f) == GroupTotal(gs, f) + f(item)
    ensures GroupCount(Upsert(gs, k, item)) == GroupCount(gs) + 1
  {
    var r := Upsert(gs, k, item);
    if gs == [] {
      assert r == [Group(k, [item])];
      assert r[1..] == [];
      assert [item][1..] == [];
      assert SumOf([item], f) == f(item);
      assert GroupTotal(r, f) == SumOf([item], f) + GroupTotal([], f);
    } else {
      SumOfSnoc(gs[0].items, item, f);
      if gs[0].category != k {
        assert CategoryNames(gs[1..]) == CategoryNames(gs)[1..];
        UpsertTotals(gs[1..], k, item, f);
        assert r[1..] == Upsert(gs[1..], k, item);
      } else {
        assert r[1..] == gs[1..];
      }
    }
  }

  /** The groups partition the items: their totals and counts add up. */
  lemma {:induction false} GroupsPartition(items: seq<Item>, f: Item -> real)
    ensures GroupTotal(Groups(items), f) == SumOf(items, f)
    ensures GroupCount(Groups(items)) == |items|
  {
    if items != [] {
      var p := items[..|items| - 1];
      var x := items[|items| - 1];
      assert items == p + [x];
      GroupsPartition(p, f);
      UpsertTotals(Groups(p), CategoryKey(x), x, f);
      SumOfSnoc(p, x, f);
    }
  }

  function Summarize(g: Group): CategorySummary
  {
    CategorySummary(g.category,
      SumOf(g.items, DayCost),
      SumOf(g.items, CalculateCostPerMonth),
      SumOf(g.items, CalculateCostPerYear),
      |g.items|)
  }

  function Summaries(gs: seq<Group>): seq<CategorySummary>
  {
    MapSeq(gs, Summarize)
  }

  function SummaryName(c: CategorySummary): string { c.category }
  function SummaryDay(c: CategorySummary): real { c.totalCostPerDay }
  function SummaryMonth(c: CategorySummary): real { c.totalCostPerMonth }
  function SummaryYear(c: CategorySummary): real { c.totalCostPerYear }

  function ItemCountTotal(ss: seq<CategorySummary>): nat
  {
    if ss == [] then 0 else ss[0].itemCount + ItemCountTotal(ss[1..])
  }

  /** The comparator `b.totalCostPerDay - a.totalCostPerDay`: larger daily totals first. */
  predicate DescByDay(a: CategorySummary, b: CategorySummary)
  {
    a.totalCostPerDay >= b.totalCostPerDay
  }

  lemma {:induction false} SummariesTotals(gs: seq<Group>)
    ensures SumOf(Summaries(gs), SummaryDay) == GroupTotal(gs, DayCost)
    ensures SumOf(Summaries(gs), SummaryMonth) == GroupTotal(gs, CalculateCostPerMonth)
    ensures SumOf(Summaries(gs), SummaryYear) == GroupTotal(gs, CalculateCostPerYear)
    ensures ItemCountTotal(Summaries(gs)) == GroupCount(gs)
  {
    if gs != [] {
      SummariesTotals(gs[1..]);
      assert Summaries(gs)[1..] == Summaries(gs[1..]);
    }
  }

  lemma {:induction false} InsertItemCount(x: CategorySummary, t: seq<CategorySummary>)
    ensures ItemCountTotal(Insert(x, t, DescByDay)) == x.itemCount + ItemCountTotal(t)
  {
    if t != [] && !DescByDay(x, t[0]) {
      InsertItemCount(x, t[1..]);
      assert Insert(x, t, DescByDay)[1..] == Insert(x, t[1..], DescByDay);
    } else {
      assert ([x] + t)[1..] == t;
    }
  }

  lemma {:induction false} SortItemCount(ss: seq<CategorySummary>)
    ensures ItemCountTotal(SortBy(ss, DescByDay)) == ItemCountTotal(ss)
  {
    if ss != [] {
      SortItemCount(ss[1..]);
      InsertItemCount(ss[0], SortBy(ss[1..], DescByDay));
    }
  }

  /** Each category entry is the total of that category's items. */
  lemma SummariesDescribeBuckets(items: seq<Item>)
    ensures var ss := SortBy(Summaries(Groups(items)), DescByDay);
      forall c :: c in ss ==>
        && c.totalCostPerDay == SumOf(Bucket(items, c.category), DayCost)
        && c.totalCostPerMonth == SumOf(Bucket(items, c.category), CalculateCostPerMonth)
        && c.totalCostPerYear == SumOf(Bucket(items, c.category), CalculateCostPerYear)
        && c.itemCount == |Bucket(items, c.category)|
  {
    var gs := Groups(items);
    var unsorted := Summaries(gs);
    var ss := SortBy(unsorted, DescByDay);
    SortByMembers(unsorted, DescByDay);
    forall c | c in ss
      ensures c.totalCostPerDay == SumOf(Bucket(items, c.category), DayCost)
      ensures c.totalCostPerMonth == SumOf(Bucket(items, c.category), CalculateCostPerMonth)
      ensures c.totalCostPerYear == SumOf(Bucket(items, c.category), CalculateCostPerYear)
      ensures c.itemCount == |Bucket(items, c.category)|
    {
      assert c in unsorted;
      var i :| 0 <= i < |unsorted| && unsorted[i] == c;
      assert c == Summarize(gs[i]);
      assert gs[i].items == Bucket(items, gs[i].category);
    }
  }

  lemma SortedNamesAreGroupNames(gs: seq<Group>)
    ensures forall k :: k in MapSeq(SortBy(Summaries(gs), DescByDay), SummaryName) <==> k in CategoryNames(gs)
  {
    var unsorted := Summaries(gs);
    var ss := SortBy(unsorted, DescByDay);
    var names := MapSeq(ss, SummaryName);
    SortByMembers(unsorted, DescByDay);
    forall k | k in names ensures k in CategoryNames(gs) {
      var i :| 0 <= i < |ss| && names[i] == k;
      assert ss[i] in unsorted;
      var j :| 0 <= j < |unsorted| && unsorted[j] == ss[i];
      assert CategoryNames(gs)[j] == k;
    }
    forall k | k in CategoryNames(gs) ensures k in names {
      var i :| 0 <= i < |gs| && CategoryNames(gs)[i] == k;
      assert unsorted[i] in ss;
      var j :| 0 <= j < |ss| && ss[j] == unsorted[i];
      assert names[j] == k;
    }
  }

  /** The category names of the summary are the category keys in use, each once. */
  lemma SummaryNames(items: seq<Item>)
    ensures var ss := SortBy(Summaries(Groups(items)), DescByDay);
      && NoDuplicates(MapSeq(ss, SummaryName))
      && forall k :: k in MapSeq(ss, SummaryName) <==> k in Keys(items)
  {
    var gs := Groups(items);
    var unsorted := Summaries(gs);
    assert MapSeq(unsorted, SummaryName) == CategoryNames(gs);
    SortByNoDuplicates(unsorted, DescByDay, SummaryName);
    SortedNamesAreGroupNames(gs);
  }

  /**
   `getSummaryData`: totals over all items, and the per-category entries in
   descending order of daily total. The entries partition the items: their
   totals add up to the overall totals and their counts to the item count.
   */
  function GetSummaryData(items: seq<Item>): (r: SummaryData)
    ensures items == [] ==> r == SummaryData(0.0, 0.0, 0.0, [])
    ensures r.totalCostPerDay == SumOf(r.categorySummary, SummaryDay)
    ensures r.totalCostPerMonth == SumOf(r.categorySummary, SummaryMonth)
    ensures r.totalCostPerYear == SumOf(r.categorySummary, SummaryYear)
    ensures ItemCountTotal(r.categorySummary) == |items|
    ensures SortedBy(r.categorySummary, DescByDay)
  {
    var gs := Groups(items);
    var unsorted := Summaries(gs);
    var categorySummary := SortBy(unsorted, DescByDay);
    GroupsPartition(items, DayCost);
    GroupsPartition(items, CalculateCostPerMonth);
    GroupsPartition(items, CalculateCostPerYear);
    SummariesTotals(gs);
    SortBySum(unsorted, DescByDay, SummaryDay);
    SortBySum(unsorted, DescByDay, SummaryMonth);
    SortBySum(unsorted, DescByDay, SummaryYear);
    SortItemCount(unsorted);
    SortBySorted(unsorted, DescByDay);
    SummaryData(
      SumOf(items, DayCost),
      SumOf(items, CalculateCostPerMonth),
      SumOf(items, CalculateCostPerYear),
      categorySummary)
  }

  /**
   The category entries of the summary: one per category key in use, each
   the totals of exactly that category's items; entries with equal daily
   totals keep the order in which their categories first appear.
   */
  lemma GetSummaryDataCategories(items: seq<Item>, v: real)
    ensures var r := GetSummaryData(items);
      && NoDuplicates(MapSeq(r.categorySummary, SummaryName))
      && (forall k :: k in MapSeq(r.categorySummary, SummaryName) <==> k in Keys(items))
      && (forall c :: c in r.categorySummary ==>
            && c.totalCostPerDay == SumOf(Bucket(items, c.category), DayCost)
            && c.totalCostPerMonth == SumOf(Bucket(items, c.category), CalculateCostPerMonth)
            && c.totalCostPerYear == SumOf(Bucket(items, c.category), CalculateCostPerYear)
            && c.itemCount == |Bucket(items, c.category)|)
      && WithKey(r.categorySummary, SummaryDay, v) == WithKey(Summaries(Groups(items)), SummaryDay, v)
  {
    SummaryNames(items);
    SummariesDescribeBuckets(items);
    SortByStable(Summaries(Groups(items)), DescByDay, SummaryDay, v);
  }
}
