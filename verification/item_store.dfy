/**
 The item list behind the store hook, as pure functions from the current
 list to the next one. Identifiers and timestamps, which the application
 draws from a UUID generator and the clock, are parameters.
 */
module ItemStore {
  import opened Wrappers
  import opened Seqs
  import opened Sorting
  import opened JsStrings
  import opened Types
  import opened Calculations

  /** Every cached daily cost in the list is in sync with its item's fields. */
  predicate AllConsistent(items: seq<Item>)
  {
    forall i :: 0 <= i < |items| ==> Consistent(items[i])
  }

  /**
   Appends the new item; what was there before stays as it was. The two
   timestamps are the results of two separate clock reads.
   */
  function AddItem(items: seq<Item>, data: ItemFormData, id: string, createdAt: string, updatedAt: string): (r: seq<Item>)
    ensures |r| == |items| + 1
    ensures r[..|items|] == items
    ensures r[|items|].id == id && r[|items|].fields == data
    ensures r[|items|].createdAt == createdAt && r[|items|].updatedAt == updatedAt
    ensures Consistent(r[|items|])
  {
    var draft := CreateItemFromFormData(data);
    items + [Item(id, draft.fields, draft.costPerDay, createdAt, updatedAt)]
  }

  /** The edited item: new fields, recomputed daily cost, same identity and creation time. */
  function Edited(item: Item, data: ItemFormData, now: string): Item
  {
    var draft := CreateItemFromFormData(data);
    item.(fields := draft.fields, costPerDay := draft.costPerDay, updatedAt := now)
  }

  /**
   Every item carrying `id` gets the new fields and a recomputed daily cost;
   all other items, the length and the order are unchanged.
   */
  function UpdateItem(items: seq<Item>, id: string, data: ItemFormData, now: string): (r: seq<Item>)
    ensures |r| == |items|
    ensures forall i :: 0 <= i < |items| && items[i].id == id ==>
      && r[i].id == id && r[i].createdAt == items[i].createdAt
      && r[i].fields == data && r[i].updatedAt == now
      && Consistent(r[i])
    ensures forall i :: 0 <= i < |items| && items[i].id != id ==> r[i] == items[i]
  {
    if items == [] then []
    else
      var head := if items[0].id == id then Edited(items[0], data, now) else items[0];
      [head] + UpdateItem(items[1..], id, data, now)
  }

  /** The predicate `deleteItem` filters by. */
  function OtherThan(id: string): Item -> bool
  {
    (item: Item) => item.id != id
  }

  /**
   Removes every item carrying `id`, keeping the others in their order: a
   subsequence without `id` that is exactly as long as the number of
   other items.
   */
  function DeleteItem(items: seq<Item>, id: string): (r: seq<Item>)
    ensures IsSubsequence(r, items)
    ensures forall i :: 0 <= i < |r| ==> r[i].id != id
    ensures |r| == Count(items, OtherThan(id))
    ensures forall x :: x in items && x.id != id ==> x in r
  {
    Filter(items, OtherThan(id))
  }

  /** The first item carrying `id`, if any. */
  function GetItem(items: seq<Item>, id: string): (r: Option<Item>)
    ensures r.None? <==> forall i :: 0 <= i < |items| ==> items[i].id != id
    ensures r.Some? ==> exists i :: (0 <= i < |items| && items[i] == r.value && r.value.id == id
      && forall j :: 0 <= j < i ==> items[j].id != id)
  {
    if items == [] then None
    else if items[0].id == id then Some(items[0])
    else
      var r := GetItem(items[1..], id);
      assert r.Some? ==> exists i :: (0 <= i < |items| && items[i] == r.value && r.value.id == id
          && forall j :: 0 <= j < i ==> items[j].id != id) by {
        if r.Some? {
          var i :| 0 <= i < |items[1..]| && items[1..][i] == r.value && r.value.id == id
            && forall j :: 0 <= j < i ==> items[1..][j].id != id;
          assert items[i + 1] == r.value;
          assert forall j :: 0 <= j < i + 1 ==> items[j].id != id by {
            forall j | 0 <= j < i + 1 ensures items[j].id != id {
              if j > 0 { assert items[j] == items[1..][j - 1]; }
            }
          }
        }
      }
      r
  }

  /** Updating or deleting an unknown id leaves the list as it was. */
  lemma UnknownIdIsNoOp(items: seq<Item>, id: string, data: ItemFormData, now: string)
    requires forall i :: 0 <= i < |items| ==> items[i].id != id
    ensures UpdateItem(items, id, data, now) == items
    ensures DeleteItem(items, id) == items
  {
    FilterAll(items, OtherThan(id));
  }

  /** Deleting twice is deleting once, and afterwards the id is not found. */
  lemma DeleteIdempotent(items: seq<Item>, id: string)
    ensures DeleteItem(DeleteItem(items, id), id) == DeleteItem(items, id)
    ensures GetItem(DeleteItem(items, id), id) == None
  {
    FilterAll(DeleteItem(items, id), OtherThan(id));
  }

  /** An added item with a fresh id is what a lookup of that id finds. */
  lemma GetAfterAdd(items: seq<Item>, data: ItemFormData, id: string, createdAt: string, updatedAt: string)
    requires forall i :: 0 <= i < |items| ==> items[i].id != id
    ensures var r := GetItem(AddItem(items, data, id, createdAt, updatedAt), id);
      r.Some? && r.value.fields == data && r.value.id == id
      && r.value.costPerDay == CalculateCostPerDay(data)
  {
    var added := AddItem(items, data, id, createdAt, updatedAt);
    var r := GetItem(added, id);
    assert added[|items|].id == id;
    assert forall j :: 0 <= j < |items| ==> added[j] == items[j];
  }

  /** After an update, a lookup of the id finds the item with the new fields. */
  lemma GetAfterUpdate(items: seq<Item>, id: string, data: ItemFormData, now: string, k: nat)
    requires k < |items| && items[k].id == id
    ensures var r := GetItem(UpdateItem(items, id, data, now), id);
      r.Some? && r.value.fields == data && Consistent(r.value)
  {
    var updated := UpdateItem(items, id, data, now);
    assert updated[k].id == id;
    var r := GetItem(updated, id);
    var i :| 0 <= i < |updated| && updated[i] == r.value && r.value.id == id;
    assert items[i].id == id;
  }

  /**
   The store invariant: adding, updating and deleting keep every cached
   daily cost in sync with its item's fields.
   */
  lemma StoreKeepsCostsInSync(items: seq<Item>, data: ItemFormData, id: string, createdAt: string, updatedAt: string)
    requires AllConsistent(items)
    ensures AllConsistent(AddItem(items, data, id, createdAt, updatedAt))
    ensures AllConsistent(UpdateItem(items, id, data, updatedAt))
    ensures AllConsistent(DeleteItem(items, id))
  {
    var added := AddItem(items, data, id, createdAt, updatedAt);
    forall i | 0 <= i < |added| ensures Consistent(added[i]) {
      if i < |items| {
        assert added[i] == added[..|items|][i];
      }
    }
    var kept := DeleteItem(items, id);
    forall i | 0 <= i < |kept| ensures Consistent(kept[i]) {
      SubsequenceMembers(kept, items);
      assert kept[i] in kept;
    }
  }

  lemma {:induction false} SubsequenceMembers<T>(a: seq<T>, b: seq<T>)
    requires IsSubsequence(a, b)
    ensures forall x :: x in a ==> x in b
  {
    if a != [] && b != [] {
      if a[0] == b[0] {
        SubsequenceMembers(a[1..], b[1..]);
        assert a == [a[0]] + a[1..];
      } else {
        SubsequenceMembers(a, b[1..]);
      }
    }
  }

  /** The predicate `getItemsByCategory` filters by. */
  function InCategory(category: string): Item -> bool
  {
    (item: Item) => item.fields.category == Some(category)
  }

  /**
   No category (absent or empty) means every item; otherwise the items whose
   category is exactly that one, in their order.
   */
  function GetItemsByCategory(items: seq<Item>, category: Option<string>): (r: seq<Item>)
    ensures category.None? || category.value == "" ==> r == items
    ensures category.Some? && category.value != "" ==>
      && IsSubsequence(r, items)
      && (forall i :: 0 <= i < |r| ==> r[i].fields.category == category)
      && |r| == Count(items, InCategory(category.value))
  {
    if category.None? || category.value == "" then items
    else Filter(items, InCategory(category.value))
  }

  /** The non-empty categories of the items, in order, with repetitions. */
  function NamedCategories(items: seq<Item>): (r: seq<string>)
    ensures forall c :: c in r <==> c != "" && exists i :: 0 <= i < |items| && items[i].fields.category == Some(c)
  {
    if items == [] then []
    else
      var head := match items[0].fields.category
        case Some(c) => if c != "" then [c] else []
        case None => [];
      var rest := NamedCategories(items[1..]);
      assert forall c :: c in rest <==> c != "" && exists i :: 1 <= i < |items| && items[i].fields.category == Some(c) by {
        forall c | c != "" && exists i :: 1 <= i < |items| && items[i].fields.category == Some(c)
          ensures c in rest
        {
          var i :| 1 <= i < |items| && items[i].fields.category == Some(c);
          assert items[1..][i - 1] == items[i];
        }
      }
      head + rest
  }

  /** Sorting distinct strings by `StrLe` gives a strictly increasing list of the same strings. */
  lemma SortedDistinctStrings(distinct: seq<string>)
    requires NoDuplicates(distinct)
    ensures var r := SortBy(distinct, StrLe);
      && (forall i, j :: 0 <= i < j < |r| ==> StrLe(r[i], r[j]) && r[i] != r[j])
      && (forall c :: c in r <==> c in distinct)
  {
    var r := SortBy(distinct, StrLe);
    StrLeTotalPreorder();
    SortBySorted(distinct, StrLe);
    SortByMembers(distinct, StrLe);
    var same := (c: string) => c;
    assert MapSeq(distinct, same) == distinct;
    SortByNoDuplicates(distinct, StrLe, same);
    assert MapSeq(r, same) == r;
  }

  /**
   The distinct non-empty categories, in the default ascending string order
   (UTF-16 code units): strictly increasing and exactly the categories in use.
   */
  function GetAllCategories(items: seq<Item>): (r: seq<string>)
    ensures forall i, j :: 0 <= i < j < |r| ==> StrLe(r[i], r[j]) && r[i] != r[j]
    ensures forall c :: c in r <==> c != "" && exists i :: 0 <= i < |items| && items[i].fields.category == Some(c)
  {
    var distinct := FirstAppearance(NamedCategories(items));
    SortedDistinctStrings(distinct);
    SortBy(distinct, StrLe)
  }
}
