/// ID-keyed updates of a list of clothing items, shared by the clothing
/// controller, the outfit controller and the clothing views.
module ClothingLists {
  import opened Lists
  import opened WebTypes

  function WithoutItem(id: string): ClothingItem -> bool
  {
    (e: ClothingItem) => e.id != id
  }

  /** `items.filter(item => item.id !== id)` */
  function RemoveItem(items: seq<ClothingItem>, id: string): seq<ClothingItem>
  {
    Filter(items, WithoutItem(id))
  }

  /** `items.map(item => item.id === id ? updated : item)` */
  function ReplaceItem(items: seq<ClothingItem>, id: string, updated: ClothingItem): seq<ClothingItem>
  {
    seq(|items|, i requires 0 <= i < |items| => if items[i].id == id then updated else items[i])
  }

  predicate DistinctIds(items: seq<ClothingItem>)
  {
    forall i, j :: 0 <= i < j < |items| ==> items[i].id != items[j].id
  }

  /** Removing drops exactly the items with the ID, keeps the others in
      order, and is the identity when no item has the ID. */
  lemma RemoveItemMeaning(items: seq<ClothingItem>, id: string)
    ensures forall x :: x in RemoveItem(items, id) <==> x in items && x.id != id
    ensures |RemoveItem(items, id)| <= |items|
    ensures (forall x :: x in items ==> x.id != id) ==> RemoveItem(items, id) == items
    ensures RemoveItem(RemoveItem(items, id), id) == RemoveItem(items, id)
  {
    if forall x :: x in items ==> x.id != id {
      FilterAll(items, WithoutItem(id));
    }
    FilterAll(RemoveItem(items, id), WithoutItem(id));
  }

  /** Replacing keeps the length and every other item, and afterwards every
      item with the ID is the replacement. */
  lemma {:induction false} ReplaceItemMeaning(items: seq<ClothingItem>, id: string, updated: ClothingItem)
    requires updated.id == id
    ensures |ReplaceItem(items, id, updated)| == |items|
    ensures RemoveItem(ReplaceItem(items, id, updated), id) == RemoveItem(items, id)
    ensures forall x :: x in ReplaceItem(items, id, updated) && x.id == id ==> x == updated
    decreases |items|
  {
    if items != [] {
      ReplaceItemMeaning(items[1..], id, updated);
      assert ReplaceItem(items, id, updated)[1..] == ReplaceItem(items[1..], id, updated);
    }
  }

  /** Filtering keeps IDs distinct. */
  lemma {:induction false} FilterDistinct(s: seq<ClothingItem>, keep: ClothingItem -> bool)
    requires DistinctIds(s)
    ensures DistinctIds(Filter(s, keep))
    decreases |s|
  {
    if s != [] {
      FilterDistinct(s[1..], keep);
      forall x | x in s[1..] ensures x.id != s[0].id {
        var j :| 0 <= j < |s[1..]| && s[1..][j] == x;
        assert s[j + 1] == x;
      }
    }
  }

  lemma RemoveItemKeepsDistinct(items: seq<ClothingItem>, id: string)
    requires DistinctIds(items)
    ensures DistinctIds(RemoveItem(items, id))
  {
    FilterDistinct(items, WithoutItem(id));
  }
}
