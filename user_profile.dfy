/// The wardrobe part of the `UserProfile` component: its own clothing-item
/// shape, adding an item from the entry form, deleting one, and the
/// per-category sections. `Date.now()` is the parameter `millis`.
module UserProfileView {
  import opened Text
  import opened Lists

  /** The component's local item record (its optional image is left out). */
  datatype ProfileItem = ProfileItem(id: string, name: string, itemType: string, color: string, category: string)

  /** The entry form, a `Partial<ClothingItem>` whose fields the inputs
      always hold as strings. */
  datatype NewItem = NewItem(name: string, itemType: string, color: string, category: string)

  /** The form as it starts and is reset: empty fields, category tops. */
  const BlankNewItem := NewItem("", "", "", "tops")

  /** The sections in display order, with their headings. */
  const CategoryKeys: seq<string> := ["tops", "bottoms", "outerwear", "shoes", "accessories"]
  const CategoryHeadings: seq<string> := ["トップス", "ボトムス", "アウター", "シューズ", "アクセサリー"]

  /** The mock wardrobe the component loads. */
  const MockItems: seq<ProfileItem> := [
    ProfileItem("1", "ネイビーシャツ", "シャツ", "ネイビー", "tops"),
    ProfileItem("2", "デニムパンツ", "パンツ", "ブルー", "bottoms")
  ]

  function NotId(id: string): ProfileItem -> bool
  {
    (x: ProfileItem) => x.id != id
  }

  function OfCategory(category: string): ProfileItem -> bool
  {
    (x: ProfileItem) => x.category == category
  }

  /** The items of one section. */
  function Section(items: seq<ProfileItem>, category: string): (r: seq<ProfileItem>)
    ensures forall x :: x in r <==> x in items && x.category == category
  {
    Filter(items, OfCategory(category))
  }

  /** One step of a section: the first item, if it belongs, then the rest's
      section. */
  lemma SectionStep(x: ProfileItem, rest: seq<ProfileItem>, k: string)
    ensures Section([x] + rest, k) == (if x.category == k then [x] else []) + Section(rest, k)
  {
    assert ([x] + rest)[1..] == rest;
  }

  /** The sizes of the five sections added up. */
  function SectionSizes(items: seq<ProfileItem>): nat
  {
    |Section(items, "tops")| + |Section(items, "bottoms")| + |Section(items, "outerwear")|
    + |Section(items, "shoes")| + |Section(items, "accessories")|
  }

  /** An item of one of the five categories adds one to exactly one
      section. */
  lemma SizesStep(x: ProfileItem, rest: seq<ProfileItem>)
    requires x.category in CategoryKeys
    ensures SectionSizes([x] + rest) == SectionSizes(rest) + 1
  {
    SectionStep(x, rest, "tops");
    SectionStep(x, rest, "bottoms");
    SectionStep(x, rest, "outerwear");
    SectionStep(x, rest, "shoes");
    SectionStep(x, rest, "accessories");
  }

  /** When every item has one of the five categories, the sections together
      list every item exactly once. */
  lemma {:induction false} SectionsCover(items: seq<ProfileItem>)
    requires forall x :: x in items ==> x.category in CategoryKeys
    ensures SectionSizes(items) == |items|
    decreases |items|
  {
    if items != [] {
      var rest := items[1..];
      assert items == [items[0]] + rest;
      assert forall y :: y in rest ==> y in items;
      SectionsCover(rest);
      SizesStep(items[0], rest);
    }
  }

  class UserProfile {
    var clothingItems: seq<ProfileItem>
    var showAddItem: bool
    var newItem: NewItem

    constructor ()
      ensures clothingItems == [] && !showAddItem && newItem == BlankNewItem
    {
      clothingItems := [];
      showAddItem := false;
      newItem := BlankNewItem;
    }

    /** `fetchClothingItems`: the mock wardrobe. */
    method FetchClothingItems()
      modifies this
      ensures clothingItems == MockItems
      ensures showAddItem == old(showAddItem) && newItem == old(newItem)
    {
      clothingItems := MockItems;
    }

    /** The add button opens the entry panel and the cancel button closes it. */
    method SetShowAddItem(show: bool)
      modifies this
      ensures showAddItem == show
      ensures clothingItems == old(clothingItems) && newItem == old(newItem)
    {
      showAddItem := show;
    }

    /** Typing in the entry form. */
    method EditNewItem(item: NewItem)
      modifies this
      ensures newItem == item
      ensures clothingItems == old(clothingItems) && showAddItem == old(showAddItem)
    {
      newItem := item;
    }

    /** `handleAddItem`: with a name, type and colour, appends one item with
        the entered fields and the clock as its ID, resets the form and
        closes the panel; with any of them empty, changes nothing. */
    method HandleAddItem(millis: nat) returns (added: bool)
      modifies this
      ensures added <==> old(newItem.name) != "" && old(newItem.itemType) != "" && old(newItem.color) != ""
      ensures !added ==> clothingItems == old(clothingItems) && newItem == old(newItem) && showAddItem == old(showAddItem)
      ensures added ==>
                clothingItems == old(clothingItems)
                  + [ProfileItem(NatToString(millis), old(newItem.name), old(newItem.itemType), old(newItem.color), old(newItem.category))]
                && newItem == BlankNewItem && !showAddItem
    {
      if newItem.name == "" || newItem.itemType == "" || newItem.color == "" {
        return false;
      }
      var item := ProfileItem(NatToString(millis), newItem.name, newItem.itemType, newItem.color, newItem.category);
      clothingItems := clothingItems + [item];
      newItem := BlankNewItem;
      showAddItem := false;
      added := true;
    }

    /** `handleDeleteItem`: keeps, in order, the items with another ID. */
    method HandleDeleteItem(itemId: string)
      modifies this
      ensures clothingItems == Filter(old(clothingItems), NotId(itemId))
      ensures forall x :: x in clothingItems <==> x in old(clothingItems) && x.id != itemId
      ensures newItem == old(newItem) && showAddItem == old(showAddItem)
    {
      clothingItems := Filter(clothingItems, NotId(itemId));
    }
  }

  /** Deleting what was just added restores the wardrobe when no item had
      that ID. */
  lemma {:induction false} AddThenDelete(items: seq<ProfileItem>, item: ProfileItem)
    requires forall x :: x in items ==> x.id != item.id
    ensures Filter(items + [item], NotId(item.id)) == items
  {
    FilterAppend(items, [item], NotId(item.id));
    FilterAll(items, NotId(item.id));
    assert Filter([item], NotId(item.id)) == [] by {
      assert [item][1..] == [];
    }
  }
}
