/// `useClothingController`, `useClothingFilters` and `useClothingStats`.
/// The controller's React state is a class whose fields the actions replace;
/// each awaited model call is an input `Call` holding its outcome.
module ClothingController {
  import opened Common
  import opened Text
  import opened Lists
  import opened WebTypes
  import opened ClothingLists

  // ---------------------------------------------------------------------------
  // Counting objects: `acc[k] = (acc[k] || 0) + 1`

  /** A JavaScript counting object: its keys, each with its count, in the
      order the model first meets them. (JavaScript itself lists
      integer-like keys first, in numeric order; the model does not.) */
  type Tally = seq<(string, nat)>

  /** The sum of the counts. */
  function Total(t: Tally): nat
  {
    if t == [] then 0 else t[0].1 + Total(t[1..])
  }

  /** `acc[k] || 0` */
  function CountOf(t: Tally, k: string): nat
  {
    if t == [] then 0 else if t[0].0 == k then t[0].1 else CountOf(t[1..], k)
  }

  function KeysOf(t: Tally): set<string>
  {
    set i | 0 <= i < |t| :: t[i].0
  }

  predicate DistinctKeys(t: Tally)
  {
    forall i, j :: 0 <= i < j < |t| ==> t[i].0 != t[j].0
  }

  /** `acc[k] = (acc[k] || 0) + 1`: a present key is incremented in place, a
      new key goes last with count 1. */
  function Bump(t: Tally, k: string): Tally
  {
    if t == [] then [(k, 1)]
    else if t[0].0 == k then [(k, t[0].1 + 1)] + t[1..]
    else [t[0]] + Bump(t[1..], k)
  }

  /** A bump adds one to the total and to the bumped key's count only. */
  lemma {:induction false} BumpCounts(t: Tally, k: string)
    ensures Total(Bump(t, k)) == Total(t) + 1
    ensures forall j :: CountOf(Bump(t, k), j) == CountOf(t, j) + (if j == k then 1 else 0)
    decreases |t|
  {
    if t != [] && t[0].0 != k {
      BumpCounts(t[1..], k);
      assert Bump(t, k)[1..] == Bump(t[1..], k);
    } else if t != [] {
      assert Bump(t, k)[1..] == t[1..];
    }
  }

  /** The keys of a non-empty tally: its first key and the rest's. */
  lemma KeysOfCons(t: Tally)
    requires t != []
    ensures KeysOf(t) == {t[0].0} + KeysOf(t[1..])
  {
    forall x | x in KeysOf(t)
      ensures x in {t[0].0} + KeysOf(t[1..])
    {
      var i :| 0 <= i < |t| && t[i].0 == x;
      if i > 0 { assert t[1..][i - 1].0 == x; }
    }
    forall x | x in KeysOf(t[1..])
      ensures x in KeysOf(t)
    {
      var i :| 0 <= i < |t[1..]| && t[1..][i].0 == x;
      assert t[i + 1].0 == x;
    }
  }

  /** A bump adds its key to the keys. */
  lemma {:induction false} BumpKeys(t: Tally, k: string)
    ensures KeysOf(Bump(t, k)) == KeysOf(t) + {k}
    decreases |t|
  {
    var b := Bump(t, k);
    if t != [] && t[0].0 != k {
      BumpKeys(t[1..], k);
      assert b[1..] == Bump(t[1..], k);
      KeysOfCons(b);
      KeysOfCons(t);
    } else if t != [] {
      assert b[1..] == t[1..];
      KeysOfCons(b);
      KeysOfCons(t);
    } else {
      assert b == [(k, 1)];
      assert KeysOf(b) == {k} by {
        assert b[0].0 == k;
      }
    }
  }

  /** A bump keeps the keys distinct. */
  lemma {:induction false} BumpDistinct(t: Tally, k: string)
    requires DistinctKeys(t)
    ensures DistinctKeys(Bump(t, k))
    decreases |t|
  {
    var b := Bump(t, k);
    if t != [] && t[0].0 != k {
      assert DistinctKeys(t[1..]) by {
        assert forall i :: 0 <= i < |t[1..]| ==> t[1..][i] == t[i + 1];
      }
      BumpDistinct(t[1..], k);
      BumpKeys(t[1..], k);
      assert b[1..] == Bump(t[1..], k);
      KeysOfCons(t);
      assert t[0].0 !in KeysOf(t[1..]) by {
        assert forall i :: 0 <= i < |t[1..]| ==> t[1..][i].0 == t[i + 1].0 != t[0].0;
      }
      forall i, j | 0 <= i < j < |b|
        ensures b[i].0 != b[j].0
      {
        assert b[j].0 == b[1..][j - 1].0;
        if i == 0 {
          assert b[1..][j - 1].0 in KeysOf(b[1..]);
        } else {
          assert b[i].0 == b[1..][i - 1].0;
        }
      }
    } else if t != [] {
      assert forall i :: 0 <= i < |t| ==> b[i].0 == t[i].0;
    }
  }

  /** The counting object a `reduce` over `keys` builds. */
  function TallyOf(keys: seq<string>): (t: Tally)
    ensures Total(t) == |keys|
    ensures DistinctKeys(t)
  {
    if keys == [] then []
    else
      var init := TallyOf(keys[..|keys| - 1]);
      BumpCounts(init, keys[|keys| - 1]);
      BumpDistinct(init, keys[|keys| - 1]);
      Bump(init, keys[|keys| - 1])
  }

  /** Each key is counted as often as it occurs, the keys are distinct and
      are exactly the counted values, and the counts sum to the number of
      keys. */
  lemma {:induction false} TallyOfMeaning(keys: seq<string>)
    ensures Total(TallyOf(keys)) == |keys|
    ensures forall k :: CountOf(TallyOf(keys), k) == multiset(keys)[k]
    ensures forall k :: k in KeysOf(TallyOf(keys)) <==> k in keys
    ensures DistinctKeys(TallyOf(keys))
    decreases |keys|
  {
    if keys != [] {
      var init, last := keys[..|keys| - 1], keys[|keys| - 1];
      TallyOfMeaning(init);
      BumpCounts(TallyOf(init), last);
      BumpKeys(TallyOf(init), last);
      BumpDistinct(TallyOf(init), last);
      assert keys == init + [last];
    }
  }

  /** Which field a statistic counts. */
  datatype Field = CategoryField | ColorField

  function FieldOf(item: ClothingItem, f: Field): string
  {
    match f
    case CategoryField => item.category
    case ColorField => item.color
  }

  function FieldValues(items: seq<ClothingItem>, f: Field): (r: seq<string>)
    ensures |r| == |items|
    ensures forall i :: 0 <= i < |items| ==> r[i] == FieldOf(items[i], f)
  {
    seq(|items|, i requires 0 <= i < |items| => FieldOf(items[i], f))
  }

  /** Every season entry of every item, item by item. */
  function SeasonEntries(items: seq<ClothingItem>): seq<string>
  {
    if items == [] then [] else SeasonEntries(items[..|items| - 1]) + items[|items| - 1].season
  }

  /** `items.reduce((acc, item) => { acc[field] = (acc[field] || 0) + 1 }, {})` */
  method CountBy(items: seq<ClothingItem>, f: Field) returns (acc: Tally)
    ensures acc == TallyOf(FieldValues(items, f))
    ensures Total(acc) == |items|
    ensures forall k :: CountOf(acc, k) == multiset(FieldValues(items, f))[k]
  {
    acc := [];
    for i := 0 to |items|
      invariant acc == TallyOf(FieldValues(items[..i], f))
    {
      assert FieldValues(items[..i + 1], f)[..i] == FieldValues(items[..i], f);
      acc := Bump(acc, FieldOf(items[i], f));
    }
    assert items[..|items|] == items;
    TallyOfMeaning(FieldValues(items, f));
  }

  /** The inner `forEach` of the season count: counting the seasons of one
      item on top of the entries counted so far. */
  method BumpAll(acc: Tally, done: seq<string>, seasons: seq<string>) returns (r: Tally)
    requires acc == TallyOf(done)
    ensures r == TallyOf(done + seasons)
  {
    r := acc;
    assert done + seasons[..0] == done;
    for j := 0 to |seasons|
      invariant r == TallyOf(done + seasons[..j])
    {
      var next := done + seasons[..j + 1];
      assert next[..|next| - 1] == done + seasons[..j];
      r := Bump(r, seasons[j]);
    }
    assert seasons[..|seasons|] == seasons;
  }

  /** The `bySeason` reduce: one count per season entry of each item. */
  method CountSeasons(items: seq<ClothingItem>) returns (acc: Tally)
    ensures acc == TallyOf(SeasonEntries(items))
    ensures Total(acc) == |SeasonEntries(items)|
    ensures forall k :: CountOf(acc, k) == multiset(SeasonEntries(items))[k]
  {
    acc := [];
    for i := 0 to |items|
      invariant acc == TallyOf(SeasonEntries(items[..i]))
    {
      assert items[..i + 1][..i] == items[..i];
      acc := BumpAll(acc, SeasonEntries(items[..i]), items[i].season);
    }
    assert items[..|items|] == items;
    TallyOfMeaning(SeasonEntries(items));
  }


  /** The result of `useClothingStats`. */
  datatype Stats = Stats(total: nat, byCategory: Tally, bySeason: Tally, byColor: Tally)

  /** `useClothingStats(items)`: the category and colour counts each sum to
      the number of items, the season counts to the number of season
      entries. */
  method ClothingStats(items: seq<ClothingItem>) returns (s: Stats)
    ensures s.total == |items|
    ensures s.byCategory == TallyOf(FieldValues(items, CategoryField)) && Total(s.byCategory) == s.total
    ensures s.byColor == TallyOf(FieldValues(items, ColorField)) && Total(s.byColor) == s.total
    ensures s.bySeason == TallyOf(SeasonEntries(items)) && Total(s.bySeason) == |SeasonEntries(items)|
  {
    var byCategory := CountBy(items, CategoryField);
    var bySeason := CountSeasons(items);
    var byColor := CountBy(items, ColorField);
    s := Stats(|items|, byCategory, bySeason, byColor);
  }

  // ---------------------------------------------------------------------------
  // useClothingFilters

  datatype ItemFilters = ItemFilters(category: string, size: string, color: string, season: string, searchText: string)

  const ClearedItemFilters: ItemFilters := ItemFilters("", "", "", "", "")

  /** Name, brand or description contains the lower-cased search text. */
  function MatchesSearch(item: ClothingItem, searchText: string): (m: bool)
    ensures searchText == "" ==> m
    ensures m ==> |searchText| <= |item.name| || |searchText| <= |item.brand|
                  || (item.description.Some? && |searchText| <= |item.description.value|)
  {
    ContainsEmpty(Lower(item.name));
    ContainsLength(Lower(item.name), Lower(searchText));
    ContainsLength(Lower(item.brand), Lower(searchText));
    ContainsLength(Lower(if item.description.Some? then item.description.value else ""), Lower(searchText));
    Contains(Lower(item.name), Lower(searchText))
    || Contains(Lower(item.brand), Lower(searchText))
    || (item.description.Some? && Contains(Lower(item.description.value), Lower(searchText)))
  }

  /** The filter callback of `filteredItems`; an empty filter field accepts
      everything. */
  function KeepItem(item: ClothingItem, f: ItemFilters): (keep: bool)
    ensures f == ClearedItemFilters ==> keep
    ensures keep && f.category != "" ==> item.category == f.category
    ensures keep && f.season != "" ==> f.season in item.season
    ensures keep ==> |f.searchText| <= |item.name| || |f.searchText| <= |item.brand|
                     || (item.description.Some? && |f.searchText| <= |item.description.value|)
  {
    (f.category == "" || item.category == f.category)
    && (f.size == "" || item.size == f.size)
    && (f.color == "" || item.color == f.color)
    && (f.season == "" || f.season in item.season)
    && (f.searchText == "" || MatchesSearch(item, f.searchText))
  }

  function ItemKeeper(f: ItemFilters): ClothingItem -> bool
  {
    (item: ClothingItem) => KeepItem(item, f)
  }

  /** `filteredItems` */
  function FilteredItems(items: seq<ClothingItem>, f: ItemFilters): seq<ClothingItem>
  {
    Filter(items, ItemKeeper(f))
  }

  /** The filter keeps exactly the matching items, and the cleared filters
      keep every item in order. */
  lemma FilteredItemsMeaning(items: seq<ClothingItem>, f: ItemFilters)
    ensures forall x :: x in FilteredItems(items, f) <==> x in items && KeepItem(x, f)
    ensures |FilteredItems(items, f)| <= |items|
    ensures FilteredItems(items, ClearedItemFilters) == items
  {
    FilterAll(items, ItemKeeper(ClearedItemFilters));
  }

  /** Adding a search text only narrows the result. */
  lemma SearchNarrows(items: seq<ClothingItem>, f: ItemFilters, searchText: string)
    requires f.searchText == ""
    ensures forall x :: x in FilteredItems(items, f.(searchText := searchText)) ==>
              x in FilteredItems(items, f) && (searchText == "" || MatchesSearch(x, searchText))
  {
  }

  /** The `useClothingFilters` hook's state. */
  class ClothingFilters {
    var filters: ItemFilters

    constructor ()
      ensures filters == ClearedItemFilters
    {
      filters := ClearedItemFilters;
    }

    /** `updateFilter(key, value)`: a key other than the five filter fields
        adds an entry the filter never reads. */
    method UpdateFilter(key: string, value: string)
      modifies this
      ensures key == "category" ==> filters == old(filters).(category := value)
      ensures key == "size" ==> filters == old(filters).(size := value)
      ensures key == "color" ==> filters == old(filters).(color := value)
      ensures key == "season" ==> filters == old(filters).(season := value)
      ensures key == "searchText" ==> filters == old(filters).(searchText := value)
      ensures key !in {"category", "size", "color", "season", "searchText"} ==> filters == old(filters)
    {
      if key == "category" {
        filters := filters.(category := value);
      } else if key == "size" {
        filters := filters.(size := value);
      } else if key == "color" {
        filters := filters.(color := value);
      } else if key == "season" {
        filters := filters.(season := value);
      } else if key == "searchText" {
        filters := filters.(searchText := value);
      }
    }

    /** `clearFilters` */
    method ClearFilters()
      modifies this
      ensures filters == ClearedItemFilters
    {
      filters := ClearedItemFilters;
    }
  }

  // ---------------------------------------------------------------------------
  // The controller

  class ClothingController {
    var items: seq<ClothingItem>
    var categories: seq<ClothingCategory>
    var loading: bool
    var error: Option<string>
    var selectedItem: Option<ClothingItem>

    constructor ()
      ensures items == [] && categories == [] && !loading && error == None && selectedItem == None
    {
      items := [];
      categories := [];
      loading := false;
      error := None;
      selectedItem := None;
    }

    /** `handleError` */
    method HandleError(thrown: Thrown, operation: string)
      modifies this
      ensures error == Some(ErrorMessage(thrown, Fallback(operation))) && !loading
      ensures items == old(items) && categories == old(categories) && selectedItem == old(selectedItem)
    {
      error := Some(ErrorMessage(thrown, Fallback(operation)));
      loading := false;
    }

    /** `loadItems`, `loadItemsWithValidation` (`operation` "アイテム読み込み")
        and `getUserClothing` ("ユーザーアイテム読み込み"): the list is
        replaced on success. */
    method LoadItems(operation: string, outcome: Call<seq<ClothingItem>>)
      modifies this
      ensures !loading
      ensures outcome.Resolved? ==> items == outcome.value && error == None
      ensures outcome.Rejected? ==>
                items == old(items) && error == Some(ErrorMessage(outcome.thrown, Fallback(operation)))
      ensures categories == old(categories) && selectedItem == old(selectedItem)
    {
      loading := true;
      error := None;
      if outcome.Resolved? {
        items := outcome.value;
      } else {
        HandleError(outcome.thrown, operation);
      }
      loading := false;
    }

    /** `loadCategories`: the category table is computed locally and
        cannot fail. */
    method LoadCategories(table: seq<ClothingCategory>)
      modifies this
      ensures categories == table && error == None && !loading
      ensures items == old(items) && selectedItem == old(selectedItem)
    {
      loading := true;
      error := None;
      categories := table;
      loading := false;
    }

    /** `addItem` and `addItemWithValidation`: the new item goes last. */
    method AddItem(outcome: Call<ClothingItem>)
      modifies this
      ensures !loading
      ensures outcome.Resolved? ==> items == old(items) + [outcome.value] && error == None
      ensures outcome.Rejected? ==>
                items == old(items) && error == Some(ErrorMessage(outcome.thrown, Fallback("アイテム追加")))
      ensures categories == old(categories) && selectedItem == old(selectedItem)
    {
      loading := true;
      error := None;
      if outcome.Resolved? {
        items := items + [outcome.value];
      } else {
        HandleError(outcome.thrown, "アイテム追加");
      }
      loading := false;
    }

    /** `updateItem`: every item with the ID is replaced, and so is the
        selection iff it has the ID. */
    method UpdateItem(id: string, outcome: Call<ClothingItem>)
      modifies this
      ensures !loading
      ensures outcome.Resolved? ==>
                items == ReplaceItem(old(items), id, outcome.value) && error == None
                && selectedItem == (if old(selectedItem).Some? && old(selectedItem).value.id == id
                                    then Some(outcome.value) else old(selectedItem))
      ensures outcome.Rejected? ==>
                items == old(items) && selectedItem == old(selectedItem)
                && error == Some(ErrorMessage(outcome.thrown, Fallback("アイテム更新")))
      ensures categories == old(categories)
    {
      loading := true;
      error := None;
      if outcome.Resolved? {
        items := ReplaceItem(items, id, outcome.value);
        if selectedItem.Some? && selectedItem.value.id == id {
          selectedItem := Some(outcome.value);
        }
      } else {
        HandleError(outcome.thrown, "アイテム更新");
      }
      loading := false;
    }

    /** `updateItemWithValidation`: as `updateItem`, but the selection is
        left alone. */
    method UpdateItemWithValidation(id: string, outcome: Call<ClothingItem>)
      modifies this
      ensures !loading
      ensures outcome.Resolved? ==> items == ReplaceItem(old(items), id, outcome.value) && error == None
      ensures outcome.Rejected? ==>
                items == old(items) && error == Some(ErrorMessage(outcome.thrown, Fallback("アイテム更新")))
      ensures categories == old(categories) && selectedItem == old(selectedItem)
    {
      loading := true;
      error := None;
      if outcome.Resolved? {
        items := ReplaceItem(items, id, outcome.value);
      } else {
        HandleError(outcome.thrown, "アイテム更新");
      }
      loading := false;
    }

    /** `deleteItem`: every item with the ID leaves the list, and a matching
        selection is cleared. */
    method DeleteItem(id: string, outcome: Call<()>)
      modifies this
      ensures !loading
      ensures outcome.Resolved? ==>
                items == RemoveItem(old(items), id) && error == None
                && selectedItem == (if old(selectedItem).Some? && old(selectedItem).value.id == id
                                    then None else old(selectedItem))
      ensures outcome.Rejected? ==>
                items == old(items) && selectedItem == old(selectedItem)
                && error == Some(ErrorMessage(outcome.thrown, Fallback("アイテム削除")))
      ensures categories == old(categories)
    {
      loading := true;
      error := None;
      if outcome.Resolved? {
        items := RemoveItem(items, id);
        if selectedItem.Some? && selectedItem.value.id == id {
          selectedItem := None;
        }
      } else {
        HandleError(outcome.thrown, "アイテム削除");
      }
      loading := false;
    }

    method SelectItem(item: Option<ClothingItem>)
      modifies this
      ensures selectedItem == item
      ensures items == old(items) && categories == old(categories) && loading == old(loading) && error == old(error)
    {
      selectedItem := item;
    }

    method ClearError()
      modifies this
      ensures error == None
      ensures items == old(items) && categories == old(categories) && loading == old(loading)
      ensures selectedItem == old(selectedItem)
    {
      error := None;
    }

    /** `getClothingStats`: the count and the per-category counts, which sum
        to it. */
    method GetClothingStats() returns (total: nat, byCategory: Tally)
      ensures total == |items|
      ensures byCategory == TallyOf(FieldValues(items, CategoryField)) && Total(byCategory) == total
      ensures forall k :: CountOf(byCategory, k) == multiset(FieldValues(items, CategoryField))[k]
    {
      total := |items|;
      byCategory := CountBy(items, CategoryField);
    }
  }

  /** Adding then deleting an item with a fresh ID gives the list back. */
  lemma AddThenDelete(items: seq<ClothingItem>, x: ClothingItem)
    requires forall y :: y in items ==> y.id != x.id
    ensures RemoveItem(items + [x], x.id) == items
  {
    FilterAppend(items, [x], WithoutItem(x.id));
    RemoveItemMeaning(items, x.id);
  }
}
