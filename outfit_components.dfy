/// The rules inside the outfit views: the like button of `OutfitPostCard`
/// (its weather icon is `WeatherComponents.WeatherIcon`),
/// the payload of `OutfitPostForm`, the category groups and selection of
/// `OutfitBuilder`, and its weather hints.
module OutfitComponents {
  import opened Common
  import opened Text
  import opened Lists
  import opened WebTypes
  import opened ClothingLists

  // ---------------------------------------------------------------------------
  // OutfitPostCard

  /** Which callback a click on the like button calls. */
  datatype LikeAction = CallLike | CallUnlike

  /** The card's local `liked` flag. */
  class LikeButton {
    var liked: bool

    constructor ()
      ensures !liked
    {
      liked := false;
    }

    /** `handleLikeClick`: unlike when liked, like otherwise, then flip. */
    method Click() returns (action: LikeAction)
      modifies this
      ensures action == (if old(liked) then CallUnlike else CallLike)
      ensures liked == !old(liked)
    {
      if liked {
        action := CallUnlike;
        liked := false;
      } else {
        action := CallLike;
        liked := true;
      }
    }
  }

  /** The n-th click (from 0) of a fresh card likes iff n is even. */
  function ClickActions(n: nat): (r: seq<LikeAction>)
    ensures |r| == n
    ensures forall i :: 0 <= i < n ==> r[i] == (if i % 2 == 0 then CallLike else CallUnlike)
  {
    seq(n, i requires 0 <= i < n => if i % 2 == 0 then CallLike else CallUnlike)
  }

  /** Clicking a fresh card `n` times calls like and unlike alternately,
      starting with like. */
  method ClickTimes(n: nat) returns (actions: seq<LikeAction>)
    ensures actions == ClickActions(n)
  {
    var button := new LikeButton();
    actions := [];
    for k := 0 to n
      invariant actions == ClickActions(k)
      invariant button.liked <==> k % 2 == 1
    {
      var a := button.Click();
      actions := actions + [a];
    }
  }

  // ---------------------------------------------------------------------------
  // OutfitPostForm

  /** The form's initial temperature: `weather?.temperature || 20`, so a
      missing weather or a reading of exactly 0 gives 20. */
  function InitialTemperature(weather: Option<WeatherCondition>): (t: real)
    ensures weather.None? ==> t == 20.0
    ensures weather.Some? && weather.value.temperature != 0.0 ==> t == weather.value.temperature
    ensures weather.Some? && weather.value.temperature == 0.0 ==> t == 20.0
  {
    if weather.Some? && weather.value.temperature != 0.0 then weather.value.temperature else 20.0
  }

  function TrimAll(pieces: seq<string>): seq<string>
  {
    seq(|pieces|, i requires 0 <= i < |pieces| => Trim(pieces[i]))
  }

  function NonEmpty(tag: string): bool
  {
    tag != ""
  }

  /** `tags.split(",").map(t => t.trim()).filter(t => t)` */
  function ParseTags(text: string): (r: seq<string>)
    ensures |r| <= CountChar(text, ',') + 1
    ensures forall t :: t in r ==> t != "" && ',' !in t
  {
    TrimAllNoComma(Split(text, ','));
    Filter(TrimAll(Split(text, ',')), NonEmpty)
  }

  /** Trimming comma-free pieces leaves them comma-free. */
  lemma TrimAllNoComma(pieces: seq<string>)
    requires forall i :: 0 <= i < |pieces| ==> ',' !in pieces[i]
    ensures forall t :: t in TrimAll(pieces) ==> ',' !in t
  {
    forall t | t in TrimAll(pieces) ensures ',' !in t {
      var i :| 0 <= i < |pieces| && TrimAll(pieces)[i] == t;
      if ',' in t {
        TrimWithin(pieces[i], ',');
      }
    }
  }

  /** Each parsed tag is non-empty, has no comma and no whitespace at
      either end, and there are no more tags than comma pieces. */
  lemma ParseTagsShape(text: string)
    ensures |ParseTags(text)| <= |Split(text, ',')|
    ensures forall t :: t in ParseTags(text) ==>
              t != "" && ',' !in t && !IsWhitespace(t[0]) && !IsWhitespace(t[|t| - 1])
  {
    var pieces := Split(text, ',');
    var trimmed := TrimAll(pieces);
    forall t | t in ParseTags(text)
      ensures !IsWhitespace(t[0]) && !IsWhitespace(t[|t| - 1])
    {
      assert t in trimmed && t != "";
      TrimAllMembers(pieces, t);
      var i :| 0 <= i < |pieces| && t == Trim(pieces[i]);
    }
  }

  /** The trimmed pieces are exactly the pieces' trims. */
  lemma TrimAllMembers(pieces: seq<string>, t: string)
    ensures t in TrimAll(pieces) <==> exists i :: 0 <= i < |pieces| && t == Trim(pieces[i])
  {
    var trimmed := TrimAll(pieces);
    if t in trimmed {
      var i :| 0 <= i < |trimmed| && trimmed[i] == t;
    }
    if exists i :: 0 <= i < |pieces| && t == Trim(pieces[i]) {
      var i :| 0 <= i < |pieces| && t == Trim(pieces[i]);
      assert trimmed[i] == t;
    }
  }

  /** The tags are exactly the non-empty trimmed comma pieces. */
  lemma ParseTagsMembers(text: string, t: string)
    ensures t in ParseTags(text) <==>
              t != "" && exists i :: 0 <= i < |Split(text, ',')| && t == Trim(Split(text, ',')[i])
  {
    ParseTagsKeepsNonEmpty(text, t);
    TrimAllMembers(Split(text, ','), t);
  }

  lemma ParseTagsKeepsNonEmpty(text: string, t: string)
    ensures t in ParseTags(text) <==> t != "" && t in TrimAll(Split(text, ','))
  {
  }

  /** The fields of the submitted post that the form fills in. */
  datatype PostSubmission = PostSubmission(
    userId: string,
    description: string,
    tags: seq<string>,
    temperature: real,
    likes: int,
    clothingItems: seq<string>)

  function ItemIds(items: seq<ClothingItem>): (r: seq<string>)
    ensures |r| == |items|
    ensures forall i :: 0 <= i < |items| ==> r[i] == items[i].id
  {
    seq(|items|, i requires 0 <= i < |items| => items[i].id)
  }

  /** `handleSubmit`'s payload: user "1", no likes, the parsed tags, and
      the selected items' IDs in selection order. */
  function Submission(description: string, tags: string, temperature: real, selectedItems: seq<ClothingItem>): (p: PostSubmission)
    ensures p.userId == "1" && p.likes == 0 && p.description == description && p.temperature == temperature
    ensures |p.clothingItems| == |selectedItems|
    ensures forall i :: 0 <= i < |selectedItems| ==> p.clothingItems[i] == selectedItems[i].id
    ensures p.tags == ParseTags(tags)
  {
    PostSubmission("1", description, ParseTags(tags), temperature, 0, ItemIds(selectedItems))
  }

  // ---------------------------------------------------------------------------
  // OutfitBuilder: category groups

  /** The builder's five group keys, in display order. */
  const GroupKeys: seq<string> := ["tops", "bottoms", "shoes", "outerwear", "accessories"]
  const GroupKeySet: set<string> := {"tops", "bottoms", "shoes", "outerwear", "accessories"}

  /** The `switch` of `getItemsByCategory`: which categories a group holds. */
  predicate InGroup(key: string, category: string)
  {
    if key == "tops" then category in {"tops", "shirts"}
    else if key == "bottoms" then category in {"bottoms", "pants", "skirts"}
    else if key == "shoes" then category == "shoes"
    else if key == "outerwear" then category in {"outerwear", "jackets"}
    else if key == "accessories" then category in {"accessories", "hats", "bags"}
    else false
  }

  function GroupKeeper(key: string): ClothingItem -> bool
  {
    (item: ClothingItem) => InGroup(key, item.category)
  }

  /** `getItemsByCategory` */
  function ItemsByCategory(items: seq<ClothingItem>, key: string): seq<ClothingItem>
  {
    Filter(items, GroupKeeper(key))
  }

  /** The groups are disjoint, and an unknown key selects nothing. */
  lemma GroupsPartition(items: seq<ClothingItem>, k1: string, k2: string, category: string)
    ensures k1 != k2 ==> !(InGroup(k1, category) && InGroup(k2, category))
    ensures InGroup(k1, category) ==> k1 in GroupKeys
    ensures k1 !in GroupKeys ==> ItemsByCategory(items, k1) == []
    ensures forall x :: x in ItemsByCategory(items, k1) <==> x in items && InGroup(k1, x.category)
  {
    var r := ItemsByCategory(items, k1);
    assert r != [] ==> r[0] in r;
  }

  /** Some item of `items` with this ID falls in the group: the test
      `getItemsByCategory(key).some(i => i.id === id)`. */
  predicate HasInGroup(items: seq<ClothingItem>, id: string, key: string)
  {
    exists x :: x in items && x.id == id && InGroup(key, x.category)
  }

  /** The first group (in display order) that holds an item of `items` with
      this ID: `categories.find(...)` in `handleItemSelect`. */
  function GroupOf(items: seq<ClothingItem>, id: string): (g: Option<string>)
    ensures g.Some? ==> g.value in GroupKeys && HasInGroup(items, id, g.value)
    ensures g.None? <==> forall k :: k in GroupKeys ==> !HasInGroup(items, id, k)
  {
    if HasInGroup(items, id, "tops") then Some("tops")
    else if HasInGroup(items, id, "bottoms") then Some("bottoms")
    else if HasInGroup(items, id, "shoes") then Some("shoes")
    else if HasInGroup(items, id, "outerwear") then Some("outerwear")
    else if HasInGroup(items, id, "accessories") then Some("accessories")
    else None
  }

  /** The selected items outside group `key`. */
  function OutsideGroup(items: seq<ClothingItem>, key: string): ClothingItem -> bool
  {
    (selected: ClothingItem) => GroupOf(items, selected.id) != Some(key)
  }

  /** Every selected item has a group and no two share one. */
  predicate OnePerGroup(items: seq<ClothingItem>, selected: seq<ClothingItem>)
  {
    (forall i :: 0 <= i < |selected| ==> GroupOf(items, selected[i].id).Some?)
    && forall i, j :: 0 <= i < j < |selected| ==> GroupOf(items, selected[i].id) != GroupOf(items, selected[j].id)
  }

  /** Filtering keeps one item per group. */
  lemma FilterOnePerGroup(items: seq<ClothingItem>, s: seq<ClothingItem>, keep: ClothingItem -> bool)
    requires OnePerGroup(items, s)
    ensures OnePerGroup(items, Filter(s, keep))
  {
    var apart := (x: ClothingItem, y: ClothingItem) => GroupOf(items, x.id) != GroupOf(items, y.id);
    assert Pairwise(s, apart);
    FilterPairwise(s, keep, apart);
    var r := Filter(s, keep);
    forall i | 0 <= i < |r| ensures GroupOf(items, r[i].id).Some? {
      assert r[i] in s;
      var k :| 0 <= k < |s| && s[k] == r[i];
    }
  }

  /** After selecting an item, no earlier item is left in its group. */
  lemma SelectedApart(items: seq<ClothingItem>, selected: seq<ClothingItem>, item: ClothingItem)
    requires GroupOf(items, item.id).Some?
    ensures var kept := Filter(selected, OutsideGroup(items, GroupOf(items, item.id).value));
      forall i :: 0 <= i < |kept| ==> GroupOf(items, kept[i].id) != GroupOf(items, item.id)
  {
    var g := GroupOf(items, item.id);
    var kept := Filter(selected, OutsideGroup(items, g.value));
    forall i | 0 <= i < |kept| ensures GroupOf(items, kept[i].id) != g {
      assert kept[i] in kept;
    }
  }

  /** Selecting an item of a group drops the group's earlier item: the
      selection keeps one item per group, ends with the new item, and no
      other item shares its ID or its group. */
  lemma SelectOnePerGroup(items: seq<ClothingItem>, selected: seq<ClothingItem>, item: ClothingItem)
    requires OnePerGroup(items, selected) && GroupOf(items, item.id).Some?
    ensures var r := Filter(selected, OutsideGroup(items, GroupOf(items, item.id).value)) + [item];
      OnePerGroup(items, r)
      && r[|r| - 1] == item
      && forall i :: 0 <= i < |r| - 1 ==> r[i].id != item.id && GroupOf(items, r[i].id) != GroupOf(items, item.id)
  {
    var g := GroupOf(items, item.id);
    var kept := Filter(selected, OutsideGroup(items, g.value));
    FilterOnePerGroup(items, selected, OutsideGroup(items, g.value));
    SelectedApart(items, selected, item);
    var apart := (x: ClothingItem, y: ClothingItem) => GroupOf(items, x.id) != GroupOf(items, y.id);
    assert Pairwise(kept, apart);
    PairwiseAppend(kept, item, apart);
    var r := kept + [item];
    assert forall i :: 0 <= i < |r| - 1 ==> r[i] == kept[i];
  }

  /** The group keys as a set: five of them. */
  lemma GroupKeyCount()
    ensures forall k :: k in GroupKeys ==> k in GroupKeySet
    ensures |GroupKeySet| == 5
  {
  }

  /** A selection with one item per group has at most one item per group
      key, so at most five items. */
  lemma {:induction false} AtMostOnePerKey(items: seq<ClothingItem>, selected: seq<ClothingItem>, keys: set<string>)
    requires OnePerGroup(items, selected)
    requires forall i :: 0 <= i < |selected| ==> GroupOf(items, selected[i].id).value in keys
    ensures |selected| <= |keys|
    decreases |selected|
  {
    if selected != [] {
      var g := GroupOf(items, selected[0].id).value;
      var rest := selected[1..];
      assert OnePerGroup(items, rest) by {
        assert forall i :: 0 <= i < |rest| ==> rest[i] == selected[i + 1];
      }
      forall i | 0 <= i < |rest| ensures GroupOf(items, rest[i].id).value in keys - {g} {
        assert rest[i] == selected[i + 1];
      }
      AtMostOnePerKey(items, rest, keys - {g});
    }
  }

  /** The builder's selection. */
  class OutfitBuilderView {
    const items: seq<ClothingItem>
    var selectedItems: seq<ClothingItem>

    ghost predicate Valid()
      reads this
    {
      OnePerGroup(items, selectedItems)
    }

    constructor (items: seq<ClothingItem>)
      ensures this.items == items && selectedItems == [] && Valid()
    {
      this.items := items;
      selectedItems := [];
    }

    /** `handleItemSelect`: an item in no group is ignored; otherwise the
        selected item of its group (if any) gives way to it, and it goes
        last. Returns what `onOutfitChange` receives, if called. */
    method HandleItemSelect(item: ClothingItem) returns (changed: Option<seq<ClothingItem>>)
      requires Valid()
      modifies this
      ensures Valid()
      ensures GroupOf(items, item.id).None? ==> selectedItems == old(selectedItems) && changed == None
      ensures GroupOf(items, item.id).Some? ==>
                selectedItems == Filter(old(selectedItems), OutsideGroup(items, GroupOf(items, item.id).value)) + [item]
                && changed == Some(selectedItems)
      ensures GroupOf(items, item.id).Some? ==>
                selectedItems[|selectedItems| - 1] == item
                && forall i :: 0 <= i < |selectedItems| - 1 ==>
                     selectedItems[i].id != item.id && GroupOf(items, selectedItems[i].id) != GroupOf(items, item.id)
    {
      var group := GroupOf(items, item.id);
      if group.None? {
        return None;
      }
      SelectOnePerGroup(items, selectedItems, item);
      selectedItems := Filter(selectedItems, OutsideGroup(items, group.value)) + [item];
      changed := Some(selectedItems);
    }

    /** `handleItemRemove`: exactly the items with the ID leave. */
    method HandleItemRemove(itemId: string) returns (changed: seq<ClothingItem>)
      requires Valid()
      modifies this
      ensures Valid()
      ensures selectedItems == RemoveItem(old(selectedItems), itemId) && changed == selectedItems
    {
      FilterOnePerGroup(items, selectedItems, WithoutItem(itemId));
      selectedItems := RemoveItem(selectedItems, itemId);
      changed := selectedItems;
    }

    /** The selection never exceeds one item per group key. */
    method SelectionSize() returns (n: nat)
      requires Valid()
      ensures n == |selectedItems| && n <= |GroupKeys|
    {
      GroupKeyCount();
      AtMostOnePerKey(items, selectedItems, GroupKeySet);
      n := |selectedItems|;
    }
  }

  // ---------------------------------------------------------------------------
  // OutfitBuilder: weather hints

  datatype Hint = LightClothing | WarmOuterwear | RainGear | WindProof

  /** The bullet points under "天気に基づく推奨", in display order. */
  function WeatherHints(w: WeatherCondition): (r: seq<Hint>)
    ensures |r| <= 3
    ensures forall i, j :: 0 <= i < j < |r| ==> r[i] != r[j]
  {
    (if w.temperature > 25.0 then [LightClothing] else [])
    + (if w.temperature < 15.0 then [WarmOuterwear] else [])
    + (if Contains(w.condition, "rain") then [RainGear] else [])
    + (if w.windSpeed > 5.0 then [WindProof] else [])
  }

  /** Each hint shows iff its condition holds; light clothing and warm
      outerwear never show together, so there are at most three. */
  lemma WeatherHintsMeaning(w: WeatherCondition)
    ensures LightClothing in WeatherHints(w) <==> w.temperature > 25.0
    ensures WarmOuterwear in WeatherHints(w) <==> w.temperature < 15.0
    ensures RainGear in WeatherHints(w) <==> Contains(w.condition, "rain")
    ensures WindProof in WeatherHints(w) <==> w.windSpeed > 5.0
    ensures |WeatherHints(w)| <= 3
  {
  }
}
