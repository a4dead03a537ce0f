/// `FashionRecommendationService`: picks items from a user's clothing by
/// temperature band and weather rules, de-duplicates them by ID, and derives
/// a style, a per-item reason and a description sentence.
module FashionService {
  import opened Common
  import opened Text
  import CE = ClothingEntity
  import FE = FashionEntity

  // ---------------------------------------------------------------------------
  // The rule tables

  /** Categories chosen by the temperature band (exactly one band applies). */
  function TemperatureCategories(t: real): seq<string>
  {
    if t <= 0.0 then ["冬服", "防寒具"]
    else if t <= 10.0 then ["秋冬服", "ジャケット"]
    else if t <= 20.0 then ["春秋服", "カーディガン"]
    else if t <= 25.0 then ["春夏服"]
    else ["夏服", "Tシャツ"]
  }

  /** Categories added by the condition string. */
  function ConditionCategories(condition: string): seq<string>
  {
    if condition == "雨" then ["レインコート", "長靴"]
    else if condition == "雪" then ["スノーブーツ", "手袋"]
    else if condition == "晴れ" then ["サングラス", "帽子"]
    else []
  }

  /** Every category `RecommendClothing` asks for, in the order it asks. */
  function SelectedCategories(w: FE.WeatherData): seq<string>
  {
    TemperatureCategories(w.temperature) + ConditionCategories(w.condition)
    + (if w.windSpeed > 10.0 then ["ウインドブレーカー"] else [])
    + (if w.humidity > 70 then ["通気性"] else [])
  }

  /** The temperature bands partition the reals. */
  lemma TemperatureBands(t: real)
    ensures TemperatureCategories(t) == ["冬服", "防寒具"] <==> t <= 0.0
    ensures TemperatureCategories(t) == ["秋冬服", "ジャケット"] <==> 0.0 < t <= 10.0
    ensures TemperatureCategories(t) == ["春秋服", "カーディガン"] <==> 10.0 < t <= 20.0
    ensures TemperatureCategories(t) == ["春夏服"] <==> 20.0 < t <= 25.0
    ensures TemperatureCategories(t) == ["夏服", "Tシャツ"] <==> 25.0 < t
  {
  }

  /** Each condition adds its own pair of categories, and any other
      condition adds none. */
  lemma ConditionRules(condition: string)
    ensures ConditionCategories(condition) == ["レインコート", "長靴"] <==> condition == "雨"
    ensures ConditionCategories(condition) == ["スノーブーツ", "手袋"] <==> condition == "雪"
    ensures ConditionCategories(condition) == ["サングラス", "帽子"] <==> condition == "晴れ"
    ensures ConditionCategories(condition) == [] <==> condition !in {"雨", "雪", "晴れ"}
  {
  }

  /** Wind and humidity add their category exactly when they pass the limit. */
  lemma WindAndHumidityRules(w: FE.WeatherData)
    ensures SelectedCategories(w)[|SelectedCategories(w)| - 1] == "通気性" <==> w.humidity > 70
    ensures w.humidity <= 70 ==>
              (SelectedCategories(w)[|SelectedCategories(w)| - 1] == "ウインドブレーカー" <==> w.windSpeed > 10.0)
  {
  }

  // ---------------------------------------------------------------------------
  // Specification functions for the slice-building loops

  /** The items of `cs` whose category is `cat`, in input order. */
  function ByCategory(cs: seq<CE.Clothing>, cat: string): seq<CE.Clothing>
    decreases |cs|
  {
    if cs == [] then []
    else ByCategory(cs[..|cs| - 1], cat) + (if cs[|cs| - 1].category == cat then [cs[|cs| - 1]] else [])
  }

  /** `ByCategory` for each category in turn, concatenated. */
  function Gather(cs: seq<CE.Clothing>, cats: seq<string>): seq<CE.Clothing>
    decreases |cats|
  {
    if cats == [] then [] else ByCategory(cs, cats[0]) + Gather(cs, cats[1..])
  }

  /** `ByCategory` keeps exactly the items of the given category. */
  lemma {:induction false} ByCategoryMembers(cs: seq<CE.Clothing>, cat: string)
    ensures forall x :: x in ByCategory(cs, cat) <==> x in cs && x.category == cat
    decreases |cs|
  {
    if cs != [] {
      ByCategoryMembers(cs[..|cs| - 1], cat);
      assert cs == cs[..|cs| - 1] + [cs[|cs| - 1]];
    }
  }

  /** `Gather` keeps exactly the items whose category is listed. */
  lemma {:induction false} GatherMembers(cs: seq<CE.Clothing>, cats: seq<string>)
    ensures forall x :: x in Gather(cs, cats) <==> x in cs && x.category in cats
    decreases |cats|
  {
    if cats != [] {
      ByCategoryMembers(cs, cats[0]);
      GatherMembers(cs, cats[1..]);
      assert cats == [cats[0]] + cats[1..];
    }
  }

  /** The IDs occurring in a list. */
  function Ids(cs: seq<CE.Clothing>): set<int>
  {
    set x | x in cs :: x.id
  }

  /** `removeDuplicates`, as a function of its input: an item is kept iff no
      earlier item had its ID. */
  function Dedup(cs: seq<CE.Clothing>): (r: seq<CE.Clothing>)
    ensures forall x :: x in r ==> x in cs
    ensures Ids(r) == Ids(cs)
    decreases |cs|
  {
    if cs == [] then []
    else
      var p := cs[..|cs| - 1];
      var last := cs[|cs| - 1];
      var d := Dedup(p);
      assert cs == p + [last];
      assert Ids(cs) == Ids(p) + {last.id};
      if last.id in Ids(d) then d
      else
        assert Ids(d + [last]) == Ids(d) + {last.id};
        d + [last]
  }

  /** No two items that `Dedup` keeps share an ID. */
  lemma {:induction false} DedupDistinct(cs: seq<CE.Clothing>)
    ensures forall i, j :: 0 <= i < j < |Dedup(cs)| ==> Dedup(cs)[i].id != Dedup(cs)[j].id
    decreases |cs|
  {
    if cs != [] {
      DedupDistinct(cs[..|cs| - 1]);
    }
  }

  /** Index of the first item with the given ID (|cs| when there is none). */
  function FirstIndexOf(cs: seq<CE.Clothing>, id: int): (k: nat)
    ensures k <= |cs|
    ensures k < |cs| ==> cs[k].id == id
    ensures forall i :: 0 <= i < k ==> cs[i].id != id
    decreases |cs|
  {
    if cs == [] then 0 else if cs[0].id == id then 0 else 1 + FirstIndexOf(cs[1..], id)
  }

  /** In a list extended at the end, an ID that was already present keeps its
      first index. */
  lemma FirstIndexExtend(p: seq<CE.Clothing>, y: CE.Clothing, id: int)
    requires FirstIndexOf(p, id) < |p|
    ensures FirstIndexOf(p + [y], id) == FirstIndexOf(p, id)
  {
    var k := FirstIndexOf(p, id);
    var q := p + [y];
    FirstIndexUnique(q, id, k);
  }

  /** The first index is the index of an occurrence with no earlier one. */
  lemma {:induction false} FirstIndexUnique(cs: seq<CE.Clothing>, id: int, k: nat)
    requires k < |cs| && cs[k].id == id
    requires forall i :: 0 <= i < k ==> cs[i].id != id
    ensures FirstIndexOf(cs, id) == k
    decreases k
  {
    if k > 0 {
      FirstIndexUnique(cs[1..], id, k - 1);
    }
  }

  /** Every item `Dedup` keeps is the first occurrence of its ID in the
      input. */
  lemma {:induction false} DedupKeepsFirst(cs: seq<CE.Clothing>)
    ensures forall i :: 0 <= i < |Dedup(cs)| ==>
              FirstIndexOf(cs, Dedup(cs)[i].id) < |cs| && cs[FirstIndexOf(cs, Dedup(cs)[i].id)] == Dedup(cs)[i]
    decreases |cs|
  {
    if cs != [] {
      var p := cs[..|cs| - 1];
      var last := cs[|cs| - 1];
      assert cs == p + [last];
      DedupKeepsFirst(p);
      var d := Dedup(p);
      forall i | 0 <= i < |d|
        ensures FirstIndexOf(cs, d[i].id) == FirstIndexOf(p, d[i].id)
        ensures cs[FirstIndexOf(cs, d[i].id)] == d[i]
      {
        FirstIndexExtend(p, last, d[i].id);
      }
      if last.id !in Ids(d) {
        LastIsFirst(p, last, d);
      }
    }
  }

  /** An item whose ID the earlier part does not hold is the first
      occurrence of its ID. */
  lemma LastIsFirst(p: seq<CE.Clothing>, last: CE.Clothing, d: seq<CE.Clothing>)
    requires Ids(d) == Ids(p) && last.id !in Ids(d)
    ensures FirstIndexOf(p + [last], last.id) == |p|
  {
    forall i | 0 <= i < |p|
      ensures p[i].id != last.id
    {
      assert p[i] in p;
    }
    FirstIndexUnique(p + [last], last.id, |p|);
  }

  /** The items `Dedup` keeps are in the order of their IDs' first
      occurrences. */
  lemma {:induction false} DedupInFirstOrder(cs: seq<CE.Clothing>)
    ensures forall i, j :: 0 <= i < j < |Dedup(cs)| ==>
              FirstIndexOf(cs, Dedup(cs)[i].id) < FirstIndexOf(cs, Dedup(cs)[j].id)
    decreases |cs|
  {
    if cs != [] {
      var p := cs[..|cs| - 1];
      var last := cs[|cs| - 1];
      assert cs == p + [last];
      DedupInFirstOrder(p);
      DedupKeepsFirst(p);
      var d := Dedup(p);
      forall i | 0 <= i < |d|
        ensures FirstIndexOf(cs, d[i].id) == FirstIndexOf(p, d[i].id) < |p|
      {
        FirstIndexExtend(p, last, d[i].id);
      }
      if last.id !in Ids(d) {
        LastIsFirst(p, last, d);
        assert Dedup(cs) == d + [last];
      }
    }
  }

  // ---------------------------------------------------------------------------
  // The service operations

  /** `getClothingByCategory` */
  method GetClothingByCategory(clothing: seq<CE.Clothing>, category: string) returns (filtered: seq<CE.Clothing>)
    ensures filtered == ByCategory(clothing, category)
  {
    filtered := [];
    var i := 0;
    while i < |clothing|
      invariant 0 <= i <= |clothing|
      invariant filtered == ByCategory(clothing[..i], category)
    {
      assert clothing[..i + 1][..i] == clothing[..i];
      if clothing[i].category == category {
        filtered := filtered + [clothing[i]];
      }
      i := i + 1;
    }
    assert clothing[..i] == clothing;
  }

  /** `removeDuplicates`, with its `seen` map as a set of IDs. */
  method RemoveDuplicates(clothing: seq<CE.Clothing>) returns (unique: seq<CE.Clothing>)
    ensures unique == Dedup(clothing)
  {
    var seen: set<int> := {};
    unique := [];
    var i := 0;
    while i < |clothing|
      invariant 0 <= i <= |clothing|
      invariant unique == Dedup(clothing[..i])
      invariant seen == Ids(unique)
    {
      assert clothing[..i + 1][..i] == clothing[..i];
      if clothing[i].id !in seen {
        seen := seen + {clothing[i].id};
        unique := unique + [clothing[i]];
      }
      i := i + 1;
    }
    assert clothing[..i] == clothing;
  }

  /** What `RecommendClothing` returns. */
  function Recommend(weather: FE.WeatherData, userClothing: seq<CE.Clothing>): seq<CE.Clothing>
  {
    Dedup(Gather(userClothing, SelectedCategories(weather)))
  }

  /** The recommendation holds exactly one item for each ID among the items
      of the selected categories, each taken from the user's clothing. */
  lemma RecommendProperties(weather: FE.WeatherData, userClothing: seq<CE.Clothing>)
    ensures forall x :: x in Recommend(weather, userClothing) ==>
              x in userClothing && x.category in SelectedCategories(weather)
    ensures forall x :: x in userClothing && x.category in SelectedCategories(weather) ==>
              x.id in Ids(Recommend(weather, userClothing))
    ensures forall i, j :: 0 <= i < j < |Recommend(weather, userClothing)| ==>
              Recommend(weather, userClothing)[i].id != Recommend(weather, userClothing)[j].id
  {
    var g := Gather(userClothing, SelectedCategories(weather));
    GatherMembers(userClothing, SelectedCategories(weather));
    DedupDistinct(g);
    forall x | x in userClothing && x.category in SelectedCategories(weather)
      ensures x.id in Ids(Recommend(weather, userClothing))
    {
      assert x in g;
      assert x.id in Ids(g);
    }
  }

  /** `Gather` over a list of one or two categories. */
  lemma GatherPair(cs: seq<CE.Clothing>, a: string, b: string)
    ensures Gather(cs, [a]) == ByCategory(cs, a)
    ensures Gather(cs, [a, b]) == ByCategory(cs, a) + ByCategory(cs, b)
  {
    assert [a][1..] == [];
    assert [a, b][1..] == [b];
    assert [b][1..] == [];
  }

  /** `Gather` distributes over concatenation of the category list. */
  lemma {:induction false} GatherSplit(cs: seq<CE.Clothing>, a: seq<string>, b: seq<string>)
    ensures Gather(cs, a + b) == Gather(cs, a) + Gather(cs, b)
    decreases |a|
  {
    if a == [] {
      assert a + b == b;
    } else {
      assert (a + b)[1..] == a[1..] + b;
      GatherSplit(cs, a[1..], b);
    }
  }

  /** The temperature switch of `RecommendClothing`. */
  method TemperatureItems(weather: FE.WeatherData, userClothing: seq<CE.Clothing>) returns (items: seq<CE.Clothing>)
    ensures items == Gather(userClothing, TemperatureCategories(weather.temperature))
  {
    var part: seq<CE.Clothing>;
    var part2: seq<CE.Clothing> := [];
    if weather.temperature <= 0.0 {
      part := GetClothingByCategory(userClothing, "冬服");
      part2 := GetClothingByCategory(userClothing, "防寒具");
    } else if weather.temperature <= 10.0 {
      part := GetClothingByCategory(userClothing, "秋冬服");
      part2 := GetClothingByCategory(userClothing, "ジャケット");
    } else if weather.temperature <= 20.0 {
      part := GetClothingByCategory(userClothing, "春秋服");
      part2 := GetClothingByCategory(userClothing, "カーディガン");
    } else if weather.temperature <= 25.0 {
      part := GetClothingByCategory(userClothing, "春夏服");
    } else {
      part := GetClothingByCategory(userClothing, "夏服");
      part2 := GetClothingByCategory(userClothing, "Tシャツ");
    }
    items := part + part2;
    ghost var cats := TemperatureCategories(weather.temperature);
    GatherPair(userClothing, cats[0], cats[|cats| - 1]);
  }

  /** The condition switch of `RecommendClothing`. */
  method ConditionItems(weather: FE.WeatherData, userClothing: seq<CE.Clothing>) returns (items: seq<CE.Clothing>)
    ensures items == Gather(userClothing, ConditionCategories(weather.condition))
  {
    var part: seq<CE.Clothing>;
    var part2: seq<CE.Clothing>;
    items := [];
    if weather.condition == "雨" {
      part := GetClothingByCategory(userClothing, "レインコート");
      part2 := GetClothingByCategory(userClothing, "長靴");
      items := part + part2;
    } else if weather.condition == "雪" {
      part := GetClothingByCategory(userClothing, "スノーブーツ");
      part2 := GetClothingByCategory(userClothing, "手袋");
      items := part + part2;
    } else if weather.condition == "晴れ" {
      part := GetClothingByCategory(userClothing, "サングラス");
      part2 := GetClothingByCategory(userClothing, "帽子");
      items := part + part2;
    }
    ghost var cats := ConditionCategories(weather.condition);
    if cats != [] {
      GatherPair(userClothing, cats[0], cats[1]);
    }
  }

  /** `RecommendClothing`: the temperature items, the condition items, the
      wind and humidity items, de-duplicated by ID. */
  method RecommendClothing(weather: FE.WeatherData, userClothing: seq<CE.Clothing>) returns (r: seq<CE.Clothing>)
    ensures r == Recommend(weather, userClothing)
  {
    var recommendations: seq<CE.Clothing> := [];
    var part := TemperatureItems(weather, userClothing);
    recommendations := recommendations + part;
    part := ConditionItems(weather, userClothing);
    recommendations := recommendations + part;
    GatherSplit(userClothing, TemperatureCategories(weather.temperature), ConditionCategories(weather.condition));
    ghost var cats := TemperatureCategories(weather.temperature) + ConditionCategories(weather.condition);
    assert recommendations == Gather(userClothing, cats);

    ghost var more: seq<string> := [];
    if weather.windSpeed > 10.0 {
      part := GetClothingByCategory(userClothing, "ウインドブレーカー");
      recommendations := recommendations + part;
      more := ["ウインドブレーカー"];
      GatherPair(userClothing, more[0], more[0]);
    }
    GatherSplit(userClothing, cats, more);
    cats := cats + more;
    assert recommendations == Gather(userClothing, cats);

    more := [];
    if weather.humidity > 70 {
      part := GetClothingByCategory(userClothing, "通気性");
      recommendations := recommendations + part;
      more := ["通気性"];
      GatherPair(userClothing, more[0], more[0]);
    }
    GatherSplit(userClothing, cats, more);
    cats := cats + more;
    assert recommendations == Gather(userClothing, cats);
    assert cats == SelectedCategories(weather);

    r := RemoveDuplicates(recommendations);
  }

  /** `generateDescription`: the base sentence, then at most one temperature
      sentence, then the rain sentence when the condition is 雨. The
      clothing argument of the original is unused and not modelled. */
  function GenerateDescription(w: FE.WeatherData): (d: string)
    ensures StartsWith(d, BaseSentence)
    ensures w.condition == "雨" ==> EndsWith(d, RainSentence)
    ensures 10.0 < w.temperature < 25.0 && w.condition != "雨" ==> d == BaseSentence
  {
    BaseSentence
    + (if w.temperature <= 10.0 then ColdSentence
       else if w.temperature >= 25.0 then HotSentence
       else "")
    + (if w.condition == "雨" then RainSentence else "")
  }

  const BaseSentence: string := "今日の天気に適したコーディネートです。"
  const ColdSentence: string := "寒いので暖かい服装をおすすめします。"
  const HotSentence: string := "暑いので涼しい服装をおすすめします。"
  const RainSentence: string := "雨対策も忘れずに。"

  /** `getReasonForRecommendation`: temperature first, then rain. The
      category argument of the original is unused and not modelled. */
  function ReasonFor(w: FE.WeatherCondition): (reason: string)
    ensures reason in {"寒い天気のため", "暑い天気のため", "雨天のため", "今日の天気に適しているため"}
    ensures w.temperature <= 10.0 || w.temperature >= 25.0 ==> reason != "雨天のため"
  {
    if w.temperature <= 10.0 then "寒い天気のため"
    else if w.temperature >= 25.0 then "暑い天気のため"
    else if w.condition == "雨" then "雨天のため"
    else "今日の天気に適しているため"
  }

  /** `determineStyle` */
  function DetermineStyle(w: FE.WeatherCondition): (style: string)
    ensures style == "warm" <==> w.temperature <= 10.0
    ensures style == "cool" <==> w.temperature >= 25.0
    ensures style == "casual" <==> 10.0 < w.temperature < 25.0
  {
    if w.temperature <= 10.0 then "warm" else if w.temperature >= 25.0 then "cool" else "casual"
  }

  /** The field copy `GenerateRecommendation` makes before recommending. */
  function ToWeatherData(w: FE.WeatherCondition): (d: FE.WeatherData)
    ensures d.temperature == w.temperature && d.condition == w.condition
    ensures d.humidity == w.humidity && d.windSpeed == w.windSpeed
    ensures d.location == w.location && d.dateTime == w.dateTime
  {
    FE.WeatherData(w.temperature, w.condition, w.humidity, w.windSpeed, w.location, w.dateTime)
  }

  /** The description always opens with the base sentence; after it comes the
      cold sentence exactly in the "warm" style band, the hot sentence
      exactly in the "cool" band, and the rain sentence last exactly when it
      rains. */
  lemma DescriptionAgreesWithStyle(w: FE.WeatherCondition)
    ensures StartsWith(GenerateDescription(ToWeatherData(w)), BaseSentence)
    ensures DetermineStyle(w) == "warm" <==>
            StartsWith(GenerateDescription(ToWeatherData(w))[|BaseSentence|..], ColdSentence)
    ensures DetermineStyle(w) == "cool" <==>
            StartsWith(GenerateDescription(ToWeatherData(w))[|BaseSentence|..], HotSentence)
    ensures w.condition == "雨" <==> EndsWith(GenerateDescription(ToWeatherData(w)), RainSentence)
  {
    var d := GenerateDescription(ToWeatherData(w));
    assert d[..|BaseSentence|] == BaseSentence;
    var t := if w.temperature <= 10.0 then ColdSentence else if w.temperature >= 25.0 then HotSentence else "";
    var rain := if w.condition == "雨" then RainSentence else "";
    assert d == BaseSentence + (t + rain);
    assert d[|BaseSentence|..] == t + rain;
    if t == ColdSentence {
      assert (t + rain)[..|ColdSentence|] == ColdSentence;
      assert (t + rain)[0] != HotSentence[0];
    } else if t == HotSentence {
      assert (t + rain)[..|HotSentence|] == HotSentence;
      assert (t + rain)[0] != ColdSentence[0];
    } else if rain == "" {
      assert |t + rain| == 0;
    } else {
      assert (t + rain)[0] != HotSentence[0] && (t + rain)[0] != ColdSentence[0];
    }
    if rain == RainSentence {
      assert d[|d| - |RainSentence|..] == RainSentence;
    } else {
      assert d[|d| - 2] != RainSentence[|RainSentence| - 2];
    }
  }

  /** The reason follows the same bands as the style, and names the rain only
      in the middle band. */
  lemma ReasonAgreesWithStyle(w: FE.WeatherCondition)
    ensures ReasonFor(w) == "寒い天気のため" <==> DetermineStyle(w) == "warm"
    ensures ReasonFor(w) == "暑い天気のため" <==> DetermineStyle(w) == "cool"
    ensures ReasonFor(w) == "雨天のため" <==> DetermineStyle(w) == "casual" && w.condition == "雨"
  {
  }

  /** The entity's style check accepts the service's own style only in the
      mild band: "warm" and "cool" are not among its constants. */
  lemma DeterminedStyleValidity(w: FE.WeatherCondition)
    ensures FE.IsValidStyle(DetermineStyle(w)) <==> 10.0 < w.temperature < 25.0
  {
    if w.temperature <= 10.0 {
      assert DetermineStyle(w)[0] == 'w';
    } else if w.temperature >= 25.0 {
      assert DetermineStyle(w)[1] == 'o';
    }
  }

  /** `GenerateOutfitSuggestion` */
  method GenerateOutfitSuggestion(weather: FE.WeatherData, userClothing: seq<CE.Clothing>)
    returns (outfit: FE.OutfitSuggestion)
    ensures outfit.weatherCondition == weather.condition && outfit.temperature == weather.temperature
    ensures outfit.clothingItems == Recommend(weather, userClothing)
    ensures outfit.description == GenerateDescription(weather)
  {
    var recommendations := RecommendClothing(weather, userClothing);
    outfit := FE.OutfitSuggestion(weather.condition, weather.temperature, recommendations,
                                  GenerateDescription(weather), 0);
  }

  /** The copy of a stored item that `GenerateRecommendation` hands to
      `RecommendClothing`: the ID is not copied and stays 0. */
  function Strip(item: CE.ClothingItem): (c: CE.Clothing)
    ensures c.id == 0
    ensures c.name == item.name && c.category == item.category && c.color == item.color
    ensures c.itemType == item.itemType
  {
    CE.Clothing(0, item.name, item.category, item.color, item.itemType)
  }

  /** The copies of all stored items. */
  function Stripped(userClothing: seq<CE.ClothingItem>): (cs: seq<CE.Clothing>)
    ensures |cs| == |userClothing|
    ensures forall k :: 0 <= k < |cs| ==> cs[k] == Strip(userClothing[k])
  {
    seq(|userClothing|, k requires 0 <= k < |userClothing| => Strip(userClothing[k]))
  }

  /** A recommended item built from a piece of clothing. */
  function ToRecommended(c: CE.Clothing, w: FE.WeatherCondition): (it: FE.RecommendedItem)
    ensures it.category == c.category && it.name == c.name && it.color == c.color
    ensures it.reason == ReasonFor(w)
  {
    FE.RecommendedItem(c.category, c.name, c.color, ReasonFor(w))
  }

  /** The items `GenerateRecommendation` produces. */
  function RecommendedItems(w: FE.WeatherCondition, userClothing: seq<CE.ClothingItem>): seq<FE.RecommendedItem>
  {
    var recs := Recommend(ToWeatherData(w), Stripped(userClothing));
    seq(|recs|, k requires 0 <= k < |recs| => ToRecommended(recs[k], w))
  }

  /** A list with distinct IDs that are all 0 has at most one item. */
  lemma ZeroIdsAtMostOne(d: seq<CE.Clothing>)
    requires forall x :: x in d ==> x.id == 0
    requires forall i, j :: 0 <= i < j < |d| ==> d[i].id != d[j].id
    ensures |d| <= 1
  {
    FirstTwo(d);
  }

  /** The first two elements of a list of at least two belong to it. */
  lemma FirstTwo<T>(d: seq<T>)
    ensures |d| >= 2 ==> d[0] in d && d[1] in d
  {
  }

  /** On the copies, `RecommendClothing` keeps at most one item: the first
      of a selected category, when there is one. */
  lemma StrippedRecommendation(w: FE.WeatherCondition, userClothing: seq<CE.ClothingItem>)
    ensures var recs := Recommend(ToWeatherData(w), Stripped(userClothing));
            |recs| <= 1
            && (|recs| == 1 <==> exists c :: c in userClothing && c.category in SelectedCategories(ToWeatherData(w)))
            && forall x :: x in recs ==>
                 exists c :: c in userClothing && Strip(c) == x && c.category in SelectedCategories(ToWeatherData(w))
  {
    var data := ToWeatherData(w);
    var stripped := Stripped(userClothing);
    var recs := Recommend(data, stripped);
    RecommendProperties(data, stripped);
    forall x | x in recs
      ensures x.id == 0
      ensures exists c :: c in userClothing && Strip(c) == x && c.category in SelectedCategories(data)
    {
      var m :| 0 <= m < |stripped| && stripped[m] == x;
      assert userClothing[m] in userClothing;
    }
    ZeroIdsAtMostOne(recs);
    if exists c :: c in userClothing && c.category in SelectedCategories(data) {
      var c :| c in userClothing && c.category in SelectedCategories(data);
      var m :| 0 <= m < |userClothing| && userClothing[m] == c;
      assert stripped[m] in stripped;
      assert 0 in Ids(recs);
    }
  }

  /** Because every copy has ID 0, de-duplication keeps only the first
      matching item: a recommendation holds one item when some stored item
      has a selected category, and none otherwise. */
  lemma RecommendedItemsAtMostOne(w: FE.WeatherCondition, userClothing: seq<CE.ClothingItem>)
    ensures |RecommendedItems(w, userClothing)| <= 1
    ensures |RecommendedItems(w, userClothing)| == 1 <==>
            exists c :: c in userClothing && c.category in SelectedCategories(ToWeatherData(w))
    ensures forall it :: it in RecommendedItems(w, userClothing) ==>
              it.reason == ReasonFor(w)
              && exists c :: c in userClothing && c.category == it.category && c.name == it.name
                             && c.color == it.color && c.category in SelectedCategories(ToWeatherData(w))
  {
    StrippedRecommendation(w, userClothing);
    var recs := Recommend(ToWeatherData(w), Stripped(userClothing));
    var items := RecommendedItems(w, userClothing);
    forall it | it in items
      ensures it.reason == ReasonFor(w)
      ensures exists c :: c in userClothing && c.category == it.category && c.name == it.name
                          && c.color == it.color && c.category in SelectedCategories(ToWeatherData(w))
    {
      var k :| 0 <= k < |items| && items[k] == it;
      assert it == ToRecommended(recs[k], w);
      assert recs[k] in recs;
    }
  }

  /** `GenerateRecommendation` */
  method GenerateRecommendation(weather: FE.WeatherCondition, userClothing: seq<CE.ClothingItem>)
    returns (rec: FE.FashionRecommendation)
    ensures rec.items == RecommendedItems(weather, userClothing)
    ensures rec.style == DetermineStyle(weather)
    ensures rec.reason == GenerateDescription(ToWeatherData(weather))
    ensures rec.weather == weather
  {
    var clothing: seq<CE.Clothing> := [];
    var i := 0;
    while i < |userClothing|
      invariant 0 <= i <= |userClothing|
      invariant clothing == seq(i, k requires 0 <= k < i => Strip(userClothing[k]))
    {
      clothing := clothing + [Strip(userClothing[i])];
      i := i + 1;
    }
    assert clothing == Stripped(userClothing);

    var weatherData := ToWeatherData(weather);
    var recommendations := RecommendClothing(weatherData, clothing);

    var recommendedItems: seq<FE.RecommendedItem> := [];
    var j := 0;
    while j < |recommendations|
      invariant 0 <= j <= |recommendations|
      invariant recommendedItems == seq(j, k requires 0 <= k < j => ToRecommended(recommendations[k], weather))
    {
      recommendedItems := recommendedItems + [ToRecommended(recommendations[j], weather)];
      j := j + 1;
    }

    rec := FE.FashionRecommendation("", "", DetermineStyle(weather), recommendedItems, weather,
                                    GenerateDescription(weatherData), "", 0);
  }
}
