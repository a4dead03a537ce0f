/// The rules inside the `FashionRecommendation` component: the local
/// recommendation built from the temperature and the weather text, and the
/// icon and colour of an item's category.
module FashionRecommendationPanel {
  import opened Common
  import opened Text

  datatype FashionItem = FashionItem(category: string, name: string, color: string, reason: string)

  datatype Recommendation = Recommendation(style: string, items: seq<FashionItem>, weather: string, temp: real)

  const Coat := FashionItem("アウター", "厚手のコート", "ダークカラー", "防寒対策")
  const Sweater := FashionItem("トップス", "セーター", "ウォームカラー", "保温性")
  const ShortSleeve := FashionItem("トップス", "半袖Tシャツ", "ライトカラー", "涼しさ重視")
  const Shorts := FashionItem("ボトムス", "ショートパンツ", "明るい色", "通気性")
  const LongSleeve := FashionItem("トップス", "長袖Tシャツ", "明るめの色", "快適な温度調節")
  const Chinos := FashionItem("ボトムス", "チノパンツ", "ベージュやカーキ", "動きやすさ")
  const Rainwear := FashionItem("アクセサリー", "レインウェア", "機能重視", "雨対策")

  /** `weather?.includes("雨") || false`; a missing weather is not rainy. */
  predicate Rainy(weather: Option<string>)
  {
    weather.Some? && Contains(weather.value, "雨")
  }

  /** The two items of the temperature band: cold below 15, hot above 25.
      Neither is an accessory, and only the cold band leads with outerwear. */
  function BandItems(temp: real): (r: seq<FashionItem>)
    ensures |r| == 2
    ensures forall i :: 0 <= i < 2 ==> r[i].category != "アクセサリー"
    ensures r[0].category == "アウター" <==> temp < 15.0
  {
    assert |"アクセサリー"| == 6 && |"アウター"| == 4 && |"トップス"| == 4 && |"ボトムス"| == 4;
    assert "アウター"[0] != "トップス"[0];
    if temp < 15.0 then [Coat, Sweater]
    else if temp > 25.0 then [ShortSleeve, Shorts]
    else [LongSleeve, Chinos]
  }

  /** `weather || "晴れ"` */
  function ShownWeather(weather: Option<string>): (w: string)
    ensures w != ""
    ensures weather.Some? && weather.value != "" ==> w == weather.value
    ensures weather.None? || weather.value == "" ==> w == "晴れ"
  {
    if weather.None? || weather.value == "" then "晴れ" else weather.value
  }

  /** `getLocalRecommendations`: the band's two items, then rainwear when the
      weather mentions rain; the style and temperature are echoed. */
  method LocalRecommendations(weather: Option<string>, temp: real, selectedStyle: string) returns (r: Recommendation)
    ensures r.items == BandItems(temp) + (if Rainy(weather) then [Rainwear] else [])
    ensures r.style == selectedStyle && r.temp == temp && r.weather == ShownWeather(weather)
  {
    var items: seq<FashionItem> := [];
    var isRainy := Rainy(weather);
    var isCold := temp < 15.0;
    var isHot := temp > 25.0;
    if isCold {
      items := items + [Coat];
      items := items + [Sweater];
    } else if isHot {
      items := items + [ShortSleeve];
      items := items + [Shorts];
    } else {
      items := items + [LongSleeve];
      items := items + [Chinos];
    }
    if isRainy {
      items := items + [Rainwear];
    }
    r := Recommendation(selectedStyle, items, ShownWeather(weather), temp);
  }

  /** There are two items, three exactly when it rains; the accessory comes
      only from the rain and always last; the first two follow the band. */
  lemma {:induction false} RecommendationShape(weather: Option<string>, temp: real)
    ensures var items := BandItems(temp) + (if Rainy(weather) then [Rainwear] else []);
            (|items| == 3 <==> Rainy(weather)) && 2 <= |items| <= 3
            && (forall i :: 0 <= i < |items| ==> (items[i].category == "アクセサリー" <==> Rainy(weather) && i == 2))
            && (temp < 15.0 ==> items[..2] == [Coat, Sweater])
            && (temp > 25.0 ==> items[..2] == [ShortSleeve, Shorts])
            && (15.0 <= temp <= 25.0 ==> items[..2] == [LongSleeve, Chinos])
  {
  }

  /** The icons `getItemIcon` chooses from. */
  datatype Icon = ShirtIcon | Umbrella | Shirt

  /** `getItemIcon`: outerwear and accessories in Japanese or English, in
      any ASCII case; any other category gets the plain shirt. */
  function ItemIcon(category: string): (icon: Icon)
    ensures icon == ShirtIcon <==> Lower(category) in {"アウター", "outerwear"}
    ensures icon == Umbrella <==> Lower(category) in {"アクセサリー", "accessories"}
  {
    var key := Lower(category);
    if key == "アウター" || key == "outerwear" then ShirtIcon
    else if key == "アクセサリー" || key == "accessories" then Umbrella
    else Shirt
  }

  /** `getItemColor`, with the same cases as `getItemIcon`. */
  function ItemColor(category: string): (c: string)
    ensures c == "text-blue-500" <==> Lower(category) in {"アウター", "outerwear"}
    ensures c == "text-yellow-500" <==> Lower(category) in {"アクセサリー", "accessories"}
    ensures c == "text-green-500" <==> Lower(category) !in {"アウター", "outerwear", "アクセサリー", "accessories"}
  {
    var key := Lower(category);
    assert |"text-blue-500"| != |"text-yellow-500"|;
    assert "text-blue-500"[5] != "text-green-500"[5] && "text-yellow-500"[5] != "text-green-500"[5];
    if key == "アウター" || key == "outerwear" then "text-blue-500"
    else if key == "アクセサリー" || key == "accessories" then "text-yellow-500"
    else "text-green-500"
  }

  /** The icon and colour always belong to the same case. */
  lemma IconMatchesColor(category: string)
    ensures ItemIcon(category) == ShirtIcon <==> ItemColor(category) == "text-blue-500"
    ensures ItemIcon(category) == Umbrella <==> ItemColor(category) == "text-yellow-500"
    ensures ItemIcon(category) == Shirt <==> ItemColor(category) == "text-green-500"
  {
  }

  /** Lower-casing the category first changes neither. */
  lemma CaseInsensitive(category: string)
    ensures ItemIcon(Lower(category)) == ItemIcon(category)
    ensures ItemColor(Lower(category)) == ItemColor(category)
  {
    LowerIdempotent(category);
  }

  /** Within a local recommendation the rainwear is the one item shown with
      the umbrella, and the coat the one with the outerwear icon. */
  lemma RecommendationIcons(weather: Option<string>, temp: real)
    ensures var items := BandItems(temp) + (if Rainy(weather) then [Rainwear] else []);
            forall i :: 0 <= i < |items| ==>
              (ItemIcon(items[i].category) == Umbrella <==> items[i] == Rainwear)
              && (ItemIcon(items[i].category) == ShirtIcon <==> items[i] == Coat)
  {
    assert Lower("アウター") == "アウター" && Lower("アクセサリー") == "アクセサリー";
    assert Lower("トップス") == "トップス" && Lower("ボトムス") == "ボトムス";
    assert |"アクセサリー"| == 6 && |"アウター"| == 4 && |"トップス"| == 4 && |"ボトムス"| == 4;
    assert "アウター"[1] != "トップス"[1] && "アウター"[1] != "ボトムス"[1];
  }
}
