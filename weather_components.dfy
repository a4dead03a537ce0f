/// The rules inside the weather views: the weather icon and temperature
/// colour of `WeatherCard`, the alert icon and colour of `WeatherAlert`, and
/// the clothing advice of `WeatherClothingAdvice`.
module WeatherComponents {
  import opened Text
  import opened WebTypes

  /** `getWeatherIcon` (the post card of the outfit views has the same
      table): a lower-cased lookup with a default. */
  function WeatherIcon(condition: string): (icon: string)
    ensures Lower(condition) !in {"sunny", "cloudy", "rainy", "snowy", "thunderstorm", "foggy", "windy"} ==> icon == "🌤️"
    ensures Lower(condition) == "sunny" ==> icon == "☀️"
    ensures Lower(condition) == "rainy" ==> icon == "🌧️"
    ensures Lower(condition) == "snowy" ==> icon == "❄️"
    ensures Lower(condition) == "cloudy" ==> icon == "☁️"
    ensures Lower(condition) == "thunderstorm" ==> icon == "⛈️"
    ensures Lower(condition) == "foggy" ==> icon == "🌫️"
    ensures Lower(condition) == "windy" ==> icon == "💨"
  {
    var key := Lower(condition);
    if key == "sunny" then "☀️"
    else if key == "cloudy" then "☁️"
    else if key == "rainy" then "🌧️"
    else if key == "snowy" then "❄️"
    else if key == "thunderstorm" then "⛈️"
    else if key == "foggy" then "🌫️"
    else if key == "windy" then "💨"
    else "🌤️"
  }

  /** The icon ignores the case of the condition. */
  lemma WeatherIconCaseInsensitive(condition: string)
    ensures WeatherIcon(Lower(condition)) == WeatherIcon(condition)
  {
    LowerIdempotent(condition);
  }

  /** The temperature colours from coldest to hottest. */
  const TemperatureColors: seq<string> :=
    ["text-blue-700", "text-blue-500", "text-green-500", "text-yellow-500", "text-orange-500", "text-red-600"]

  /** The band a temperature falls in, with cut points 10, 15, 20, 25, 30. */
  function TemperatureBand(t: real): (b: nat)
    ensures b < 6
    ensures b == 5 <==> t >= 30.0
    ensures b == 4 <==> 25.0 <= t < 30.0
    ensures b == 3 <==> 20.0 <= t < 25.0
    ensures b == 2 <==> 15.0 <= t < 20.0
    ensures b == 1 <==> 10.0 <= t < 15.0
    ensures b == 0 <==> t < 10.0
  {
    if t >= 30.0 then 5
    else if t >= 25.0 then 4
    else if t >= 20.0 then 3
    else if t >= 15.0 then 2
    else if t >= 10.0 then 1
    else 0
  }

  /** `getTemperatureColor` */
  function TemperatureColor(t: real): (c: string)
    ensures c == TemperatureColors[TemperatureBand(t)]
  {
    if t >= 30.0 then "text-red-600"
    else if t >= 25.0 then "text-orange-500"
    else if t >= 20.0 then "text-yellow-500"
    else if t >= 15.0 then "text-green-500"
    else if t >= 10.0 then "text-blue-500"
    else "text-blue-700"
  }

  /** A warmer temperature never gets a colder colour, and the six colours
      are distinct. */
  lemma TemperatureColorMonotone(t1: real, t2: real)
    ensures t1 <= t2 ==> TemperatureBand(t1) <= TemperatureBand(t2)
    ensures forall i, j :: 0 <= i < j < 6 ==> TemperatureColors[i] != TemperatureColors[j]
    ensures TemperatureColor(t1) == TemperatureColor(t2) <==> TemperatureBand(t1) == TemperatureBand(t2)
  {
    var c := TemperatureColors;
    assert c[0][5] == 'b' && c[0][10] == '7' && c[1][5] == 'b' && c[1][10] == '5';
    assert c[2][5] == 'g' && c[3][5] == 'y' && c[4][5] == 'o' && c[5][5] == 'r';
  }

  /** `getAlertIcon`: unknown types get the warning sign. */
  function AlertIcon(alertType: string): (icon: string)
    ensures alertType !in {"watch", "advisory"} ==> icon == "⚠️"
    ensures alertType == "watch" ==> icon == "👀"
    ensures alertType == "advisory" ==> icon == "ℹ️"
  {
    if alertType == "warning" then "⚠️"
    else if alertType == "watch" then "👀"
    else if alertType == "advisory" then "ℹ️"
    else "⚠️"
  }

  /** `getAlertColor`: unknown severities get grey. */
  function AlertColor(severity: string): (c: string)
    ensures severity !in {"high", "medium", "low"} ==> c == "border-gray-200 bg-gray-50 text-gray-800"
    ensures severity == "high" ==> c == "border-red-200 bg-red-50 text-red-800"
    ensures severity == "medium" ==> c == "border-yellow-200 bg-yellow-50 text-yellow-800"
    ensures severity == "low" ==> c == "border-blue-200 bg-blue-50 text-blue-800"
  {
    if severity == "high" then "border-red-200 bg-red-50 text-red-800"
    else if severity == "medium" then "border-yellow-200 bg-yellow-50 text-yellow-800"
    else if severity == "low" then "border-blue-200 bg-blue-50 text-blue-800"
    else "border-gray-200 bg-gray-50 text-gray-800"
  }

  // ---------------------------------------------------------------------------
  // getClothingAdvice

  /** The warmth labels from hottest to coldest. */
  const WarmthLabels: seq<string> := ["非常に暑い", "暑い", "暖かい", "涼しい", "寒い", "非常に寒い"]

  /** The label's position in `WarmthLabels`: bands at 30, 25, 20, 15, 10. */
  function WarmthIndex(t: real): (k: nat)
    ensures k < 6
    ensures k == 0 <==> t >= 30.0
    ensures k == 1 <==> 25.0 <= t < 30.0
    ensures k == 2 <==> 20.0 <= t < 25.0
    ensures k == 3 <==> 15.0 <= t < 20.0
    ensures k == 4 <==> 10.0 <= t < 15.0
    ensures k == 5 <==> t < 10.0
  {
    if t >= 30.0 then 0
    else if t >= 25.0 then 1
    else if t >= 20.0 then 2
    else if t >= 15.0 then 3
    else if t >= 10.0 then 4
    else 5
  }

  /** The advice for the temperature band. */
  function BaseAdvice(t: real): seq<string>
  {
    if t >= 30.0 then ["薄手の半袖やノースリーブ", "通気性の良い素材", "日焼け止めと帽子"]
    else if t >= 25.0 then ["半袖シャツ", "軽いパンツやスカート"]
    else if t >= 20.0 then ["長袖シャツ", "軽いジャケット（朝夕用）"]
    else if t >= 15.0 then ["セーターや薄手のニット", "軽いアウター"]
    else if t >= 10.0 then ["厚手のアウター", "長袖のインナー"]
    else ["厚手のコートやダウン", "マフラーや手袋"]
  }

  const RainAdvice: seq<string> := ["レインコートや傘", "防水シューズ"]
  const SnowAdvice: seq<string> := ["防寒ブーツ", "防水性のあるアウター"]
  const WindAdvice: string := "風を通しにくいアウター"
  const HumidityAdvice: string := "吸湿性の良い素材"

  /** The advice added for the condition, the wind and the humidity, in
      that order. */
  function ExtraAdvice(w: WeatherCondition): seq<string>
  {
    (if Contains(w.condition, "rain") then RainAdvice else [])
    + (if Contains(w.condition, "snow") then SnowAdvice else [])
    + (if w.windSpeed > 5.0 then [WindAdvice] else [])
    + (if w.humidity > 80.0 then [HumidityAdvice] else [])
  }

  /** The first part of `getClothingAdvice`: the label and the advice of
      the temperature band. */
  method BandAdvice(t: real) returns (warmthLevel: string, advice: seq<string>)
    ensures warmthLevel == WarmthLabels[WarmthIndex(t)]
    ensures advice == BaseAdvice(t)
  {
    advice := [];
    if t >= 30.0 {
      warmthLevel := "非常に暑い";
      advice := advice + ["薄手の半袖やノースリーブ"];
      advice := advice + ["通気性の良い素材"];
      advice := advice + ["日焼け止めと帽子"];
    } else if t >= 25.0 {
      warmthLevel := "暑い";
      advice := advice + ["半袖シャツ"];
      advice := advice + ["軽いパンツやスカート"];
    } else if t >= 20.0 {
      warmthLevel := "暖かい";
      advice := advice + ["長袖シャツ"];
      advice := advice + ["軽いジャケット（朝夕用）"];
    } else if t >= 15.0 {
      warmthLevel := "涼しい";
      advice := advice + ["セーターや薄手のニット"];
      advice := advice + ["軽いアウター"];
    } else if t >= 10.0 {
      warmthLevel := "寒い";
      advice := advice + ["厚手のアウター"];
      advice := advice + ["長袖のインナー"];
    } else {
      warmthLevel := "非常に寒い";
      advice := advice + ["厚手のコートやダウン"];
      advice := advice + ["マフラーや手袋"];
    }
  }

  /** `getClothingAdvice`: exactly one warmth label, its band's advice,
      then the extras. */
  method ClothingAdvice(w: WeatherCondition) returns (warmthLevel: string, advice: seq<string>)
    ensures warmthLevel == WarmthLabels[WarmthIndex(w.temperature)]
    ensures advice == BaseAdvice(w.temperature) + ExtraAdvice(w)
  {
    warmthLevel, advice := BandAdvice(w.temperature);
    ghost var base := advice;
    var rain := Contains(w.condition, "rain");
    var snow := Contains(w.condition, "snow");
    if rain {
      advice := advice + [RainAdvice[0]];
      advice := advice + [RainAdvice[1]];
    }
    assert advice == base + (if rain then RainAdvice else []);
    if snow {
      advice := advice + [SnowAdvice[0]];
      advice := advice + [SnowAdvice[1]];
    }
    assert advice == base + (if rain then RainAdvice else []) + (if snow then SnowAdvice else []);
    if w.windSpeed > 5.0 {
      advice := advice + [WindAdvice];
    }
    if w.humidity > 80.0 {
      advice := advice + [HumidityAdvice];
    }
  }

  /** The advice starts with three items at 30 degrees or more and two
      otherwise, followed by two per rain or snow condition, one for wind
      over 5 and one for humidity over 80. */
  lemma AdviceCounts(w: WeatherCondition)
    ensures |BaseAdvice(w.temperature)| == (if w.temperature >= 30.0 then 3 else 2)
    ensures |ExtraAdvice(w)| ==
              (if Contains(w.condition, "rain") then 2 else 0) + (if Contains(w.condition, "snow") then 2 else 0)
              + (if w.windSpeed > 5.0 then 1 else 0) + (if w.humidity > 80.0 then 1 else 0)
    ensures 2 <= |BaseAdvice(w.temperature) + ExtraAdvice(w)| <= 9
  {
  }
}
