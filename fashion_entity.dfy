/// Weather, recommendation and outfit-post entities of the backend domain.
module FashionEntity {
  import opened Common
  import ClothingEntity

  /** A weather observation (`WeatherCondition`). Go's float64 fields are reals;
      `dateTime` is a clock reading. */
  datatype WeatherCondition = WeatherCondition(
    temperature: real,
    feelsLike: real,
    description: string,
    condition: string,
    humidity: int,
    windSpeed: real,
    cloudCover: int,
    location: string,
    dateTime: int)

  datatype RecommendedItem = RecommendedItem(category: string, name: string, color: string, reason: string)

  datatype FashionRecommendation = FashionRecommendation(
    id: string,
    userId: string,
    style: string,
    items: seq<RecommendedItem>,
    weather: WeatherCondition,
    reason: string,
    location: string,
    createdAt: int)

  datatype OutfitPost = OutfitPost(
    id: string,
    userId: string,
    userName: string,
    items: seq<string>,
    description: string,
    tags: seq<string>,
    weather: WeatherCondition,
    temperature: real,
    location: string,
    imageUrl: string,
    createdAt: int,
    likes: int)

  /** The simplified observation the recommendation service consumes. */
  datatype WeatherData = WeatherData(
    temperature: real,
    condition: string,
    humidity: int,
    windSpeed: real,
    location: string,
    dateTime: int)

  datatype OutfitSuggestion = OutfitSuggestion(
    weatherCondition: string,
    temperature: real,
    clothingItems: seq<ClothingEntity.Clothing>,
    description: string,
    createdAt: int)

  /** `(*OutfitPost).Validate`: a user ID, then at least one item. */
  function Validate(o: OutfitPost): (err: Option<string>)
    ensures err == None <==> o.userId != "" && |o.items| > 0
    ensures err == Some("ユーザーIDは必須です") <==> o.userId == ""
    ensures err == Some("少なくとも1つの衣服アイテムが必要です") <==> o.userId != "" && |o.items| == 0
  {
    if o.userId == "" then Some("ユーザーIDは必須です")
    else if |o.items| == 0 then Some("少なくとも1つの衣服アイテムが必要です")
    else None
  }

  /** `Validate` never looks at likes, temperature or tags. */
  lemma ValidateIgnoresCounters(o: OutfitPost, likes: int, temperature: real, tags: seq<string>)
    ensures Validate(o.(likes := likes, temperature := temperature, tags := tags)) == Validate(o)
  {
  }

  const StyleCasual: string := "casual"
  const StyleFormal: string := "formal"
  const StyleSporty: string := "sporty"

  /** `IsValidStyle`: a scan of the three style constants. */
  function IsValidStyle(style: string): (b: bool)
    ensures b <==> style == "casual" || style == "formal" || style == "sporty"
  {
    ClothingEntity.Listed(style, [StyleCasual, StyleFormal, StyleSporty])
  }
}
