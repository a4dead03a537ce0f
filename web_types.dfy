/// The frontend's record types (`types/index.ts`), restricted to the fields
/// the modelled controllers, models and views read or write. JavaScript
/// numbers are reals, except IDs, counts and levels that are always whole.
/// A post's and an item's `createdAt` is held as the millisecond count that
/// `new Date(createdAt).getTime()` gives for the ISO string the record
/// carries; the user's timestamps stay strings.
module WebTypes {
  import opened Common

  datatype UserPreferences = UserPreferences(
    styles: seq<string>,
    colors: seq<string>,
    preferredColors: seq<string>,
    preferredBrands: seq<string>,
    style: string,
    defaultLocation: Option<string>,
    temperatureUnit: string,
    notifications: bool,
    privacy: string)

  datatype User = User(
    id: string,
    name: string,
    email: string,
    gender: Option<string>,
    age: Option<int>,
    location: Option<string>,
    bio: Option<string>,
    preferences: Option<UserPreferences>,
    createdAt: string,
    updatedAt: string)

  datatype LoginRequest = LoginRequest(email: string, password: string)

  datatype RegisterRequest = RegisterRequest(
    name: string,
    email: string,
    password: string,
    gender: Option<string>,
    age: Option<int>)

  datatype AuthResponse = AuthResponse(user: User, token: string)

  /** The observation fields the views read. */
  datatype WeatherCondition = WeatherCondition(
    temperature: real,
    description: string,
    condition: string,
    humidity: real,
    windSpeed: real,
    location: string)

  datatype ClothingItem = ClothingItem(
    id: string,
    userId: string,
    name: string,
    itemType: string,
    color: string,
    size: string,
    season: seq<string>,
    description: Option<string>,
    category: string,
    brand: string,
    warmthLevel: int,
    imageUrl: string,
    createdAt: int)

  datatype ClothingCategory = ClothingCategory(id: string, name: string)

  datatype OutfitPost = OutfitPost(
    id: string,
    userId: string,
    userName: string,
    title: string,
    items: seq<string>,
    description: string,
    tags: seq<string>,
    weather: WeatherCondition,
    temperature: real,
    location: string,
    imageUrl: string,
    createdAt: int,
    likes: int)

  datatype Location = Location(lat: real, lon: real, name: string)
}
