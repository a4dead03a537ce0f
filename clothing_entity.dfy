/// The clothing entities of the backend domain: the stored `ClothingItem`
/// record, its category constants and its validation, plus the lightweight
/// `Clothing` record the recommendation service works on.
module ClothingEntity {
  import opened Common

  /** A garment in a user's closet. `createdAt` is a clock reading supplied by
      the caller. */
  datatype ClothingItem = ClothingItem(
    id: string,
    userId: string,
    name: string,
    itemType: string,
    color: string,
    category: string,
    brand: string,
    warmthLevel: int,
    imageUrl: string,
    createdAt: int)

  /** The record the recommendation service filters and de-duplicates. */
  datatype Clothing = Clothing(id: int, name: string, category: string, color: string, itemType: string)

  const CategoryTops: string := "トップス"
  const CategoryBottoms: string := "ボトムス"
  const CategoryOuterwear: string := "アウター"
  const CategoryShoes: string := "シューズ"
  const CategoryAccessory: string := "アクセサリー"

  const ValidCategories: seq<string> :=
    [CategoryTops, CategoryBottoms, CategoryOuterwear, CategoryShoes, CategoryAccessory]

  /** `(*ClothingItem).Validate`: `None` is Go's nil error. The five required
      fields are checked in the order user ID, name, type, color, category. */
  function Validate(c: ClothingItem): (err: Option<string>)
    ensures err == None <==>
      c.userId != "" && c.name != "" && c.itemType != "" && c.color != "" && c.category != ""
    ensures err == Some("user ID is required") <==> c.userId == ""
    ensures err == Some("name is required") <==> c.userId != "" && c.name == ""
    ensures err == Some("type is required") <==> c.userId != "" && c.name != "" && c.itemType == ""
    ensures err == Some("color is required") <==>
      c.userId != "" && c.name != "" && c.itemType != "" && c.color == ""
    ensures err == Some("category is required") <==>
      c.userId != "" && c.name != "" && c.itemType != "" && c.color != "" && c.category == ""
  {
    if c.userId == "" then Some("user ID is required")
    else if c.name == "" then Some("name is required")
    else if c.itemType == "" then Some("type is required")
    else if c.color == "" then Some("color is required")
    else if c.category == "" then Some("category is required")
    else None
  }

  /** `NewClothingItem`: the same guard chain as `Validate`; on success a record
      with no ID, brand or image yet and warmth level 0. */
  function NewClothingItem(userId: string, name: string, itemType: string, color: string,
                           category: string, now: int): (r: Result<ClothingItem>)
    ensures r.Ok? <==> userId != "" && name != "" && itemType != "" && color != "" && category != ""
    ensures r.Ok? ==> Validate(r.value) == None
    ensures r.Ok? ==> r.value.userId == userId && r.value.name == name && r.value.itemType == itemType
                      && r.value.color == color && r.value.category == category
                      && r.value.createdAt == now
    ensures r.Ok? ==> r.value.id == "" && r.value.brand == "" && r.value.imageUrl == ""
                      && r.value.warmthLevel == 0
    ensures r.Err? ==>
      Some(r.error) == Validate(ClothingItem("", userId, name, itemType, color, category, "", 0, "", now))
  {
    if userId == "" then Err("user ID is required")
    else if name == "" then Err("name is required")
    else if itemType == "" then Err("type is required")
    else if color == "" then Err("color is required")
    else if category == "" then Err("category is required")
    else Ok(ClothingItem("", userId, name, itemType, color, category, "", 0, "", now))
  }

  /** `(*ClothingItem).IsValidCategory`: a scan of the five category constants. */
  function IsValidCategory(c: ClothingItem): (b: bool)
    ensures b <==> c.category == "トップス" || c.category == "ボトムス" || c.category == "アウター"
                   || c.category == "シューズ" || c.category == "アクセサリー"
  {
    Listed(c.category, ValidCategories)
  }

  function Listed(x: string, xs: seq<string>): (b: bool)
    ensures b <==> x in xs
  {
    if xs == [] then false else xs[0] == x || Listed(x, xs[1..])
  }

  /** `Validate` inspects neither the category list nor the warmth level: an
      item with an unknown category and a warmth level far outside 1-10
      passes it. */
  lemma ValidateIgnoresCategoryAndWarmth(c: ClothingItem, category: string, warmth: int)
    requires Validate(c) == None && category != ""
    ensures Validate(c.(category := category, warmthLevel := warmth)) == None
  {
  }

  lemma ValidateAcceptsUnlistedCategory()
    ensures var c := ClothingItem("clothing_1", "user_1", "parka", "coat", "black", "冬服", "", 99, "", 0);
            Validate(c) == None && !IsValidCategory(c) && !(1 <= c.warmthLevel <= 10)
  {
  }
}
