/// The rules inside the clothing views: the item card's icon and warmth
/// colour, the form's initial values and season checkboxes, and the closet
/// overview's counts.
module ClothingComponents {
  import opened Common
  import opened Text
  import opened Lists
  import opened WebTypes

  /** The keys of the card's icon table. */
  const IconKeys: set<string> :=
    {"tops", "shirts", "bottoms", "pants", "skirts", "dresses", "shoes", "outerwear", "jackets", "accessories", "hats", "bags"}

  /** `getCategoryIcon`: a lower-cased lookup, defaulting to the T-shirt. */
  function CategoryIcon(category: string): (icon: string)
    ensures Lower(category) !in IconKeys ==> icon == "👕"
    ensures Lower(category) == "tops" ==> icon == "👕"
    ensures Lower(category) == "shirts" ==> icon == "👔"
    ensures Lower(category) in {"bottoms", "pants"} ==> icon == "👖"
    ensures Lower(category) in {"skirts", "dresses"} ==> icon == "👗"
    ensures Lower(category) == "shoes" ==> icon == "👠"
    ensures Lower(category) in {"outerwear", "jackets"} ==> icon == "🧥"
    ensures Lower(category) in {"accessories", "bags"} ==> icon == "👜"
    ensures Lower(category) == "hats" ==> icon == "🎩"
  {
    var key := Lower(category);
    if key == "tops" then "👕"
    else if key == "shirts" then "👔"
    else if key == "bottoms" || key == "pants" then "👖"
    else if key == "skirts" || key == "dresses" then "👗"
    else if key == "shoes" then "👠"
    else if key == "outerwear" || key == "jackets" then "🧥"
    else if key == "accessories" || key == "bags" then "👜"
    else if key == "hats" then "🎩"
    else "👕"
  }

  /** The icon ignores the case of the category. */
  lemma CategoryIconCaseInsensitive(category: string)
    ensures CategoryIcon(Lower(category)) == CategoryIcon(category)
  {
    LowerIdempotent(category);
  }

  /** `getWarmthLevelColor`: five bands, each with its own class. */
  function WarmthLevelColor(level: int): (c: string)
    ensures c == "bg-red-100 text-red-800" <==> level >= 8
    ensures c == "bg-orange-100 text-orange-800" <==> 6 <= level < 8
    ensures c == "bg-yellow-100 text-yellow-800" <==> 4 <= level < 6
    ensures c == "bg-blue-100 text-blue-800" <==> 2 <= level < 4
    ensures c == "bg-blue-200 text-blue-900" <==> level < 2
  {
    if level >= 8 then "bg-red-100 text-red-800"
    else if level >= 6 then "bg-orange-100 text-orange-800"
    else if level >= 4 then "bg-yellow-100 text-yellow-800"
    else if level >= 2 then "bg-blue-100 text-blue-800"
    else "bg-blue-200 text-blue-900"
  }

  /** The four season checkboxes, in display order. */
  const Seasons: seq<string> := ["春", "夏", "秋", "冬"]

  /** The state of `ClothingForm`. */
  datatype ClothingFormData = ClothingFormData(
    name: string,
    category: string,
    size: string,
    color: string,
    season: seq<string>,
    description: string,
    brand: string,
    warmthLevel: int)

  /** The form's initial state: each field of the edited item, or its
      default when that value is falsy (an empty string, a level of 0). */
  function InitialForm(item: Option<ClothingItem>): (f: ClothingFormData)
    ensures item.None? ==> f == ClothingFormData("", "", "M", "", [], "", "", 5)
    ensures item.Some? ==> f.size == (if item.value.size == "" then "M" else item.value.size)
    ensures item.Some? ==> f.warmthLevel == (if item.value.warmthLevel == 0 then 5 else item.value.warmthLevel)
    ensures item.Some? ==> f.name == item.value.name && f.season == item.value.season
    ensures item.Some? ==> f.category == item.value.category && f.color == item.value.color && f.brand == item.value.brand
    ensures item.Some? ==> f.description == (if item.value.description.Some? then item.value.description.value else "")
    ensures f.size != "" && f.warmthLevel != 0
  {
    match item
    case None => ClothingFormData("", "", "M", "", [], "", "", 5)
    case Some(it) =>
      ClothingFormData(
        it.name,
        it.category,
        if it.size == "" then "M" else it.size,
        it.color,
        it.season,
        if it.description.Some? then it.description.value else "",
        it.brand,
        if it.warmthLevel == 0 then 5 else it.warmthLevel)
  }

  function NotSeason(season: string): string -> bool
  {
    (s: string) => s != season
  }

  class ClothingForm {
    var form: ClothingFormData

    constructor (item: Option<ClothingItem>)
      ensures form == InitialForm(item)
    {
      form := InitialForm(item);
    }

    /** `handleSeasonChange`: checking appends (even a season already
        listed); unchecking removes every occurrence. */
    method HandleSeasonChange(season: string, checked: bool)
      modifies this
      ensures checked ==> form == old(form).(season := old(form).season + [season])
      ensures !checked ==> form == old(form).(season := Filter(old(form).season, NotSeason(season)))
    {
      if checked {
        form := form.(season := form.season + [season]);
      } else {
        form := form.(season := Filter(form.season, NotSeason(season)));
      }
    }
  }

  /** Unchecking removes the season entirely and keeps the others; checking a
      season twice lists it twice. */
  lemma SeasonChangeMeaning(seasons: seq<string>, season: string)
    ensures season !in Filter(seasons, NotSeason(season))
    ensures forall s :: s != season ==> (s in Filter(seasons, NotSeason(season)) <==> s in seasons)
    ensures multiset(seasons + [season] + [season])[season] == multiset(seasons)[season] + 2
    ensures season !in seasons ==> Filter(seasons + [season], NotSeason(season)) == seasons
  {
    if season !in seasons {
      FilterAppend(seasons, [season], NotSeason(season));
      FilterAll(seasons, NotSeason(season));
    }
  }

  // ---------------------------------------------------------------------------
  // ClosetOverview

  /** A labelled count of the overview. */
  datatype NamedCount = NamedCount(name: string, count: nat)

  function InCategory(name: string): ClothingItem -> bool
  {
    (item: ClothingItem) => item.category == name
  }

  function InSeason(season: string): ClothingItem -> bool
  {
    (item: ClothingItem) => season in item.season
  }

  /** The result of `getStats`. */
  datatype OverviewStats = OverviewStats(total: nat, byCategory: seq<NamedCount>, bySeason: seq<NamedCount>)

  /** `getStats`: one count per given category, in order, then the four
      season counts. */
  function OverviewOf(items: seq<ClothingItem>, categories: seq<ClothingCategory>): (r: OverviewStats)
    ensures r.total == |items| && |r.byCategory| == |categories| && |r.bySeason| == |Seasons|
  {
    OverviewStats(
      |items|,
      seq(|categories|, i requires 0 <= i < |categories| =>
        NamedCount(categories[i].name, |Filter(items, InCategory(categories[i].name))|)),
      seq(4, i requires 0 <= i < 4 => NamedCount(Seasons[i], |Filter(items, InSeason(Seasons[i]))|)))
  }

  /** Each count names its category or season in order and never exceeds the
      total; no items gives all-zero counts. */
  lemma OverviewMeaning(items: seq<ClothingItem>, categories: seq<ClothingCategory>)
    ensures |OverviewOf(items, categories).byCategory| == |categories|
    ensures |OverviewOf(items, categories).bySeason| == 4
    ensures forall i :: 0 <= i < |categories| ==>
              OverviewOf(items, categories).byCategory[i].name == categories[i].name
              && OverviewOf(items, categories).byCategory[i].count <= |items|
    ensures forall i :: 0 <= i < 4 ==>
              OverviewOf(items, categories).bySeason[i].name == Seasons[i]
              && OverviewOf(items, categories).bySeason[i].count <= |items|
    ensures forall i :: 0 <= i < |categories| ==>
              OverviewOf(items, categories).byCategory[i].count
              == |set j | 0 <= j < |items| && items[j].category == categories[i].name|
    ensures forall i :: 0 <= i < 4 ==>
              OverviewOf(items, categories).bySeason[i].count
              == |set j | 0 <= j < |items| && Seasons[i] in items[j].season|
    ensures items == [] ==> forall c :: c in OverviewOf(items, categories).byCategory ==> c.count == 0
  {
    forall i | 0 <= i < |categories|
      ensures OverviewOf(items, categories).byCategory[i].count
              == |set j | 0 <= j < |items| && items[j].category == categories[i].name|
    {
      CountInCategory(items, categories[i].name);
    }
    forall i | 0 <= i < 4
      ensures OverviewOf(items, categories).bySeason[i].count
              == |set j | 0 <= j < |items| && Seasons[i] in items[j].season|
    {
      CountInSeason(items, Seasons[i]);
    }
  }

  /** The items a category filter keeps are as many as the positions
      holding that category. */
  lemma CountInCategory(items: seq<ClothingItem>, name: string)
    ensures |Filter(items, InCategory(name))| == |set j | 0 <= j < |items| && items[j].category == name|
  {
    FilterCount(items, InCategory(name));
    assert Positions(items, InCategory(name)) == set j | 0 <= j < |items| && items[j].category == name;
  }

  /** The items a season filter keeps are as many as the positions
      listing that season. */
  lemma CountInSeason(items: seq<ClothingItem>, season: string)
    ensures |Filter(items, InSeason(season))| == |set j | 0 <= j < |items| && season in items[j].season|
  {
    FilterCount(items, InSeason(season));
    assert Positions(items, InSeason(season)) == set j | 0 <= j < |items| && season in items[j].season;
  }
}
