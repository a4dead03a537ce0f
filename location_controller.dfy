/// `useLocationController`: search results, favourites with their
/// persisted copy under "favoriteLocations", the current position, and the
/// loading and error fields. Browser storage is the `stored` field (the
/// JSON text is not modelled); random offsets and geolocation are inputs.
module LocationController {
  import opened Common
  import opened Text
  import opened Lists
  import opened WebTypes

  /** The prefectures of the mock search, in result order. */
  const Prefectures: seq<string> := ["東京都", "大阪府", "愛知県"]
  const BaseLatitudes: seq<real> := [35.6762, 34.6937, 35.1815]
  const BaseLongitudes: seq<real> := [139.6503, 135.5023, 136.9066]

  /** A mock result before filtering: the location and its `state` field. */
  datatype Candidate = Candidate(location: Location, state: string)

  /** The three mock results for `query`, shifted by the random offsets. */
  function Candidates(query: string, dLat: seq<real>, dLon: seq<real>): (r: seq<Candidate>)
    requires |dLat| == 3 && |dLon| == 3
    ensures |r| == 3
  {
    seq(3, i requires 0 <= i < 3 =>
      Candidate(Location(BaseLatitudes[i] + dLat[i], BaseLongitudes[i] + dLon[i], query + " - " + Prefectures[i]),
                Prefectures[i]))
  }

  /** The filter callback of the mock search. */
  predicate MatchesQuery(c: Candidate, query: string)
  {
    Contains(Lower(c.location.name), Lower(query)) || Contains(c.state, query)
  }

  function QueryMatcher(query: string): Candidate -> bool
  {
    (c: Candidate) => MatchesQuery(c, query)
  }

  function LocationsOf(cs: seq<Candidate>): (r: seq<Location>)
    ensures |r| == |cs|
  {
    seq(|cs|, i requires 0 <= i < |cs| => cs[i].location)
  }

  /** The mock search's result list. */
  function SearchResults(query: string, dLat: seq<real>, dLon: seq<real>): seq<Location>
    requires |dLat| == 3 && |dLon| == 3
  {
    LocationsOf(Filter(Candidates(query, dLat, dLon), QueryMatcher(query)))
  }

  /** Every mock name starts with the query, so the filter keeps all three
      results, in prefecture order. */
  lemma SearchKeepsAll(query: string, dLat: seq<real>, dLon: seq<real>)
    requires |dLat| == 3 && |dLon| == 3
    ensures |SearchResults(query, dLat, dLon)| == 3
    ensures forall i :: 0 <= i < 3 ==>
              SearchResults(query, dLat, dLon)[i].name == query + " - " + Prefectures[i]
              && SearchResults(query, dLat, dLon)[i].lat == BaseLatitudes[i] + dLat[i]
  {
    var cs := Candidates(query, dLat, dLon);
    forall i | 0 <= i < 3 ensures MatchesQuery(cs[i], query) {
      LowerAppend(query, " - " + Prefectures[i]);
      ContainsPrefix(Lower(query), Lower(" - " + Prefectures[i]));
      assert cs[i].location.name == query + (" - " + Prefectures[i]);
    }
    FilterAll(cs, QueryMatcher(query));
  }

  /** Two locations are the same favourite when latitude and longitude agree,
      whatever their names. */
  function NotAt(location: Location): Location -> bool
  {
    (fav: Location) => !(fav.lat == location.lat && fav.lon == location.lon)
  }

  /** The favourites left after removing `location`. */
  function RemoveFavorite(favorites: seq<Location>, location: Location): seq<Location>
  {
    Filter(favorites, NotAt(location))
  }

  /** Removal drops every favourite at the coordinates and keeps the rest;
      adding then removing a location at new coordinates gives the list back. */
  lemma RemoveFavoriteMeaning(favorites: seq<Location>, location: Location)
    ensures forall f :: f in RemoveFavorite(favorites, location) <==>
              f in favorites && !(f.lat == location.lat && f.lon == location.lon)
    ensures (forall f :: f in favorites ==> !(f.lat == location.lat && f.lon == location.lon)) ==>
              RemoveFavorite(favorites + [location], location) == favorites
  {
    if forall f :: f in favorites ==> !(f.lat == location.lat && f.lon == location.lon) {
      FilterAppend(favorites, [location], NotAt(location));
      FilterAll(favorites, NotAt(location));
    }
  }

  class LocationController {
    var locations: seq<Location>
    var favorites: seq<Location>
    var currentLocation: Option<Location>
    var isLoading: bool
    var error: Option<string>
    /** The "favoriteLocations" entry of browser storage. */
    var stored: Option<seq<Location>>

    constructor (storage: Option<seq<Location>>)
      ensures locations == [] && favorites == [] && currentLocation == None && !isLoading && error == None
      ensures stored == storage
    {
      locations := [];
      favorites := [];
      currentLocation := None;
      isLoading := false;
      error := None;
      stored := storage;
    }

    /** `searchLocations`: a blank query only empties the results; any other
        query yields the three mock results. */
    method SearchLocations(query: string, dLat: seq<real>, dLon: seq<real>)
      requires |dLat| == 3 && |dLon| == 3
      modifies this
      ensures IsBlank(query) ==> locations == [] && isLoading == old(isLoading) && error == old(error)
      ensures !IsBlank(query) ==>
                locations == SearchResults(query, dLat, dLon) && |locations| == 3 && !isLoading && error == None
      ensures favorites == old(favorites) && currentLocation == old(currentLocation) && stored == old(stored)
    {
      if IsBlank(query) {
        locations := [];
        return;
      }
      isLoading := true;
      error := None;
      SearchKeepsAll(query, dLat, dLon);
      locations := SearchResults(query, dLat, dLon);
      isLoading := false;
    }

    /** `getCurrentLocation`: the position becomes "現在地". */
    method GetCurrentLocation(position: Call<(real, real)>)
      modifies this
      ensures !isLoading
      ensures position.Resolved? ==>
                currentLocation == Some(Location(position.value.0, position.value.1, "現在地")) && error == None
      ensures position.Rejected? ==>
                currentLocation == old(currentLocation)
                && error == Some(ErrorMessage(position.thrown, "現在地の取得に失敗しました"))
      ensures locations == old(locations) && favorites == old(favorites) && stored == old(stored)
    {
      isLoading := true;
      error := None;
      if position.Resolved? {
        currentLocation := Some(Location(position.value.0, position.value.1, "現在地"));
      } else {
        error := Some(ErrorMessage(position.thrown, "現在地の取得に失敗しました"));
      }
      isLoading := false;
    }

    /** `addFavoriteLocation`: appended without de-duplication, then
        persisted; a failed write keeps the new list but not the copy. */
    method AddFavoriteLocation(location: Location, write: Call<()>)
      modifies this
      ensures favorites == old(favorites) + [location] && !isLoading
      ensures write.Resolved? ==> stored == Some(favorites) && error == None
      ensures write.Rejected? ==>
                stored == old(stored) && error == Some(ErrorMessage(write.thrown, "お気に入りの追加に失敗しました"))
      ensures locations == old(locations) && currentLocation == old(currentLocation)
    {
      isLoading := true;
      error := None;
      favorites := favorites + [location];
      if write.Resolved? {
        stored := Some(favorites);
      } else {
        error := Some(ErrorMessage(write.thrown, "お気に入りの追加に失敗しました"));
      }
      isLoading := false;
    }

    /** `removeFavoriteLocation`: every favourite at the coordinates goes,
        then the list is persisted. */
    method RemoveFavoriteLocation(location: Location, write: Call<()>)
      modifies this
      ensures favorites == RemoveFavorite(old(favorites), location) && !isLoading
      ensures write.Resolved? ==> stored == Some(favorites) && error == None
      ensures write.Rejected? ==>
                stored == old(stored) && error == Some(ErrorMessage(write.thrown, "お気に入りの削除に失敗しました"))
      ensures locations == old(locations) && currentLocation == old(currentLocation)
    {
      isLoading := true;
      error := None;
      favorites := RemoveFavorite(favorites, location);
      if write.Resolved? {
        stored := Some(favorites);
      } else {
        error := Some(ErrorMessage(write.thrown, "お気に入りの削除に失敗しました"));
      }
      isLoading := false;
    }

    /** `getFavoriteLocations`: the stored list replaces the favourites;
        nothing stored leaves them as they are. */
    method GetFavoriteLocations()
      modifies this
      ensures stored.Some? ==> favorites == stored.value
      ensures stored.None? ==> favorites == old(favorites)
      ensures !isLoading && error == None
      ensures stored == old(stored) && locations == old(locations) && currentLocation == old(currentLocation)
    {
      isLoading := true;
      error := None;
      if stored.Some? {
        favorites := stored.value;
      }
      isLoading := false;
    }
  }

  /** After a successful write, reloading restores exactly what was saved. */
  method SaveThenReload(c: LocationController, location: Location)
    modifies c
    ensures c.favorites == old(c.favorites) + [location]
    ensures c.stored == Some(c.favorites)
  {
    c.AddFavoriteLocation(location, Resolved(()));
    c.GetFavoriteLocations();
  }
}
