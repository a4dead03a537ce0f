/// `useOutfitController`, `useOutfitFilters` and `useOutfitBuilder`. The
/// controller's React state is a class whose fields the actions replace;
/// each awaited model call is an input `Call` holding its outcome.
module OutfitController {
  import opened Common
  import opened Text
  import opened Lists
  import opened WebTypes
  import opened ClothingLists

  // ---------------------------------------------------------------------------
  // List updates keyed by post ID

  /** `prev.map(post => post.id === id ? updated : post)` */
  function ReplacePost(ps: seq<OutfitPost>, id: string, updated: OutfitPost): (r: seq<OutfitPost>)
    ensures |r| == |ps|
    ensures forall i :: 0 <= i < |ps| && ps[i].id == id ==> r[i] == updated
    ensures forall i :: 0 <= i < |ps| && ps[i].id != id ==> r[i] == ps[i]
  {
    seq(|ps|, i requires 0 <= i < |ps| => if ps[i].id == id then updated else ps[i])
  }

  /** The posts whose ID is not `id`. */
  function Without(id: string): OutfitPost -> bool
  {
    (p: OutfitPost) => p.id != id
  }

  /** `prev.filter(post => post.id !== id)` */
  function RemovePost(ps: seq<OutfitPost>, id: string): (r: seq<OutfitPost>)
    ensures |r| <= |ps|
    ensures forall p :: p in r <==> p in ps && p.id != id
  {
    Filter(ps, Without(id))
  }

  /** The like update of `likePost`. */
  function LikeIn(ps: seq<OutfitPost>, id: string): (r: seq<OutfitPost>)
    ensures |r| == |ps|
    ensures forall i :: 0 <= i < |ps| ==> r[i].(likes := ps[i].likes) == ps[i]
    ensures forall i :: 0 <= i < |ps| ==> r[i].likes == ps[i].likes + (if ps[i].id == id then 1 else 0)
  {
    seq(|ps|, i requires 0 <= i < |ps| => if ps[i].id == id then ps[i].(likes := ps[i].likes + 1) else ps[i])
  }

  /** The like update of `unlikePost`: never below zero. */
  function UnlikeIn(ps: seq<OutfitPost>, id: string): (r: seq<OutfitPost>)
    ensures |r| == |ps|
    ensures forall i :: 0 <= i < |ps| ==> r[i].(likes := ps[i].likes) == ps[i]
    ensures forall i :: 0 <= i < |ps| && ps[i].id != id ==> r[i].likes == ps[i].likes
    ensures forall i :: 0 <= i < |ps| && ps[i].id == id ==> r[i].likes == (if ps[i].likes > 0 then ps[i].likes - 1 else 0)
  {
    seq(|ps|, i requires 0 <= i < |ps| =>
      if ps[i].id == id then ps[i].(likes := if ps[i].likes - 1 < 0 then 0 else ps[i].likes - 1) else ps[i])
  }

  predicate LikesNonNegative(ps: seq<OutfitPost>)
  {
    forall i :: 0 <= i < |ps| ==> ps[i].likes >= 0
  }

  /** Deleting removes every post with the ID and keeps all others. */
  lemma RemovePostMeaning(ps: seq<OutfitPost>, id: string)
    ensures forall p :: p in RemovePost(ps, id) <==> p in ps && p.id != id
    ensures (forall p :: p in ps ==> p.id != id) ==> RemovePost(ps, id) == ps
  {
    if forall p :: p in ps ==> p.id != id {
      FilterAll(ps, Without(id));
    }
  }

  /** Updating touches only the posts with that ID: once they are removed,
      an updated list equals the original one. */
  lemma {:induction false} ReplaceTouchesOnlyId(ps: seq<OutfitPost>, id: string, updated: OutfitPost)
    requires updated.id == id
    ensures |ReplacePost(ps, id, updated)| == |ps|
    ensures RemovePost(ReplacePost(ps, id, updated), id) == RemovePost(ps, id)
    ensures forall p :: p in ReplacePost(ps, id, updated) && p.id == id ==> p == updated
    decreases |ps|
  {
    if ps != [] {
      ReplaceTouchesOnlyId(ps[1..], id, updated);
      assert ReplacePost(ps, id, updated)[1..] == ReplacePost(ps[1..], id, updated);
    }
  }

  /** A like only changes like counts: with the post removed, nothing
      changed. */
  lemma {:induction false} LikeTouchesOnlyId(ps: seq<OutfitPost>, id: string)
    ensures RemovePost(LikeIn(ps, id), id) == RemovePost(ps, id)
    decreases |ps|
  {
    if ps != [] {
      LikeTouchesOnlyId(ps[1..], id);
      assert LikeIn(ps, id)[1..] == LikeIn(ps[1..], id);
    }
  }

  /** The same holds for an unlike. */
  lemma {:induction false} UnlikeTouchesOnlyId(ps: seq<OutfitPost>, id: string)
    ensures RemovePost(UnlikeIn(ps, id), id) == RemovePost(ps, id)
    decreases |ps|
  {
    if ps != [] {
      UnlikeTouchesOnlyId(ps[1..], id);
      assert UnlikeIn(ps, id)[1..] == UnlikeIn(ps[1..], id);
    }
  }

  /** Unliking after liking restores a list with non-negative counts, and
      both keep the counts non-negative. */
  lemma UnlikeAfterLike(ps: seq<OutfitPost>, id: string)
    requires LikesNonNegative(ps)
    ensures UnlikeIn(LikeIn(ps, id), id) == ps
    ensures LikesNonNegative(LikeIn(ps, id)) && LikesNonNegative(UnlikeIn(ps, id))
  {
    var r := UnlikeIn(LikeIn(ps, id), id);
    assert forall i :: 0 <= i < |ps| ==> r[i] == ps[i];
  }

  /** A created post is found first, and deleting it again gives back the
      list when no other post had its ID. */
  lemma CreateThenDelete(ps: seq<OutfitPost>, p: OutfitPost)
    requires forall q :: q in ps ==> q.id != p.id
    ensures ([p] + ps)[0] == p
    ensures RemovePost([p] + ps, p.id) == ps
  {
    RemovePostMeaning(ps, p.id);
    FilterAppend([p], ps, Without(p.id));
  }

  // ---------------------------------------------------------------------------
  // The current outfit: one item per category

  function OtherCategory(category: string): ClothingItem -> bool
  {
    (e: ClothingItem) => e.category != category
  }

  /** `[...prev.filter(e => e.category !== item.category), item]` */
  function ReplaceCategory(outfit: seq<ClothingItem>, item: ClothingItem): seq<ClothingItem>
  {
    Filter(outfit, OtherCategory(item.category)) + [item]
  }

  predicate OnePerCategory(outfit: seq<ClothingItem>)
  {
    forall i, j :: 0 <= i < j < |outfit| ==> outfit[i].category != outfit[j].category
  }

  /** Filtering keeps one item per category. */
  lemma {:induction false} FilterOnePerCategory(s: seq<ClothingItem>, keep: ClothingItem -> bool)
    requires OnePerCategory(s)
    ensures OnePerCategory(Filter(s, keep))
    decreases |s|
  {
    if s != [] {
      var t := s[1..];
      FilterOnePerCategory(t, keep);
      var rest := Filter(t, keep);
      var r := Filter(s, keep);
      if keep(s[0]) {
        assert r == [s[0]] + rest;
        forall i, j | 0 <= i < j < |r| ensures r[i].category != r[j].category {
          assert r[j] == rest[j - 1];
          if i == 0 {
            assert rest[j - 1] in t;
            var k :| 0 <= k < |t| && t[k] == rest[j - 1];
            assert t[k] == s[k + 1];
          } else {
            assert r[i] == rest[i - 1];
          }
        }
      } else {
        assert r == rest;
      }
    }
  }

  /** Adding an item leaves at most one item per category, with the new
      item last and nothing else of its category left. */
  lemma ReplaceCategoryMeaning(outfit: seq<ClothingItem>, item: ClothingItem)
    ensures OnePerCategory(outfit) ==> OnePerCategory(ReplaceCategory(outfit, item))
    ensures ReplaceCategory(outfit, item)[|ReplaceCategory(outfit, item)| - 1] == item
    ensures forall x :: x in ReplaceCategory(outfit, item) && x.category == item.category ==> x == item
    ensures forall x :: x in outfit && x.category != item.category ==> x in ReplaceCategory(outfit, item)
  {
    var kept := Filter(outfit, OtherCategory(item.category));
    forall i | 0 <= i < |kept| ensures kept[i].category != item.category {
      assert kept[i] in kept;
      assert OtherCategory(item.category)(kept[i]);
    }
    if OnePerCategory(outfit) {
      FilterOnePerCategory(outfit, OtherCategory(item.category));
    }
  }

  // ---------------------------------------------------------------------------
  // The controller

  /** The `filters` record of the controller; absent keys are `None`. */
  datatype ControllerFilters = ControllerFilters(
    weather: Option<string>,
    season: Option<string>,
    temperature: Option<string>,
    tags: Option<string>,
    searchText: Option<string>,
    sortBy: Option<string>)

  /** The `Partial` record handed to `updateFilters`: `None` leaves a key out
      of the object, `Some(None)` sets it to `undefined` (as the selects do
      for "すべて"), `Some(Some(v))` sets it to `v`. */
  datatype FiltersPatch = FiltersPatch(
    weather: Option<Option<string>>,
    season: Option<Option<string>>,
    temperature: Option<Option<string>>,
    tags: Option<Option<string>>,
    searchText: Option<Option<string>>,
    sortBy: Option<Option<string>>)

  /** `{}`: the patch that mentions no key. */
  const EmptyPatch := FiltersPatch(None, None, None, None, None, None)

  /** `{ ...prev, ...newFilters }`: a key the patch mentions takes the patch's
      value, `undefined` included; any other key keeps its value. */
  function MergeFilters(prev: ControllerFilters, patch: FiltersPatch): (r: ControllerFilters)
    ensures patch.weather.Some? ==> r.weather == patch.weather.value
    ensures patch.weather.None? ==> r.weather == prev.weather
    ensures patch.season.Some? ==> r.season == patch.season.value
    ensures patch.season.None? ==> r.season == prev.season
    ensures patch.temperature.Some? ==> r.temperature == patch.temperature.value
    ensures patch.temperature.None? ==> r.temperature == prev.temperature
    ensures patch.tags.Some? ==> r.tags == patch.tags.value
    ensures patch.tags.None? ==> r.tags == prev.tags
    ensures patch.searchText.Some? ==> r.searchText == patch.searchText.value
    ensures patch.searchText.None? ==> r.searchText == prev.searchText
    ensures patch.sortBy.Some? ==> r.sortBy == patch.sortBy.value
    ensures patch.sortBy.None? ==> r.sortBy == prev.sortBy
  {
    ControllerFilters(
      GetOr(patch.weather, prev.weather),
      GetOr(patch.season, prev.season),
      GetOr(patch.temperature, prev.temperature),
      GetOr(patch.tags, prev.tags),
      GetOr(patch.searchText, prev.searchText),
      GetOr(patch.sortBy, prev.sortBy))
  }

  /** Merging is idempotent, and the empty patch `{}` (what the clear button
      of the posts page sends) changes nothing, so it clears no filter. */
  lemma MergeFiltersLaws(prev: ControllerFilters, patch: FiltersPatch)
    ensures MergeFilters(MergeFilters(prev, patch), patch) == MergeFilters(prev, patch)
    ensures MergeFilters(prev, EmptyPatch) == prev
  {
  }

  /** `e.target.value || undefined`: the empty option becomes `undefined`. */
  function OrUndefined(v: string): (o: Option<string>)
    ensures o.None? <==> v == ""
    ensures o.Some? ==> o.value == v
  {
    if v == "" then None else Some(v)
  }

  /** A select's change sends its key alone, as `value || undefined`: the
      empty option "すべて" clears that filter whatever it held, any other
      option sets it, and the other filters stay. */
  lemma SelectChange(prev: ControllerFilters, v: string)
    ensures MergeFilters(prev, EmptyPatch.(weather := Some(OrUndefined(v))))
            == prev.(weather := if v == "" then None else Some(v))
    ensures MergeFilters(prev, EmptyPatch.(season := Some(OrUndefined(v))))
            == prev.(season := if v == "" then None else Some(v))
    ensures MergeFilters(prev, EmptyPatch.(temperature := Some(OrUndefined(v))))
            == prev.(temperature := if v == "" then None else Some(v))
  {
  }

  class OutfitController {
    var posts: seq<OutfitPost>
    var userPosts: seq<OutfitPost>
    var loading: bool
    var error: Option<string>
    var selectedPost: Option<OutfitPost>
    var currentOutfit: seq<ClothingItem>
    var filters: ControllerFilters

    constructor ()
      ensures posts == [] && userPosts == [] && !loading && error == None
      ensures selectedPost == None && currentOutfit == []
      ensures filters == ControllerFilters(None, None, None, None, None, None)
    {
      posts := [];
      userPosts := [];
      loading := false;
      error := None;
      selectedPost := None;
      currentOutfit := [];
      filters := ControllerFilters(None, None, None, None, None, None);
    }

    /** `handleError`: the error's message, or the operation's fallback. */
    method HandleError(thrown: Thrown, operation: string)
      modifies this
      ensures error == Some(ErrorMessage(thrown, Fallback(operation))) && !loading
      ensures posts == old(posts) && userPosts == old(userPosts) && selectedPost == old(selectedPost)
      ensures currentOutfit == old(currentOutfit) && filters == old(filters)
    {
      error := Some(ErrorMessage(thrown, Fallback(operation)));
      loading := false;
    }

    /** `loadPosts` */
    method LoadPosts(outcome: Call<seq<OutfitPost>>)
      modifies this
      ensures !loading
      ensures outcome.Resolved? ==> posts == outcome.value && error == None
      ensures outcome.Rejected? ==>
                posts == old(posts) && error == Some(ErrorMessage(outcome.thrown, Fallback("投稿読み込み")))
      ensures userPosts == old(userPosts) && selectedPost == old(selectedPost)
      ensures currentOutfit == old(currentOutfit) && filters == old(filters)
    {
      loading := true;
      error := None;
      if outcome.Resolved? {
        posts := outcome.value;
      } else {
        HandleError(outcome.thrown, "投稿読み込み");
      }
      loading := false;
    }

    /** `loadUserPosts` (also exposed as `getUserPosts`) */
    method LoadUserPosts(userId: string, outcome: Call<seq<OutfitPost>>)
      modifies this
      ensures !loading
      ensures outcome.Resolved? ==> userPosts == outcome.value && error == None
      ensures outcome.Rejected? ==>
                userPosts == old(userPosts)
                && error == Some(ErrorMessage(outcome.thrown, Fallback("ユーザー投稿読み込み")))
      ensures posts == old(posts) && selectedPost == old(selectedPost)
      ensures currentOutfit == old(currentOutfit) && filters == old(filters)
    {
      loading := true;
      error := None;
      if outcome.Resolved? {
        userPosts := outcome.value;
      } else {
        HandleError(outcome.thrown, "ユーザー投稿読み込み");
      }
      loading := false;
    }

    /** `createOutfitPost`: the created post goes first in both lists. It
        reports success; `createPost` is the same action without the
        result. */
    method CreateOutfitPost(outcome: Call<OutfitPost>) returns (ok: bool)
      modifies this
      ensures ok <==> outcome.Resolved?
      ensures !loading
      ensures ok ==> posts == [outcome.value] + old(posts) && userPosts == [outcome.value] + old(userPosts)
                     && error == None
      ensures !ok ==> posts == old(posts) && userPosts == old(userPosts)
                      && error == Some(ErrorMessage(outcome.thrown, Fallback("投稿作成")))
      ensures selectedPost == old(selectedPost) && currentOutfit == old(currentOutfit) && filters == old(filters)
    {
      loading := true;
      error := None;
      if outcome.Resolved? {
        posts := [outcome.value] + posts;
        userPosts := [outcome.value] + userPosts;
        ok := true;
      } else {
        HandleError(outcome.thrown, "投稿作成");
        ok := false;
      }
      loading := false;
    }

    /** `updatePost`: every post with the ID is replaced in both lists, and
        the selection is replaced iff it has that ID. */
    method UpdatePost(id: string, outcome: Call<OutfitPost>)
      modifies this
      ensures !loading
      ensures outcome.Resolved? ==>
                posts == ReplacePost(old(posts), id, outcome.value)
                && userPosts == ReplacePost(old(userPosts), id, outcome.value)
                && selectedPost == (if old(selectedPost).Some? && old(selectedPost).value.id == id
                                    then Some(outcome.value) else old(selectedPost))
                && error == None
      ensures outcome.Rejected? ==>
                posts == old(posts) && userPosts == old(userPosts) && selectedPost == old(selectedPost)
                && error == Some(ErrorMessage(outcome.thrown, Fallback("投稿更新")))
      ensures currentOutfit == old(currentOutfit) && filters == old(filters)
    {
      loading := true;
      error := None;
      if outcome.Resolved? {
        posts := ReplacePost(posts, id, outcome.value);
        userPosts := ReplacePost(userPosts, id, outcome.value);
        if selectedPost.Some? && selectedPost.value.id == id {
          selectedPost := Some(outcome.value);
        }
      } else {
        HandleError(outcome.thrown, "投稿更新");
      }
      loading := false;
    }

    /** `deletePost`: every post with the ID leaves both lists, and a matching
        selection is cleared. */
    method DeletePost(id: string, outcome: Call<()>)
      modifies this
      ensures !loading
      ensures outcome.Resolved? ==>
                posts == RemovePost(old(posts), id) && userPosts == RemovePost(old(userPosts), id)
                && selectedPost == (if old(selectedPost).Some? && old(selectedPost).value.id == id
                                    then None else old(selectedPost))
                && error == None
      ensures outcome.Rejected? ==>
                posts == old(posts) && userPosts == old(userPosts) && selectedPost == old(selectedPost)
                && error == Some(ErrorMessage(outcome.thrown, Fallback("投稿削除")))
      ensures currentOutfit == old(currentOutfit) && filters == old(filters)
    {
      loading := true;
      error := None;
      if outcome.Resolved? {
        posts := RemovePost(posts, id);
        userPosts := RemovePost(userPosts, id);
        if selectedPost.Some? && selectedPost.value.id == id {
          selectedPost := None;
        }
      } else {
        HandleError(outcome.thrown, "投稿削除");
      }
      loading := false;
    }

    /** `likePost`: no loading flag; a failure still clears `loading`
        through `handleError`. */
    method LikePost(postId: string, outcome: Call<()>)
      modifies this
      ensures outcome.Resolved? ==>
                posts == LikeIn(old(posts), postId) && userPosts == LikeIn(old(userPosts), postId)
                && error == old(error) && loading == old(loading)
      ensures outcome.Rejected? ==>
                posts == old(posts) && userPosts == old(userPosts) && !loading
                && error == Some(ErrorMessage(outcome.thrown, Fallback("いいね")))
      ensures selectedPost == old(selectedPost) && currentOutfit == old(currentOutfit) && filters == old(filters)
    {
      if outcome.Resolved? {
        posts := LikeIn(posts, postId);
        userPosts := LikeIn(userPosts, postId);
      } else {
        HandleError(outcome.thrown, "いいね");
      }
    }

    /** `unlikePost`: like `likePost`, with counts floored at zero. */
    method UnlikePost(postId: string, outcome: Call<()>)
      modifies this
      ensures outcome.Resolved? ==>
                posts == UnlikeIn(old(posts), postId) && userPosts == UnlikeIn(old(userPosts), postId)
                && error == old(error) && loading == old(loading)
      ensures outcome.Rejected? ==>
                posts == old(posts) && userPosts == old(userPosts) && !loading
                && error == Some(ErrorMessage(outcome.thrown, Fallback("いいね取り消し")))
      ensures selectedPost == old(selectedPost) && currentOutfit == old(currentOutfit) && filters == old(filters)
    {
      if outcome.Resolved? {
        posts := UnlikeIn(posts, postId);
        userPosts := UnlikeIn(userPosts, postId);
      } else {
        HandleError(outcome.thrown, "いいね取り消し");
      }
    }

    method SelectPost(post: Option<OutfitPost>)
      modifies this
      ensures selectedPost == post
      ensures posts == old(posts) && userPosts == old(userPosts) && loading == old(loading)
      ensures error == old(error) && currentOutfit == old(currentOutfit) && filters == old(filters)
    {
      selectedPost := post;
    }

    /** `addToCurrentOutfit` (also `addToOutfit`): an item replaces the one of
        its category. */
    method AddToCurrentOutfit(item: ClothingItem)
      modifies this
      ensures currentOutfit == ReplaceCategory(old(currentOutfit), item)
      ensures OnePerCategory(old(currentOutfit)) ==> OnePerCategory(currentOutfit)
      ensures posts == old(posts) && userPosts == old(userPosts) && loading == old(loading)
      ensures error == old(error) && selectedPost == old(selectedPost) && filters == old(filters)
    {
      ReplaceCategoryMeaning(currentOutfit, item);
      currentOutfit := ReplaceCategory(currentOutfit, item);
    }

    /** `removeFromCurrentOutfit` (also `removeFromOutfit`) */
    method RemoveFromCurrentOutfit(itemId: string)
      modifies this
      ensures currentOutfit == RemoveItem(old(currentOutfit), itemId)
      ensures posts == old(posts) && userPosts == old(userPosts) && loading == old(loading)
      ensures error == old(error) && selectedPost == old(selectedPost) && filters == old(filters)
    {
      currentOutfit := RemoveItem(currentOutfit, itemId);
    }

    /** `clearCurrentOutfit` (also `clearOutfit`) */
    method ClearCurrentOutfit()
      modifies this
      ensures currentOutfit == []
      ensures posts == old(posts) && userPosts == old(userPosts) && loading == old(loading)
      ensures error == old(error) && selectedPost == old(selectedPost) && filters == old(filters)
    {
      currentOutfit := [];
    }

    method ClearError()
      modifies this
      ensures error == None
      ensures posts == old(posts) && userPosts == old(userPosts) && loading == old(loading)
      ensures currentOutfit == old(currentOutfit) && selectedPost == old(selectedPost) && filters == old(filters)
    {
      error := None;
    }

    method UpdateFilters(patch: FiltersPatch)
      modifies this
      ensures filters == MergeFilters(old(filters), patch)
      ensures posts == old(posts) && userPosts == old(userPosts) && loading == old(loading)
      ensures error == old(error) && currentOutfit == old(currentOutfit) && selectedPost == old(selectedPost)
    {
      filters := MergeFilters(filters, patch);
    }
  }

  // ---------------------------------------------------------------------------
  // useOutfitFilters

  /** The filter state of `useOutfitFilters`. The temperature is the
      `parseFloat` of the text field: `None` when the field is empty or does
      not parse, since a NaN comparison never rejects. */
  datatype PostFilters = PostFilters(
    temperature: Option<real>,
    weather: string,
    tags: string,
    searchText: string,
    sortBy: string)

  const ClearedFilters: PostFilters := PostFilters(None, "", "", "", "newest")

  /** The filter's tags: lower-cased, split on commas, trimmed. There is
      one more piece than there are commas, and each is free of commas,
      of upper-case letters and of whitespace at either end. */
  function FilterTags(tags: string): (r: seq<string>)
    ensures |r| == CountChar(tags, ',') + 1
    ensures forall i :: 0 <= i < |r| ==> ',' !in r[i]
    ensures forall i, c :: 0 <= i < |r| && c in r[i] ==> !('A' <= c <= 'Z')
    ensures forall i :: 0 <= i < |r| && r[i] != [] ==> !IsWhitespace(r[i][0]) && !IsWhitespace(r[i][|r[i]| - 1])
  {
    var pieces := Split(Lower(tags), ',');
    LowerCount(tags, ',');
    FilterTagsChars(tags);
    seq(|pieces|, i requires 0 <= i < |pieces| => Trim(pieces[i]))
  }

  /** A trimmed piece of the lower-cased filter holds neither a comma nor
      an upper-case letter. */
  lemma FilterTagsChars(tags: string)
    ensures forall i, c :: 0 <= i < |Split(Lower(tags), ',')| && c in Trim(Split(Lower(tags), ',')[i]) ==>
              c != ',' && !('A' <= c <= 'Z')
  {
    var pieces := Split(Lower(tags), ',');
    forall i, c | 0 <= i < |pieces| && c in Trim(pieces[i]) ensures c != ',' && !('A' <= c <= 'Z') {
      var low := Lower(tags);
      TrimWithin(pieces[i], c);
      assert ',' !in pieces[i];
      assert c in low;
    }
  }

  /** The post's tags, lower-cased. */
  function PostTags(p: OutfitPost): (r: seq<string>)
    ensures |r| == |p.tags|
    ensures forall i :: 0 <= i < |r| ==> r[i] == Lower(p.tags[i])
  {
    seq(|p.tags|, i requires 0 <= i < |p.tags| => Lower(p.tags[i]))
  }

  predicate WithinFive(postTemperature: real, t: real)
  {
    -5.0 <= postTemperature - t <= 5.0
  }

  /** The filter callback of `filteredPosts`. The cleared filters keep
      every post, and a set temperature keeps only posts within five
      degrees of it. */
  function KeepPost(p: OutfitPost, f: PostFilters): (keep: bool)
    ensures f == ClearedFilters ==> keep
    ensures keep && f.temperature.Some? ==> f.temperature.value - 5.0 <= p.temperature <= f.temperature.value + 5.0
  {
    (f.temperature.None? || WithinFive(p.temperature, f.temperature.value))
    && (f.weather == "" || Contains(Lower(p.description), Lower(f.weather)))
    && (f.tags == "" || exists t :: t in FilterTags(f.tags) && t in PostTags(p))
    && (f.searchText == ""
        || Contains(Lower(p.description), Lower(f.searchText))
        || exists t :: t in p.tags && Contains(Lower(t), Lower(f.searchText)))
  }

  function Keeper(f: PostFilters): OutfitPost -> bool
  {
    (p: OutfitPost) => KeepPost(p, f)
  }

  function NewestFirst(p: OutfitPost): int { -p.createdAt }
  function OldestFirst(p: OutfitPost): int { p.createdAt }
  function MostLiked(p: OutfitPost): int { -p.likes }

  /** The comparator of `filteredPosts`; any other `sortBy` compares every
      pair equal, which a stable sort leaves in place. */
  function SortPosts(ps: seq<OutfitPost>, sortBy: string): (r: seq<OutfitPost>)
    ensures multiset(r) == multiset(ps)
    ensures sortBy !in {"newest", "oldest", "likes"} ==> r == ps
  {
    SortBySortedPermutation(ps, NewestFirst);
    SortBySortedPermutation(ps, OldestFirst);
    SortBySortedPermutation(ps, MostLiked);
    if sortBy == "newest" then SortBy(ps, NewestFirst)
    else if sortBy == "oldest" then SortBy(ps, OldestFirst)
    else if sortBy == "likes" then SortBy(ps, MostLiked)
    else ps
  }

  /** `filteredPosts` */
  function FilteredPosts(posts: seq<OutfitPost>, f: PostFilters): seq<OutfitPost>
  {
    SortPosts(Filter(posts, Keeper(f)), f.sortBy)
  }

  /** Sorting only reorders: the same posts, each as often. */
  lemma SortPostsPermutation(ps: seq<OutfitPost>, sortBy: string)
    ensures multiset(SortPosts(ps, sortBy)) == multiset(ps)
    ensures forall p :: p in SortPosts(ps, sortBy) <==> p in ps
  {
    if sortBy == "newest" {
      SortBySortedPermutation(ps, NewestFirst);
    } else if sortBy == "oldest" {
      SortBySortedPermutation(ps, OldestFirst);
    } else if sortBy == "likes" {
      SortBySortedPermutation(ps, MostLiked);
    }
    var r := SortPosts(ps, sortBy);
    forall p ensures p in r <==> p in ps {
      assert p in r <==> p in multiset(r);
      assert p in ps <==> p in multiset(ps);
    }
  }

  /** Sorting orders as `sortBy` asks and leaves the list alone for any
      other value. */
  lemma SortPostsOrder(ps: seq<OutfitPost>, sortBy: string)
    ensures sortBy == "newest" ==> forall i, j :: 0 <= i < j < |SortPosts(ps, sortBy)| ==>
              SortPosts(ps, sortBy)[i].createdAt >= SortPosts(ps, sortBy)[j].createdAt
    ensures sortBy == "oldest" ==> forall i, j :: 0 <= i < j < |SortPosts(ps, sortBy)| ==>
              SortPosts(ps, sortBy)[i].createdAt <= SortPosts(ps, sortBy)[j].createdAt
    ensures sortBy == "likes" ==> forall i, j :: 0 <= i < j < |SortPosts(ps, sortBy)| ==>
              SortPosts(ps, sortBy)[i].likes >= SortPosts(ps, sortBy)[j].likes
    ensures sortBy !in {"newest", "oldest", "likes"} ==> SortPosts(ps, sortBy) == ps
  {
    var r := SortPosts(ps, sortBy);
    if sortBy == "newest" {
      SortBySortedPermutation(ps, NewestFirst);
      assert forall i, j :: 0 <= i < j < |r| ==> NewestFirst(r[i]) <= NewestFirst(r[j]);
    } else if sortBy == "oldest" {
      SortBySortedPermutation(ps, OldestFirst);
    } else if sortBy == "likes" {
      SortBySortedPermutation(ps, MostLiked);
      assert forall i, j :: 0 <= i < j < |r| ==> MostLiked(r[i]) <= MostLiked(r[j]);
    }
  }

  /** The result is a reordering of exactly the posts the filter keeps,
      ordered as `sortBy` asks. */
  lemma FilteredPostsMeaning(posts: seq<OutfitPost>, f: PostFilters)
    ensures multiset(FilteredPosts(posts, f)) == multiset(Filter(posts, Keeper(f)))
    ensures forall p :: p in FilteredPosts(posts, f) <==> p in posts && KeepPost(p, f)
    ensures f.sortBy == "newest" ==> forall i, j :: 0 <= i < j < |FilteredPosts(posts, f)| ==>
              FilteredPosts(posts, f)[i].createdAt >= FilteredPosts(posts, f)[j].createdAt
    ensures f.sortBy == "oldest" ==> forall i, j :: 0 <= i < j < |FilteredPosts(posts, f)| ==>
              FilteredPosts(posts, f)[i].createdAt <= FilteredPosts(posts, f)[j].createdAt
    ensures f.sortBy == "likes" ==> forall i, j :: 0 <= i < j < |FilteredPosts(posts, f)| ==>
              FilteredPosts(posts, f)[i].likes >= FilteredPosts(posts, f)[j].likes
    ensures f.sortBy !in {"newest", "oldest", "likes"} ==> FilteredPosts(posts, f) == Filter(posts, Keeper(f))
  {
    var kept := Filter(posts, Keeper(f));
    SortPostsPermutation(kept, f.sortBy);
    SortPostsOrder(kept, f.sortBy);
    assert forall p :: p in kept <==> p in posts && KeepPost(p, f);
  }

  /** A set temperature keeps only posts within five degrees of it, and the
      cleared filters keep every post. */
  lemma FilterBounds(posts: seq<OutfitPost>, f: PostFilters)
    ensures f.temperature.Some? ==> forall p :: p in FilteredPosts(posts, f) ==>
              f.temperature.value - 5.0 <= p.temperature <= f.temperature.value + 5.0
    ensures multiset(FilteredPosts(posts, ClearedFilters)) == multiset(posts)
  {
    FilteredPostsMeaning(posts, f);
    FilteredPostsMeaning(posts, ClearedFilters);
    FilterAll(posts, Keeper(ClearedFilters));
  }

  /** The tag filter keeps a post iff some lower-cased tag of it equals a
      trimmed piece of the lower-cased filter. */
  lemma TagFilterMeaning(p: OutfitPost, f: PostFilters)
    requires f.temperature.None? && f.weather == "" && f.searchText == "" && f.tags != ""
    ensures KeepPost(p, f) <==>
              exists i, j :: 0 <= i < |Split(Lower(f.tags), ',')| && 0 <= j < |p.tags|
                             && Trim(Split(Lower(f.tags), ',')[i]) == Lower(p.tags[j])
  {
    var ft := FilterTags(f.tags);
    var pt := PostTags(p);
    if KeepPost(p, f) {
      var t :| t in ft && t in pt;
      var i :| 0 <= i < |ft| && ft[i] == t;
      var j :| 0 <= j < |pt| && pt[j] == t;
      assert Trim(Split(Lower(f.tags), ',')[i]) == Lower(p.tags[j]);
    }
    if exists i, j :: 0 <= i < |Split(Lower(f.tags), ',')| && 0 <= j < |p.tags|
                      && Trim(Split(Lower(f.tags), ',')[i]) == Lower(p.tags[j]) {
      var i, j :| 0 <= i < |Split(Lower(f.tags), ',')| && 0 <= j < |p.tags|
                  && Trim(Split(Lower(f.tags), ',')[i]) == Lower(p.tags[j]);
      assert ft[i] in ft && pt[j] in pt;
    }
  }

  /** The `useOutfitFilters` hook's state. */
  class OutfitFilters {
    var filters: PostFilters

    constructor ()
      ensures filters == ClearedFilters
    {
      filters := ClearedFilters;
    }

    function FilteredPostsOf(posts: seq<OutfitPost>): seq<OutfitPost>
      reads this
    {
      FilteredPosts(posts, filters)
    }

    /** `clearFilters` */
    method ClearFilters()
      modifies this
      ensures filters == ClearedFilters
    {
      filters := ClearedFilters;
    }

    /** `updateFilter(key, value)`: sets the one field named by `key`.
        `parsed` is `Number.parseFloat(value)` (`None` for an empty or
        unparsable text), which is what the temperature field keeps. Any
        other key changes no field the filter reads. */
    method UpdateFilter(key: string, value: string, parsed: Option<real>)
      modifies this
      ensures key == "temperature" ==> filters == old(filters).(temperature := parsed)
      ensures key == "weather" ==> filters == old(filters).(weather := value)
      ensures key == "tags" ==> filters == old(filters).(tags := value)
      ensures key == "searchText" ==> filters == old(filters).(searchText := value)
      ensures key == "sortBy" ==> filters == old(filters).(sortBy := value)
      ensures key !in {"temperature", "weather", "tags", "searchText", "sortBy"} ==> filters == old(filters)
    {
      match key {
        case "temperature" => filters := filters.(temperature := parsed);
        case "weather" => filters := filters.(weather := value);
        case "tags" => filters := filters.(tags := value);
        case "searchText" => filters := filters.(searchText := value);
        case "sortBy" => filters := filters.(sortBy := value);
        case _ =>
      }
    }
  }

  // ---------------------------------------------------------------------------
  // useOutfitBuilder

  datatype Slot = Top | Bottom | Shoes | Outerwear | Accessories

  /** The `switch (item.category)` of `addToOutfit`. */
  function SlotOf(category: string): (s: Option<Slot>)
    ensures s == Some(Top) <==> category in {"tops", "shirts"}
    ensures s == Some(Bottom) <==> category in {"bottoms", "pants", "skirts"}
    ensures s == Some(Shoes) <==> category == "shoes"
    ensures s == Some(Outerwear) <==> category in {"outerwear", "jackets"}
    ensures s == Some(Accessories) <==> category == "accessories"
  {
    if category == "tops" || category == "shirts" then Some(Top)
    else if category == "bottoms" || category == "pants" || category == "skirts" then Some(Bottom)
    else if category == "shoes" then Some(Shoes)
    else if category == "outerwear" || category == "jackets" then Some(Outerwear)
    else if category == "accessories" then Some(Accessories)
    else None
  }

  /** `[...prev.filter(acc => acc.id !== item.id), item]` */
  function AddAccessory(accessories: seq<ClothingItem>, item: ClothingItem): seq<ClothingItem>
  {
    RemoveItem(accessories, item.id) + [item]
  }

  /** Adding an accessory keeps the IDs distinct and holds it exactly once. */
  lemma AddAccessoryMeaning(accessories: seq<ClothingItem>, item: ClothingItem)
    requires DistinctIds(accessories)
    ensures DistinctIds(AddAccessory(accessories, item))
    ensures forall x :: x in AddAccessory(accessories, item) && x.id == item.id ==> x == item
  {
    RemoveItemKeepsDistinct(accessories, item.id);
    RemoveItemMeaning(accessories, item.id);
    var kept := RemoveItem(accessories, item.id);
    assert forall i :: 0 <= i < |kept| ==> kept[i] in kept && kept[i].id != item.id;
  }

  /** The `useOutfitBuilder` hook's state: one slot per garment group and a
      list of accessories. */
  class OutfitBuilder {
    var top: Option<ClothingItem>
    var bottom: Option<ClothingItem>
    var shoes: Option<ClothingItem>
    var outerwear: Option<ClothingItem>
    var accessories: seq<ClothingItem>

    /** No accessory appears twice. */
    ghost predicate Valid()
      reads this
    {
      DistinctIds(accessories)
    }

    constructor ()
      ensures top == None && bottom == None && shoes == None && outerwear == None && accessories == []
      ensures Valid()
    {
      top, bottom, shoes, outerwear := None, None, None, None;
      accessories := [];
    }

    /** `addToOutfit`: fills the item's slot, or de-duplicates it into the
        accessories; an unlisted category changes nothing. */
    method AddToOutfit(item: ClothingItem)
      requires Valid()
      modifies this
      ensures Valid()
      ensures top == (if SlotOf(item.category) == Some(Top) then Some(item) else old(top))
      ensures bottom == (if SlotOf(item.category) == Some(Bottom) then Some(item) else old(bottom))
      ensures shoes == (if SlotOf(item.category) == Some(Shoes) then Some(item) else old(shoes))
      ensures outerwear == (if SlotOf(item.category) == Some(Outerwear) then Some(item) else old(outerwear))
      ensures accessories == (if SlotOf(item.category) == Some(Accessories)
                              then AddAccessory(old(accessories), item) else old(accessories))
    {
      var slot := SlotOf(item.category);
      if slot == Some(Top) {
        top := Some(item);
      } else if slot == Some(Bottom) {
        bottom := Some(item);
      } else if slot == Some(Shoes) {
        shoes := Some(item);
      } else if slot == Some(Outerwear) {
        outerwear := Some(item);
      } else if slot == Some(Accessories) {
        AddAccessoryMeaning(accessories, item);
        accessories := AddAccessory(accessories, item);
      }
    }

    /** `removeFromOutfit`: empties a slot by name, or drops the accessories
        with a given (non-empty) ID. */
    method RemoveFromOutfit(category: string, itemId: string)
      requires Valid()
      modifies this
      ensures Valid()
      ensures top == (if category == "top" then None else old(top))
      ensures bottom == (if category == "bottom" then None else old(bottom))
      ensures shoes == (if category == "shoes" then None else old(shoes))
      ensures outerwear == (if category == "outerwear" then None else old(outerwear))
      ensures accessories == (if category == "accessories" && itemId != ""
                              then RemoveItem(old(accessories), itemId) else old(accessories))
    {
      if category == "top" {
        top := None;
      } else if category == "bottom" {
        bottom := None;
      } else if category == "shoes" {
        shoes := None;
      } else if category == "outerwear" {
        outerwear := None;
      } else if category == "accessories" && itemId != "" {
        RemoveItemKeepsDistinct(accessories, itemId);
        accessories := RemoveItem(accessories, itemId);
      }
    }

    method ClearOutfit()
      modifies this
      ensures top == None && bottom == None && shoes == None && outerwear == None && accessories == []
      ensures Valid()
    {
      top, bottom, shoes, outerwear := None, None, None, None;
      accessories := [];
    }

    /** `getOutfitItems`: the filled slots in the order top, bottom, shoes,
        outerwear, then the accessories. */
    method GetOutfitItems() returns (items: seq<ClothingItem>)
      ensures |items| == (if top.Some? then 1 else 0) + (if bottom.Some? then 1 else 0)
                         + (if shoes.Some? then 1 else 0) + (if outerwear.Some? then 1 else 0) + |accessories|
      ensures items == (if top.Some? then [top.value] else []) + (if bottom.Some? then [bottom.value] else [])
                       + (if shoes.Some? then [shoes.value] else []) + (if outerwear.Some? then [outerwear.value] else [])
                       + accessories
      ensures items[|items| - |accessories|..] == accessories
      ensures top.Some? ==> items[0] == top.value
      ensures forall x :: x in items <==>
                x in accessories || Some(x) == top || Some(x) == bottom || Some(x) == shoes || Some(x) == outerwear
    {
      items := [];
      if top.Some? {
        items := items + [top.value];
      }
      if bottom.Some? {
        items := items + [bottom.value];
      }
      if shoes.Some? {
        items := items + [shoes.value];
      }
      if outerwear.Some? {
        items := items + [outerwear.value];
      }
      items := items + accessories;
    }

    /** `isComplete` */
    predicate IsComplete()
      reads this
    {
      top.Some? && bottom.Some? && shoes.Some?
    }
  }

  /** Adding a top, a bottom and shoes completes any outfit. */
  method CompleteByThreeAdds(b: OutfitBuilder, t: ClothingItem, p: ClothingItem, s: ClothingItem)
    requires b.Valid() && t.category == "tops" && p.category == "pants" && s.category == "shoes"
    modifies b
    ensures b.IsComplete()
    ensures b.top == Some(t) && b.bottom == Some(p) && b.shoes == Some(s)
  {
    b.AddToOutfit(t);
    b.AddToOutfit(p);
    b.AddToOutfit(s);
  }
}
