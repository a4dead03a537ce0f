/// `OutfitUseCase`: creation, liking and owner-only deletion of outfit posts
/// over the outfit-post repository.
module OutfitUseCase {
  import opened Common
  import opened FashionEntity
  import opened OutfitPostRepository

  /** `CreateOutfitPostRequest`: note that it has no items field. */
  datatype CreateOutfitPostRequest = CreateOutfitPostRequest(
    userId: string,
    userName: string,
    imageUrl: string,
    description: string,
    tags: seq<string>,
    location: string,
    temperature: real)

  const Unauthorized: string := "unauthorized: user does not own this outfit post"

  /** Go's zero `WeatherCondition`. */
  const ZeroWeather: WeatherCondition := WeatherCondition(0.0, 0.0, "", "", 0, 0.0, 0, "", 0)

  /** The post `CreateOutfitPost` builds at clock reading `now`: no ID, no
      items, no likes. */
  function BuildPost(req: CreateOutfitPostRequest, now: int): (p: OutfitPost)
    ensures p.id == "" && p.items == [] && p.likes == 0 && p.createdAt == now
    ensures p.userId == req.userId && p.userName == req.userName && p.imageUrl == req.imageUrl
    ensures p.description == req.description && p.tags == req.tags && p.location == req.location
    ensures p.temperature == req.temperature
  {
    OutfitPost("", req.userId, req.userName, [], req.description, req.tags, ZeroWeather,
               req.temperature, req.location, req.imageUrl, now, 0)
  }

  /** Since the request cannot carry items, no built post passes validation. */
  lemma BuiltPostNeverValid(req: CreateOutfitPostRequest, now: int)
    ensures Validate(BuildPost(req, now)).Some?
  {
  }

  class OutfitUseCase {
    const repo: InMemoryOutfitPostRepository

    ghost predicate Valid()
      reads this, repo
    {
      repo.Valid()
    }

    constructor (repo: InMemoryOutfitPostRepository)
      ensures this.repo == repo
    {
      this.repo := repo;
    }

    /** `CreateOutfitPost`, with the clock reading `now` as a parameter:
        validation always fails, so it always errors without storing. */
    method CreateOutfitPost(req: CreateOutfitPostRequest, now: int) returns (r: Result<OutfitPost>)
      requires Valid()
      modifies repo
      ensures Valid()
      ensures r == Err("invalid outfit post data: " + Validate(BuildPost(req, now)).value)
      ensures repo.outfitPosts == old(repo.outfitPosts)
    {
      var outfitPost := BuildPost(req, now);
      var err := Validate(outfitPost);
      if err.Some? {
        return Err("invalid outfit post data: " + err.value);
      }
      // The repository's Create is never reached: the post has no items.
      assert false;
    }

    /** `LikeOutfitPost`: adds one like to an existing post and changes
        nothing else. `userId` is not consulted. */
    method LikeOutfitPost(id: string, userId: string) returns (r: Option<string>)
      requires Valid()
      modifies repo
      ensures Valid()
      ensures id !in old(repo.outfitPosts) ==>
                r == Some("outfit post not found: " + NotFound) && repo.outfitPosts == old(repo.outfitPosts)
      ensures id in old(repo.outfitPosts) ==>
                r == None
                && repo.outfitPosts == old(repo.outfitPosts)[id := old(repo.outfitPosts)[id].(likes := old(repo.outfitPosts)[id].likes + 1)]
    {
      var found := repo.GetByID(id);
      if found.Err? {
        return Some("outfit post not found: " + found.error);
      }
      var outfitPost := found.value;
      outfitPost := outfitPost.(likes := outfitPost.likes + 1);
      var failed := repo.Update(outfitPost);
      assert failed == None;
      return None;
    }

    /** `DeleteOutfitPost`: deletes only an existing post owned by `userId`. */
    method DeleteOutfitPost(id: string, userId: string) returns (r: Option<string>)
      requires Valid()
      modifies repo
      ensures Valid()
      ensures id !in old(repo.outfitPosts) ==>
                r == Some("outfit post not found: " + NotFound) && repo.outfitPosts == old(repo.outfitPosts)
      ensures id in old(repo.outfitPosts) && old(repo.outfitPosts)[id].userId != userId ==>
                r == Some(Unauthorized) && repo.outfitPosts == old(repo.outfitPosts)
      ensures id in old(repo.outfitPosts) && old(repo.outfitPosts)[id].userId == userId ==>
                r == None && repo.outfitPosts == old(repo.outfitPosts) - {id}
    {
      var found := repo.GetByID(id);
      if found.Err? {
        return Some("outfit post not found: " + found.error);
      }
      if found.value.userId != userId {
        return Some(Unauthorized);
      }
      r := repo.Delete(id);
    }
  }

  /** The same user liking a post twice adds two likes: nothing records who
      has liked a post. */
  method LikeTwice(uc: OutfitUseCase, id: string, userId: string) returns (r1: Option<string>, r2: Option<string>)
    requires uc.Valid() && id in uc.repo.outfitPosts
    modifies uc.repo
    ensures r1 == None && r2 == None
    ensures id in uc.repo.outfitPosts
    ensures uc.repo.outfitPosts[id].likes == old(uc.repo.outfitPosts[id].likes) + 2
  {
    r1 := uc.LikeOutfitPost(id, userId);
    r2 := uc.LikeOutfitPost(id, userId);
  }
}
