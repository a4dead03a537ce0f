/// `ClothingUseCase`: creation, ownership-checked update and deletion of
/// clothing items over the clothing repository. Go's `error` results are
/// `Option<string>` (`None` is nil) or the `Err` side of a `Result`.
module ClothingUseCase {
  import opened Common
  import opened ClothingEntity
  import opened ClothingRepository

  /** `CreateClothingRequest`: note that it has no type field. */
  datatype CreateClothingRequest = CreateClothingRequest(
    userId: string,
    name: string,
    category: string,
    color: string,
    brand: string,
    imageUrl: string,
    warmthLevel: int)

  const Unauthorized: string := "unauthorized: user does not own this clothing item"

  /** The item `CreateClothingItem` builds: no ID, no type, zero creation time. */
  function BuildItem(req: CreateClothingRequest): (c: ClothingItem)
    ensures c.id == "" && c.itemType == "" && c.createdAt == 0
    ensures c.userId == req.userId && c.name == req.name && c.category == req.category
    ensures c.color == req.color && c.brand == req.brand && c.imageUrl == req.imageUrl
    ensures c.warmthLevel == req.warmthLevel
  {
    ClothingItem("", req.userId, req.name, "", req.color, req.category, req.brand,
                 req.warmthLevel, req.imageUrl, 0)
  }

  /** Since the request cannot carry a type, no built item passes validation;
      the reported field is the user ID, the name, or else the type. */
  lemma BuiltItemNeverValid(req: CreateClothingRequest)
    ensures Validate(BuildItem(req)).Some?
    ensures Validate(BuildItem(req)).value in {"user ID is required", "name is required", "type is required"}
  {
  }

  /** The six request fields `UpdateClothingItem` copies onto the stored item. */
  function Overwrite(c: ClothingItem, req: CreateClothingRequest): (u: ClothingItem)
    ensures u.id == c.id && u.userId == c.userId && u.itemType == c.itemType && u.createdAt == c.createdAt
    ensures u.name == req.name && u.category == req.category && u.color == req.color
    ensures u.brand == req.brand && u.imageUrl == req.imageUrl && u.warmthLevel == req.warmthLevel
  {
    c.(name := req.name, category := req.category, color := req.color, brand := req.brand,
       imageUrl := req.imageUrl, warmthLevel := req.warmthLevel)
  }

  /** Overwriting keeps an item's validity exactly when the new name, color
      and category are non-empty. */
  lemma OverwriteValidity(c: ClothingItem, req: CreateClothingRequest)
    requires Validate(c) == None
    ensures Validate(Overwrite(c, req)) == None <==> req.name != "" && req.color != "" && req.category != ""
  {
  }

  class ClothingUseCase {
    const repo: InMemoryClothingRepository

    ghost predicate Valid()
      reads this, repo
    {
      repo.Valid()
    }

    constructor (repo: InMemoryClothingRepository)
      ensures this.repo == repo
    {
      this.repo := repo;
    }

    /** `CreateClothingItem`: validation always fails, so it always errors
        and the store is never touched. */
    method CreateClothingItem(req: CreateClothingRequest) returns (r: Result<ClothingItem>)
      requires Valid()
      modifies repo
      ensures Valid()
      ensures r == Err("invalid clothing item data: " + Validate(BuildItem(req)).value)
      ensures repo.clothing == old(repo.clothing)
    {
      var clothing := BuildItem(req);
      var err := Validate(clothing);
      if err.Some? {
        return Err("invalid clothing item data: " + err.value);
      }
      // The repository's Create is never reached: the item has no type.
      assert false;
    }

    /** `UpdateClothingItem`: the item must exist and belong to `userId`, and
        the overwritten item must validate; only then is it written back. */
    method UpdateClothingItem(id: string, userId: string, req: CreateClothingRequest)
      returns (r: Result<ClothingItem>)
      requires Valid()
      modifies repo
      ensures Valid()
      ensures id !in old(repo.clothing) ==>
                r == Err("clothing item not found: " + NotFound) && repo.clothing == old(repo.clothing)
      ensures id in old(repo.clothing) && old(repo.clothing)[id].userId != userId ==>
                r == Err(Unauthorized) && repo.clothing == old(repo.clothing)
      ensures id in old(repo.clothing) && old(repo.clothing)[id].userId == userId ==>
                var u := Overwrite(old(repo.clothing)[id], req);
                if Validate(u).Some? then
                  r == Err("invalid clothing item data: " + Validate(u).value) && repo.clothing == old(repo.clothing)
                else
                  r == Ok(u) && repo.clothing == old(repo.clothing)[id := u]
    {
      var found := repo.GetByID(id);
      if found.Err? {
        return Err("clothing item not found: " + found.error);
      }
      var clothing := found.value;
      if clothing.userId != userId {
        return Err(Unauthorized);
      }
      clothing := Overwrite(clothing, req);
      var err := Validate(clothing);
      if err.Some? {
        return Err("invalid clothing item data: " + err.value);
      }
      var failed := repo.Update(clothing);
      assert failed == None;
      return Ok(clothing);
    }

    /** `DeleteClothingItem`: deletes only an existing item owned by `userId`. */
    method DeleteClothingItem(id: string, userId: string) returns (r: Option<string>)
      requires Valid()
      modifies repo
      ensures Valid()
      ensures id !in old(repo.clothing) ==>
                r == Some("clothing item not found: " + NotFound) && repo.clothing == old(repo.clothing)
      ensures id in old(repo.clothing) && old(repo.clothing)[id].userId != userId ==>
                r == Some(Unauthorized) && repo.clothing == old(repo.clothing)
      ensures id in old(repo.clothing) && old(repo.clothing)[id].userId == userId ==>
                r == None && repo.clothing == old(repo.clothing) - {id}
    {
      var found := repo.GetByID(id);
      if found.Err? {
        return Some("clothing item not found: " + found.error);
      }
      if found.value.userId != userId {
        return Some(Unauthorized);
      }
      r := repo.Delete(id);
    }
  }
}
