/// `InMemoryOutfitPostRepository`: outfit posts in a map keyed by ID.
/// Locking is left out: every operation is atomic.
module OutfitPostRepository {
  import opened Common
  import opened Text
  import opened Stores
  import opened FashionEntity

  const NotFound: string := "outfit post not found"

  /** The ID `Create` assigns to an item without one, for a store of `size`
      entries. */
  function GeneratedId(size: nat): (id: string)
    ensures StartsWith(id, "outfit_") && |id| > |"outfit_"|
    ensures id[|"outfit_"|..] == NatToString(size + 1)
  {
    "outfit_" + NatToString(size + 1)
  }

  /** Different store sizes give different generated IDs. */
  lemma GeneratedIdInjective(a: nat, b: nat)
    ensures GeneratedId(a) == GeneratedId(b) <==> a == b
  {
    if GeneratedId(a) == GeneratedId(b) {
      assert GeneratedId(a)[|"outfit_"|..] == GeneratedId(b)[|"outfit_"|..];
      NatToStringInjective(a + 1, b + 1);
    }
  }

  /** The keys whose item belongs to `userId`. */
  function OwnedKeys(m: map<string, OutfitPost>, userId: string): set<string>
  {
    set k | k in m && m[k].userId == userId
  }

  /** The ID field, as the key a stored value is kept under. */
  function KeyOf(x: OutfitPost): string
  {
    x.id
  }

  class InMemoryOutfitPostRepository {
    var outfitPosts: map<string, OutfitPost>

    /** Every item is stored under its own ID. */
    ghost predicate Valid()
      reads this
    {
      forall k :: k in outfitPosts ==> outfitPosts[k].id == k
    }

    constructor ()
      ensures outfitPosts == map[]
      ensures Valid()
    {
      outfitPosts := map[];
    }

    /** `Create` never fails: an empty ID is replaced by the generated one,
        and the item is stored under its ID, overwriting any entry there. */
    method Create(item: OutfitPost) returns (stored: OutfitPost)
      requires Valid()
      modifies this
      ensures Valid()
      ensures item.id != "" ==> stored == item
      ensures item.id == "" ==> stored == item.(id := GeneratedId(|old(outfitPosts)|))
      ensures outfitPosts == old(outfitPosts)[stored.id := stored]
    {
      stored := item;
      if stored.id == "" {
        stored := stored.(id := GeneratedId(|outfitPosts|));
      }
      outfitPosts := outfitPosts[stored.id := stored];
    }

    /** `GetByID` */
    method GetByID(id: string) returns (r: Result<OutfitPost>)
      ensures id in outfitPosts ==> r == Ok(outfitPosts[id])
      ensures id !in outfitPosts ==> r == Err(NotFound)
    {
      if id !in outfitPosts {
        return Err(NotFound);
      }
      return Ok(outfitPosts[id]);
    }

    /** `GetByUserID`: one copy of each item owned by `userId`, in the
        unspecified order of map iteration. */
    method GetByUserID(userId: string) returns (r: seq<OutfitPost>)
      requires Valid()
      ensures forall i :: 0 <= i < |r| ==> r[i].id in outfitPosts && outfitPosts[r[i].id] == r[i]
      ensures forall i, j :: 0 <= i < j < |r| ==> r[i].id != r[j].id
      ensures IdsOf(r, KeyOf) == OwnedKeys(outfitPosts, userId)
    {
      r := [];
      var rest := outfitPosts.Keys;
      while rest != {}
        invariant rest <= outfitPosts.Keys
        invariant Gathered(outfitPosts, r, rest, KeyOf)
        invariant IdsOf(r, KeyOf) == OwnedKeys(outfitPosts, userId) - rest
        decreases rest
      {
        var k :| k in rest;
        if outfitPosts[k].userId == userId {
          GatherTake(outfitPosts, r, rest, k, KeyOf);
          r := r + [outfitPosts[k]];
        } else {
          GatherSkip(outfitPosts, r, rest, k, KeyOf);
        }
        rest := rest - {k};
      }
    }

    /** `GetAll`: one copy of each stored post, in the unspecified order of
        map iteration. */
    method GetAll() returns (r: seq<OutfitPost>)
      requires Valid()
      ensures forall i :: 0 <= i < |r| ==> r[i].id in outfitPosts && outfitPosts[r[i].id] == r[i]
      ensures forall i, j :: 0 <= i < j < |r| ==> r[i].id != r[j].id
      ensures IdsOf(r, KeyOf) == outfitPosts.Keys
      ensures |r| == |outfitPosts|
    {
      r := [];
      var rest := outfitPosts.Keys;
      while rest != {}
        invariant rest <= outfitPosts.Keys
        invariant Gathered(outfitPosts, r, rest, KeyOf)
        invariant IdsOf(r, KeyOf) == outfitPosts.Keys - rest
        invariant |r| + |rest| == |outfitPosts.Keys|
        decreases rest
      {
        var k :| k in rest;
        GatherTake(outfitPosts, r, rest, k, KeyOf);
        r := r + [outfitPosts[k]];
        rest := rest - {k};
      }
    }

    /** `Update` fails on an unknown ID; otherwise it replaces that entry. */
    method Update(item: OutfitPost) returns (r: Option<string>)
      requires Valid()
      modifies this
      ensures Valid()
      ensures item.id !in old(outfitPosts) ==> r == Some(NotFound) && outfitPosts == old(outfitPosts)
      ensures item.id in old(outfitPosts) ==> r == None && outfitPosts == old(outfitPosts)[item.id := item]
    {
      if item.id !in outfitPosts {
        return Some(NotFound);
      }
      outfitPosts := outfitPosts[item.id := item];
      return None;
    }

    /** `Delete` fails on an unknown ID; otherwise it removes that key. */
    method Delete(id: string) returns (r: Option<string>)
      requires Valid()
      modifies this
      ensures Valid()
      ensures id !in old(outfitPosts) ==> r == Some(NotFound) && outfitPosts == old(outfitPosts)
      ensures id in old(outfitPosts) ==> r == None && outfitPosts == old(outfitPosts) - {id}
    {
      if id !in outfitPosts {
        return Some(NotFound);
      }
      outfitPosts := outfitPosts - {id};
      return None;
    }
  }

}
