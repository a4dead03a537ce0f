/// `InMemoryFashionRecommendationRepository`: fashion recommendations in a map keyed by ID.
/// Locking is left out: every operation is atomic.
module FashionRecommendationRepository {
  import opened Common
  import opened Text
  import opened Stores
  import opened FashionEntity

  const NotFound: string := "fashion recommendation not found"

  /** The ID `Create` assigns to an item without one, for a store of `size`
      entries. */
  function GeneratedId(size: nat): (id: string)
    ensures StartsWith(id, "recommendation_") && |id| > |"recommendation_"|
    ensures id[|"recommendation_"|..] == NatToString(size + 1)
  {
    "recommendation_" + NatToString(size + 1)
  }

  /** Different store sizes give different generated IDs. */
  lemma GeneratedIdInjective(a: nat, b: nat)
    ensures GeneratedId(a) == GeneratedId(b) <==> a == b
  {
    if GeneratedId(a) == GeneratedId(b) {
      assert GeneratedId(a)[|"recommendation_"|..] == GeneratedId(b)[|"recommendation_"|..];
      NatToStringInjective(a + 1, b + 1);
    }
  }

  /** The keys whose item belongs to `userId`. */
  function OwnedKeys(m: map<string, FashionRecommendation>, userId: string): set<string>
  {
    set k | k in m && m[k].userId == userId
  }

  /** The ID field, as the key a stored value is kept under. */
  function KeyOf(x: FashionRecommendation): string
  {
    x.id
  }

  class InMemoryFashionRecommendationRepository {
    var recommendations: map<string, FashionRecommendation>

    /** Every item is stored under its own ID. */
    ghost predicate Valid()
      reads this
    {
      forall k :: k in recommendations ==> recommendations[k].id == k
    }

    constructor ()
      ensures recommendations == map[]
      ensures Valid()
    {
      recommendations := map[];
    }

    /** `Create` never fails: an empty ID is replaced by the generated one,
        and the item is stored under its ID, overwriting any entry there. */
    method Create(item: FashionRecommendation) returns (stored: FashionRecommendation)
      requires Valid()
      modifies this
      ensures Valid()
      ensures item.id != "" ==> stored == item
      ensures item.id == "" ==> stored == item.(id := GeneratedId(|old(recommendations)|))
      ensures recommendations == old(recommendations)[stored.id := stored]
    {
      stored := item;
      if stored.id == "" {
        stored := stored.(id := GeneratedId(|recommendations|));
      }
      recommendations := recommendations[stored.id := stored];
    }

    /** `GetByID` */
    method GetByID(id: string) returns (r: Result<FashionRecommendation>)
      ensures id in recommendations ==> r == Ok(recommendations[id])
      ensures id !in recommendations ==> r == Err(NotFound)
    {
      if id !in recommendations {
        return Err(NotFound);
      }
      return Ok(recommendations[id]);
    }

    /** `GetByUserID`: one copy of each item owned by `userId`, in the
        unspecified order of map iteration. */
    method GetByUserID(userId: string) returns (r: seq<FashionRecommendation>)
      requires Valid()
      ensures forall i :: 0 <= i < |r| ==> r[i].id in recommendations && recommendations[r[i].id] == r[i]
      ensures forall i, j :: 0 <= i < j < |r| ==> r[i].id != r[j].id
      ensures IdsOf(r, KeyOf) == OwnedKeys(recommendations, userId)
    {
      r := [];
      var rest := recommendations.Keys;
      while rest != {}
        invariant rest <= recommendations.Keys
        invariant Gathered(recommendations, r, rest, KeyOf)
        invariant IdsOf(r, KeyOf) == OwnedKeys(recommendations, userId) - rest
        decreases rest
      {
        var k :| k in rest;
        if recommendations[k].userId == userId {
          GatherTake(recommendations, r, rest, k, KeyOf);
          r := r + [recommendations[k]];
        } else {
          GatherSkip(recommendations, r, rest, k, KeyOf);
        }
        rest := rest - {k};
      }
    }

    /** `Update` fails on an unknown ID; otherwise it replaces that entry. */
    method Update(item: FashionRecommendation) returns (r: Option<string>)
      requires Valid()
      modifies this
      ensures Valid()
      ensures item.id !in old(recommendations) ==> r == Some(NotFound) && recommendations == old(recommendations)
      ensures item.id in old(recommendations) ==> r == None && recommendations == old(recommendations)[item.id := item]
    {
      if item.id !in recommendations {
        return Some(NotFound);
      }
      recommendations := recommendations[item.id := item];
      return None;
    }

    /** `Delete` fails on an unknown ID; otherwise it removes that key. */
    method Delete(id: string) returns (r: Option<string>)
      requires Valid()
      modifies this
      ensures Valid()
      ensures id !in old(recommendations) ==> r == Some(NotFound) && recommendations == old(recommendations)
      ensures id in old(recommendations) ==> r == None && recommendations == old(recommendations) - {id}
    {
      if id !in recommendations {
        return Some(NotFound);
      }
      recommendations := recommendations - {id};
      return None;
    }
  }

}
