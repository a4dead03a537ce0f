/// `InMemoryClothingRepository`: clothing items in a map keyed by ID.
/// Locking is left out: every operation is atomic.
module ClothingRepository {
  import opened Common
  import opened Text
  import opened Stores
  import opened ClothingEntity

  const NotFound: string := "clothing item not found"

  /** The ID `Create` assigns to an item without one, for a store of `size`
      entries. */
  function GeneratedId(size: nat): (id: string)
    ensures StartsWith(id, "clothing_") && |id| > |"clothing_"|
    ensures id[|"clothing_"|..] == NatToString(size + 1)
  {
    "clothing_" + NatToString(size + 1)
  }

  /** Different store sizes give different generated IDs. */
  lemma GeneratedIdInjective(a: nat, b: nat)
    ensures GeneratedId(a) == GeneratedId(b) <==> a == b
  {
    if GeneratedId(a) == GeneratedId(b) {
      assert GeneratedId(a)[|"clothing_"|..] == GeneratedId(b)[|"clothing_"|..];
      NatToStringInjective(a + 1, b + 1);
    }
  }

  /** The keys whose item belongs to `userId`. */
  function OwnedKeys(m: map<string, ClothingItem>, userId: string): set<string>
  {
    set k | k in m && m[k].userId == userId
  }

  /** The ID field, as the key a stored value is kept under. */
  function KeyOf(x: ClothingItem): string
  {
    x.id
  }

  class InMemoryClothingRepository {
    var clothing: map<string, ClothingItem>

    /** Every item is stored under its own ID. */
    ghost predicate Valid()
      reads this
    {
      forall k :: k in clothing ==> clothing[k].id == k
    }

    constructor ()
      ensures clothing == map[]
      ensures Valid()
    {
      clothing := map[];
    }

    /** `Create` never fails: an empty ID is replaced by the generated one,
        and the item is stored under its ID, overwriting any entry there. */
    method Create(item: ClothingItem) returns (stored: ClothingItem)
      requires Valid()
      modifies this
      ensures Valid()
      ensures item.id != "" ==> stored == item
      ensures item.id == "" ==> stored == item.(id := GeneratedId(|old(clothing)|))
      ensures clothing == old(clothing)[stored.id := stored]
    {
      stored := item;
      if stored.id == "" {
        stored := stored.(id := GeneratedId(|clothing|));
      }
      clothing := clothing[stored.id := stored];
    }

    /** `GetByID` */
    method GetByID(id: string) returns (r: Result<ClothingItem>)
      ensures id in clothing ==> r == Ok(clothing[id])
      ensures id !in clothing ==> r == Err(NotFound)
    {
      if id !in clothing {
        return Err(NotFound);
      }
      return Ok(clothing[id]);
    }

    /** `GetByUserID`: one copy of each item owned by `userId`, in the
        unspecified order of map iteration. */
    method GetByUserID(userId: string) returns (r: seq<ClothingItem>)
      requires Valid()
      ensures forall i :: 0 <= i < |r| ==> r[i].id in clothing && clothing[r[i].id] == r[i]
      ensures forall i, j :: 0 <= i < j < |r| ==> r[i].id != r[j].id
      ensures IdsOf(r, KeyOf) == OwnedKeys(clothing, userId)
    {
      r := [];
      var rest := clothing.Keys;
      while rest != {}
        invariant rest <= clothing.Keys
        invariant Gathered(clothing, r, rest, KeyOf)
        invariant IdsOf(r, KeyOf) == OwnedKeys(clothing, userId) - rest
        decreases rest
      {
        var k :| k in rest;
        if clothing[k].userId == userId {
          GatherTake(clothing, r, rest, k, KeyOf);
          r := r + [clothing[k]];
        } else {
          GatherSkip(clothing, r, rest, k, KeyOf);
        }
        rest := rest - {k};
      }
    }

    /** `Update` fails on an unknown ID; otherwise it replaces that entry. */
    method Update(item: ClothingItem) returns (r: Option<string>)
      requires Valid()
      modifies this
      ensures Valid()
      ensures item.id !in old(clothing) ==> r == Some(NotFound) && clothing == old(clothing)
      ensures item.id in old(clothing) ==> r == None && clothing == old(clothing)[item.id := item]
    {
      if item.id !in clothing {
        return Some(NotFound);
      }
      clothing := clothing[item.id := item];
      return None;
    }

    /** `Delete` fails on an unknown ID; otherwise it removes that key. */
    method Delete(id: string) returns (r: Option<string>)
      requires Valid()
      modifies this
      ensures Valid()
      ensures id !in old(clothing) ==> r == Some(NotFound) && clothing == old(clothing)
      ensures id in old(clothing) ==> r == None && clothing == old(clothing) - {id}
    {
      if id !in clothing {
        return Some(NotFound);
      }
      clothing := clothing - {id};
      return None;
    }
  }

  /** The first two generated IDs. */
  lemma FirstGeneratedIds()
    ensures GeneratedId(0) == "clothing_1" && GeneratedId(1) == "clothing_2"
    ensures "clothing_1" != "clothing_2"
  {
    assert NatToString(1) == "1" && NatToString(2) == "2";
    assert "clothing_1"[9] != "clothing_2"[9];
  }

  /** A map with exactly two different keys has two entries. */
  lemma TwoKeys(m: map<string, ClothingItem>, k1: string, k2: string)
    requires k1 != k2 && m.Keys == {k1, k2}
    ensures |m| == 2
  {
    assert m.Keys == {k1} + {k2};
  }

  /** Generated IDs reuse the store size, so after a delete they can hit a
      live entry: two items are created, `clothing_1` is deleted, and the
      third item is given `clothing_2` and replaces the second. */
  method IdCollisionAfterDelete(a: ClothingItem, b: ClothingItem, c: ClothingItem)
    returns (repo: InMemoryClothingRepository, second: ClothingItem)
    requires a.id == "" && b.id == "" && c.id == ""
    ensures second == b.(id := "clothing_2")
    ensures repo.clothing == map["clothing_2" := c.(id := "clothing_2")]
    ensures second != repo.clothing["clothing_2"] <==> b != c
  {
    FirstGeneratedIds();
    repo := new InMemoryClothingRepository();
    var first := repo.Create(a);
    assert repo.clothing == map["clothing_1" := a.(id := "clothing_1")];
    second := repo.Create(b);
    TwoKeys(repo.clothing, "clothing_1", "clothing_2");
    var _ := repo.Delete("clothing_1");
    assert repo.clothing == map["clothing_2" := b.(id := "clothing_2")];
    var third := repo.Create(c);
    if second == third {
      assert b == second.(id := "") && c == third.(id := "");
    }
  }
}
