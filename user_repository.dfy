/// `InMemoryUserRepository`: users in a map keyed by ID.
/// Locking is left out: every operation is atomic.
module UserRepository {
  import opened Common
  import opened Text
  import opened UserEntity

  const NotFound: string := "ユーザーが見つかりません"

  /** The ID `Create` assigns to an item without one, for a store of `size`
      entries. */
  function GeneratedId(size: nat): (id: string)
    ensures StartsWith(id, "user_") && |id| > |"user_"|
    ensures id[|"user_"|..] == NatToString(size + 1)
  {
    "user_" + NatToString(size + 1)
  }

  /** Different store sizes give different generated IDs. */
  lemma GeneratedIdInjective(a: nat, b: nat)
    ensures GeneratedId(a) == GeneratedId(b) <==> a == b
  {
    if GeneratedId(a) == GeneratedId(b) {
      assert GeneratedId(a)[|"user_"|..] == GeneratedId(b)[|"user_"|..];
      NatToStringInjective(a + 1, b + 1);
    }
  }

  class InMemoryUserRepository {
    var users: map<string, User>

    /** Every item is stored under its own ID. */
    ghost predicate Valid()
      reads this
    {
      forall k :: k in users ==> users[k].id == k
    }

    constructor ()
      ensures users == map[]
      ensures Valid()
    {
      users := map[];
    }

    /** `Create` never fails: an empty ID is replaced by the generated one,
        and the item is stored under its ID, overwriting any entry there. */
    method Create(item: User) returns (stored: User)
      requires Valid()
      modifies this
      ensures Valid()
      ensures item.id != "" ==> stored == item
      ensures item.id == "" ==> stored == item.(id := GeneratedId(|old(users)|))
      ensures users == old(users)[stored.id := stored]
    {
      stored := item;
      if stored.id == "" {
        stored := stored.(id := GeneratedId(|users|));
      }
      users := users[stored.id := stored];
    }

    /** `GetByID` */
    method GetByID(id: string) returns (r: Result<User>)
      ensures id in users ==> r == Ok(users[id])
      ensures id !in users ==> r == Err(NotFound)
    {
      if id !in users {
        return Err(NotFound);
      }
      return Ok(users[id]);
    }

    /** `GetByEmail`: a linear search in the unspecified order of map
        iteration; it finds some user with that email iff there is one. */
    method GetByEmail(email: string) returns (r: Result<User>)
      ensures r.Ok? ==> r.value in users.Values && r.value.email == email
      ensures r.Err? <==> forall k :: k in users ==> users[k].email != email
      ensures r.Err? ==> r.error == NotFound
    {
      var rest := users.Keys;
      while rest != {}
        invariant rest <= users.Keys
        invariant forall k :: k in users.Keys - rest ==> users[k].email != email
        decreases rest
      {
        var k :| k in rest;
        if users[k].email == email {
          return Ok(users[k]);
        }
        rest := rest - {k};
      }
      return Err(NotFound);
    }

    /** `Update` fails on an unknown ID; otherwise it replaces that entry. */
    method Update(item: User) returns (r: Option<string>)
      requires Valid()
      modifies this
      ensures Valid()
      ensures item.id !in old(users) ==> r == Some(NotFound) && users == old(users)
      ensures item.id in old(users) ==> r == None && users == old(users)[item.id := item]
    {
      if item.id !in users {
        return Some(NotFound);
      }
      users := users[item.id := item];
      return None;
    }

    /** `Delete` fails on an unknown ID; otherwise it removes that key. */
    method Delete(id: string) returns (r: Option<string>)
      requires Valid()
      modifies this
      ensures Valid()
      ensures id !in old(users) ==> r == Some(NotFound) && users == old(users)
      ensures id in old(users) ==> r == None && users == old(users) - {id}
    {
      if id !in users {
        return Some(NotFound);
      }
      users := users - {id};
      return None;
    }
  }

}
