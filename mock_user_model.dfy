/// `MockUserModel`: the module-level user array that stands in for the
/// backend. The array is a class field; clocks are parameters (`now` for
/// ISO timestamps, `millis` for `Date.now()`) and the artificial delays are
/// left out.
module MockUserModel {
  import opened Common
  import opened Text
  import opened WebTypes

  const MockPassword: string := "password"
  const LoginFailed: string := "メールアドレスまたはパスワードが正しくありません"
  const EmailTaken: string := "このメールアドレスは既に登録されています"
  const UserNotFound: string := "ユーザーが見つかりません"

  const SeedPreferences: UserPreferences :=
    UserPreferences(["casual"], ["blue", "black"], ["blue", "black"], ["Uniqlo"], "casual", None, "celsius", true, "public")

  /** The preferences of a newly registered user. */
  const DefaultPreferences: UserPreferences :=
    UserPreferences([], [], [], [], "casual", None, "celsius", true, "public")

  /** The one user the array starts with. */
  function SeedUser(now: string): User
  {
    User("1", "テストユーザー", "test@example.com", None, None, None, None, Some(SeedPreferences), now, now)
  }

  /** `users.find(u => u.email === email)`, as the index found. */
  function FindByEmail(users: seq<User>, email: string): (r: Option<nat>)
    ensures r.Some? ==> r.value < |users| && users[r.value].email == email
                        && forall j :: 0 <= j < r.value ==> users[j].email != email
    ensures r.None? <==> forall j :: 0 <= j < |users| ==> users[j].email != email
    decreases |users|
  {
    if users == [] then None
    else if users[0].email == email then Some(0)
    else
      match FindByEmail(users[1..], email)
      case None => None
      case Some(k) => Some(k + 1)
  }

  /** `users.find(u => u.id === id)`, as the index found. */
  function FindById(users: seq<User>, id: string): (r: Option<nat>)
    ensures r.Some? ==> r.value < |users| && users[r.value].id == id
                        && forall j :: 0 <= j < r.value ==> users[j].id != id
    ensures r.None? <==> forall j :: 0 <= j < |users| ==> users[j].id != id
    decreases |users|
  {
    if users == [] then None
    else if users[0].id == id then Some(0)
    else
      match FindById(users[1..], id)
      case None => None
      case Some(k) => Some(k + 1)
  }

  /** `mock_token_${id}_${Date.now()}` */
  function Token(id: string, millis: nat): (t: string)
    ensures StartsWith(t, "mock_token_" + id + "_")
  {
    var prefix := "mock_token_" + id + "_";
    assert (prefix + NatToString(millis))[..|prefix|] == prefix;
    prefix + NatToString(millis)
  }

  /** A `Partial<User>`: `None` leaves a field out. */
  datatype UserPatch = UserPatch(
    id: Option<string>,
    name: Option<string>,
    email: Option<string>,
    gender: Option<Option<string>>,
    age: Option<Option<int>>,
    location: Option<Option<string>>,
    bio: Option<Option<string>>,
    preferences: Option<Option<UserPreferences>>,
    createdAt: Option<string>)

  /** `{ ...user, ...patch, updatedAt: now }` */
  function ApplyPatch(u: User, p: UserPatch, now: string): (r: User)
    ensures r.updatedAt == now
    ensures r.id == (if p.id.Some? then p.id.value else u.id)
    ensures r.name == (if p.name.Some? then p.name.value else u.name)
    ensures r.email == (if p.email.Some? then p.email.value else u.email)
    ensures r.gender == (if p.gender.Some? then p.gender.value else u.gender)
    ensures r.age == (if p.age.Some? then p.age.value else u.age)
    ensures r.location == (if p.location.Some? then p.location.value else u.location)
    ensures r.bio == (if p.bio.Some? then p.bio.value else u.bio)
    ensures r.preferences == (if p.preferences.Some? then p.preferences.value else u.preferences)
    ensures r.createdAt == (if p.createdAt.Some? then p.createdAt.value else u.createdAt)
  {
    User(
      GetOr(p.id, u.id),
      GetOr(p.name, u.name),
      GetOr(p.email, u.email),
      GetOr(p.gender, u.gender),
      GetOr(p.age, u.age),
      GetOr(p.location, u.location),
      GetOr(p.bio, u.bio),
      GetOr(p.preferences, u.preferences),
      GetOr(p.createdAt, u.createdAt),
      now)
  }

  /** The patch that leaves every field out. */
  const EmptyUserPatch := UserPatch(None, None, None, None, None, None, None, None, None)

  /** An empty patch only stamps the update time, and applying the same
      patch twice is applying it once, at the later time. */
  lemma PatchLaws(u: User, p: UserPatch, t1: string, t2: string)
    ensures ApplyPatch(u, EmptyUserPatch, t1) == u.(updatedAt := t1)
    ensures ApplyPatch(ApplyPatch(u, p, t1), p, t2) == ApplyPatch(u, p, t2)
  {
  }

  class MockUserStore {
    var users: seq<User>

    /** Every user after the first has the ID its registration gave it: its
        one-based position. */
    ghost predicate Valid()
      reads this
    {
      |users| >= 1 && forall i :: 1 <= i < |users| ==> users[i].id == NatToString(i + 1)
    }

    constructor (now: string)
      ensures users == [SeedUser(now)] && Valid()
    {
      users := [SeedUser(now)];
    }

    /** `login`: succeeds iff some user has the email and the password is
        the mock password, with the first such user. */
    method Login(credentials: LoginRequest, millis: nat) returns (r: Result<AuthResponse>)
      ensures r.Ok? <==> (exists i :: 0 <= i < |users| && users[i].email == credentials.email)
                         && credentials.password == MockPassword
      ensures r.Err? ==> r.error == LoginFailed
      ensures r.Ok? ==> r.value.user in users && r.value.user.email == credentials.email
      ensures r.Ok? ==> FindByEmail(users, credentials.email).Some?
                        && r.value.user == users[FindByEmail(users, credentials.email).value]
                        && StartsWith(r.value.token, "mock_token_" + r.value.user.id + "_")
    {
      var found := FindByEmail(users, credentials.email);
      if found.None? || credentials.password != MockPassword {
        return Err(LoginFailed);
      }
      var user := users[found.value];
      return Ok(AuthResponse(user, Token(user.id, millis)));
    }

    /** `register`: a taken email fails and changes nothing; otherwise one
        user is appended with the next ID and default preferences. */
    method Register(request: RegisterRequest, now: string, millis: nat) returns (r: Result<AuthResponse>)
      requires Valid()
      modifies this
      ensures Valid()
      ensures r.Err? <==> exists i :: 0 <= i < |old(users)| && old(users)[i].email == request.email
      ensures r.Err? ==> r.error == EmailTaken && users == old(users)
      ensures r.Ok? ==>
                users == old(users) + [r.value.user]
                && r.value.user == User(NatToString(|old(users)| + 1), request.name, request.email,
                                        request.gender, request.age, None, None, Some(DefaultPreferences), now, now)
                && StartsWith(r.value.token, "mock_token_" + r.value.user.id + "_")
    {
      if FindByEmail(users, request.email).Some? {
        return Err(EmailTaken);
      }
      var user := User(NatToString(|users| + 1), request.name, request.email,
                       request.gender, request.age, None, None, Some(DefaultPreferences), now, now);
      users := users + [user];
      return Ok(AuthResponse(user, Token(user.id, millis)));
    }

    /** `getProfile`: always the first user. */
    method GetProfile() returns (u: User)
      requires Valid()
      ensures u == users[0]
    {
      u := users[0];
    }

    /** `getUserById` */
    method GetUserById(userId: string) returns (r: Result<User>)
      ensures r.Ok? <==> exists i :: 0 <= i < |users| && users[i].id == userId
      ensures r.Ok? ==> r.value in users && r.value.id == userId
      ensures r.Ok? ==> FindById(users, userId).Some? && r.value == users[FindById(users, userId).value]
      ensures r.Err? ==> r.error == UserNotFound
    {
      var found := FindById(users, userId);
      if found.None? {
        return Err(UserNotFound);
      }
      return Ok(users[found.value]);
    }

    /** `updateProfile`: rewrites the first user only. */
    method UpdateProfile(patch: UserPatch, now: string) returns (u: User)
      requires Valid()
      modifies this
      ensures Valid()
      ensures u == ApplyPatch(old(users)[0], patch, now)
      ensures users == old(users)[0 := u]
    {
      u := ApplyPatch(users[0], patch, now);
      users := users[0 := u];
    }

    /** `updatePreferences`: replaces the first user's preferences only. */
    method UpdatePreferences(preferences: UserPreferences, now: string) returns (u: User)
      requires Valid()
      modifies this
      ensures Valid()
      ensures u == old(users)[0].(preferences := Some(preferences), updatedAt := now)
      ensures users == old(users)[0 := u]
    {
      u := users[0].(preferences := Some(preferences), updatedAt := now);
      users := users[0 := u];
    }
  }

  /** While the first user keeps the ID "1", every ID in the store is
      distinct. */
  lemma IdsDistinct(users: seq<User>)
    requires |users| >= 1 && users[0].id == "1"
    requires forall i :: 1 <= i < |users| ==> users[i].id == NatToString(i + 1)
    ensures forall i, j :: 0 <= i < j < |users| ==> users[i].id != users[j].id
  {
    forall i, j | 0 <= i < j < |users| ensures users[i].id != users[j].id {
      assert users[i].id == NatToString(i + 1) by {
        if i == 0 {
          assert NatToString(1) == "1";
        }
      }
      if users[i].id == users[j].id {
        NatToStringInjective(i + 1, j + 1);
      }
    }
  }

  /** A user appended after users with other emails is the one an email
      lookup finds. */
  lemma FindAppended(users: seq<User>, u: User)
    requires forall j :: 0 <= j < |users| ==> users[j].email != u.email
    ensures FindByEmail(users + [u], u.email) == Some(|users|)
  {
    var all := users + [u];
    assert all[|users|].email == u.email;
    assert forall j :: 0 <= j < |users| ==> all[j].email != u.email;
  }

  /** A refused registration leaves the store as it was; a registered user
      can then log in with the mock password, and the login finds that very
      user, since no earlier user had the email. */
  method RegisterThenLogin(store: MockUserStore, request: RegisterRequest, now: string, millis: nat)
      returns (registered: Result<AuthResponse>, login: Result<AuthResponse>)
    requires store.Valid()
    modifies store
    ensures registered.Ok? ==> login.Ok? && login.value.user.email == request.email
    ensures registered.Ok? ==> login.Ok? && login.value.user == registered.value.user
    ensures registered.Err? ==> store.users == old(store.users)
  {
    ghost var before := store.users;
    registered := store.Register(request, now, millis);
    if registered.Ok? {
      FindAppended(before, registered.value.user);
    }
    login := store.Login(LoginRequest(request.email, MockPassword), millis);
  }
}
