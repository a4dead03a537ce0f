/// The backend `User` entity: construction, preference update and validation.
module UserEntity {
  import opened Common

  /** Fashion preferences; only `styles` and `colors` are set by
      `UpdatePreferences`. */
  datatype UserPreferences = UserPreferences(
    styles: seq<string>,
    colors: seq<string>,
    preferredColors: seq<string>,
    preferredBrands: seq<string>,
    style: string)

  datatype User = User(
    id: string,
    name: string,
    email: string,
    password: string,
    gender: string,
    age: int,
    preferences: Option<UserPreferences>,
    createdAt: int,
    updatedAt: int)

  /** `(*User).Validate`: name, then email, then password must be non-empty. */
  function Validate(u: User): (err: Option<string>)
    ensures err == None <==> u.name != "" && u.email != "" && u.password != ""
    ensures err == Some("name is required") <==> u.name == ""
    ensures err == Some("email is required") <==> u.name != "" && u.email == ""
    ensures err == Some("password is required") <==> u.name != "" && u.email != "" && u.password == ""
  {
    if u.name == "" then Some("name is required")
    else if u.email == "" then Some("email is required")
    else if u.password == "" then Some("password is required")
    else None
  }

  /** `NewUser`: rejects an empty name, email or password (in that order); on
      success the user passes `Validate` and has no ID, preferences or age. */
  function NewUser(name: string, email: string, password: string, now: int): (r: Result<User>)
    ensures r.Ok? <==> name != "" && email != "" && password != ""
    ensures r.Ok? ==> Validate(r.value) == None
    ensures r.Ok? ==> r.value.name == name && r.value.email == email && r.value.password == password
                      && r.value.id == "" && r.value.preferences == None && r.value.age == 0
                      && r.value.createdAt == now
    ensures r.Err? ==> Some(r.error) == Validate(User("", name, email, password, "", 0, None, now, 0))
  {
    if name == "" then Err("name is required")
    else if email == "" then Err("email is required")
    else if password == "" then Err("password is required")
    else Ok(User("", name, email, password, "", 0, None, now, 0))
  }

  /** `(*User).UpdatePreferences`: the preferences become a fresh record holding
      only the given styles and colors; every other field of the user is kept. */
  function UpdatePreferences(u: User, styles: seq<string>, colors: seq<string>): (r: User)
    ensures r.preferences.Some?
    ensures r.preferences.value.styles == styles && r.preferences.value.colors == colors
    ensures r.preferences.value.preferredColors == [] && r.preferences.value.preferredBrands == []
            && r.preferences.value.style == ""
    ensures r.(preferences := u.preferences) == u
  {
    u.(preferences := Some(UserPreferences(styles, colors, [], [], "")))
  }

  /** `(*User).IsValidAge` */
  predicate IsValidAge(u: User)
  {
    0 <= u.age <= 150
  }

  /** A user `NewUser` builds starts at age 0, which the age check
      accepts. */
  lemma NewUserAgeValid(name: string, email: string, password: string, now: int)
    ensures NewUser(name, email, password, now).Ok? ==> IsValidAge(NewUser(name, email, password, now).value)
  {
  }

  /** Updating preferences never affects validity. */
  lemma UpdatePreferencesKeepsValidity(u: User, styles: seq<string>, colors: seq<string>)
    ensures Validate(UpdatePreferences(u, styles, colors)) == Validate(u)
    ensures IsValidAge(UpdatePreferences(u, styles, colors)) == IsValidAge(u)
  {
  }
}
