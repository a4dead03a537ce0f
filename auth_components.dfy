/// The rules inside the authentication views: the validation of
/// `RegisterForm`, when `ProfileDisplay` offers editing, and the defaults
/// and submitted payload of `ProfileEditForm`.
module AuthComponents {
  import opened Common
  import opened WebTypes
  import opened MockUserModel

  const PasswordTooShort: string := "パスワードは8文字以上で入力してください"
  const PasswordMismatch: string := "パスワードが一致しません"
  const NameTooShort: string := "名前は2文字以上で入力してください"

  /** The three messages are different strings. */
  lemma MessagesDistinct()
    ensures PasswordTooShort != PasswordMismatch
    ensures PasswordTooShort != NameTooShort
    ensures PasswordMismatch != NameTooShort
  {
    assert |PasswordTooShort| != |PasswordMismatch|;
    assert PasswordTooShort[0] != NameTooShort[0];
    assert PasswordMismatch[0] != NameTooShort[0];
  }

  datatype RegisterFormData = RegisterFormData(email: string, password: string, confirmPassword: string, name: string)

  /** The messages `validateForm` collects, in the order it checks. */
  function FormErrors(f: RegisterFormData): (r: seq<string>)
    ensures |r| <= 3
    ensures forall m :: m in r ==> m == PasswordTooShort || m == PasswordMismatch || m == NameTooShort
  {
    (if |f.password| < 8 then [PasswordTooShort] else [])
    + (if f.password != f.confirmPassword then [PasswordMismatch] else [])
    + (if |f.name| < 2 then [NameTooShort] else [])
  }

  /** The form is valid exactly when the password has at least eight
      characters, is confirmed, and the name has at least two; each message
      appears exactly when its check fails, at most once, with the length
      message first and the name message last. */
  lemma FormErrorsMeaning(f: RegisterFormData)
    ensures FormErrors(f) == [] <==> |f.password| >= 8 && f.password == f.confirmPassword && |f.name| >= 2
    ensures PasswordTooShort in FormErrors(f) <==> |f.password| < 8
    ensures PasswordMismatch in FormErrors(f) <==> f.password != f.confirmPassword
    ensures NameTooShort in FormErrors(f) <==> |f.name| < 2
    ensures |FormErrors(f)| <= 3
    ensures |f.password| < 8 ==> FormErrors(f)[0] == PasswordTooShort
    ensures |f.name| < 2 ==> FormErrors(f)[|FormErrors(f)| - 1] == NameTooShort
  {
    MessagesDistinct();
  }

  class RegisterForm {
    var formData: RegisterFormData
    var validationErrors: seq<string>

    constructor ()
      ensures formData == RegisterFormData("", "", "", "") && validationErrors == []
    {
      formData := RegisterFormData("", "", "", "");
      validationErrors := [];
    }

    /** `validateForm`: records the failed checks and reports whether there
        were none. */
    method ValidateForm() returns (valid: bool)
      modifies this
      ensures formData == old(formData)
      ensures validationErrors == FormErrors(formData)
      ensures valid <==> validationErrors == []
    {
      var errors: seq<string> := [];
      if |formData.password| < 8 {
        errors := errors + [PasswordTooShort];
      }
      if formData.password != formData.confirmPassword {
        errors := errors + [PasswordMismatch];
      }
      if |formData.name| < 2 {
        errors := errors + [NameTooShort];
      }
      validationErrors := errors;
      valid := |errors| == 0;
    }

    /** `handleSubmit`: the data handed to `onSubmit`, only when the form
        validates. */
    method HandleSubmit() returns (submitted: Option<RegisterFormData>)
      modifies this
      ensures formData == old(formData)
      ensures validationErrors == FormErrors(formData)
      ensures submitted.Some? <==> FormErrors(formData) == []
      ensures submitted.Some? ==> submitted.value == formData
    {
      var valid := ValidateForm();
      if valid {
        submitted := Some(formData);
      } else {
        submitted := None;
      }
    }
  }

  /** `shouldShowEdit`: `isOwnProfile` may be null or missing (`None`). */
  function ShouldShowEdit(isOwner: bool, isOwnProfile: Option<bool>): (show: bool)
    ensures show <==> isOwner || isOwnProfile == Some(true)
  {
    isOwner || (isOwnProfile.Some? && isOwnProfile.value)
  }

  // ---------------------------------------------------------------------------
  // ProfileEditForm

  datatype EditFormData = EditFormData(
    name: string,
    email: string,
    defaultLocation: string,
    temperatureUnit: string,
    notifications: bool,
    privacy: string)

  /** JavaScript's `s || d` on a string: the empty string is falsy. */
  function OrDefault(s: string, d: string): (r: string)
    ensures r == (if s == "" then d else s)
    ensures r != "" <== d != ""
  {
    if s == "" then d else s
  }

  /** The form's initial data for a user: unset or empty preferences fall
      back to no location, celsius, notifications off and public. */
  function InitialEditForm(u: User): (f: EditFormData)
    ensures f.name == u.name && f.email == u.email
    ensures f.temperatureUnit != "" && f.privacy != ""
    ensures u.preferences.None? ==>
              f.defaultLocation == "" && f.temperatureUnit == "celsius" && !f.notifications && f.privacy == "public"
    ensures u.preferences.Some? ==> f.notifications == u.preferences.value.notifications
    ensures u.preferences.Some? ==>
              f.defaultLocation == (if u.preferences.value.defaultLocation.Some? then u.preferences.value.defaultLocation.value else "")
    ensures u.preferences.Some? ==>
              f.temperatureUnit == (if u.preferences.value.temperatureUnit == "" then "celsius" else u.preferences.value.temperatureUnit)
    ensures u.preferences.Some? ==>
              f.privacy == (if u.preferences.value.privacy == "" then "public" else u.preferences.value.privacy)
  {
    match u.preferences
    case None => EditFormData(u.name, u.email, "", "celsius", false, "public")
    case Some(p) =>
      EditFormData(u.name, u.email,
                   OrDefault(if p.defaultLocation.Some? then p.defaultLocation.value else "", ""),
                   OrDefault(p.temperatureUnit, "celsius"),
                   p.notifications,
                   OrDefault(p.privacy, "public"))
  }

  /** The preferences the form submits: the edited four fields, and fixed
      values for the rest. */
  function EditedPreferences(f: EditFormData): UserPreferences
  {
    UserPreferences([], ["white"], [], [], "casual", Some(f.defaultLocation), f.temperatureUnit, f.notifications, f.privacy)
  }

  /** `handleSubmit`'s `Partial<User>`: name, email and preferences. */
  function EditPayload(f: EditFormData): UserPatch
  {
    UserPatch(None, Some(f.name), Some(f.email), None, None, None, None, Some(Some(EditedPreferences(f))), None)
  }

  /** Submitting the edit form unchanged, as the mock model applies it: the
      user keeps its identity, name, email and personal fields; its
      preferences keep the four edited settings (a set temperature unit or
      privacy as it was), and the rest of the preferences are replaced by
      colours ["white"], style "casual" and empty lists. */
  lemma EditRoundTrip(u: User, now: string)
    ensures var v := ApplyPatch(u, EditPayload(InitialEditForm(u)), now);
            v.id == u.id && v.name == u.name && v.email == u.email && v.gender == u.gender
            && v.age == u.age && v.location == u.location && v.bio == u.bio && v.createdAt == u.createdAt
            && v.preferences.Some?
            && v.preferences.value.colors == ["white"] && v.preferences.value.style == "casual"
            && v.preferences.value.styles == [] && v.preferences.value.preferredColors == []
            && v.preferences.value.preferredBrands == []
            && (u.preferences.Some? ==>
                  v.preferences.value.notifications == u.preferences.value.notifications
                  && (u.preferences.value.temperatureUnit != "" ==>
                        v.preferences.value.temperatureUnit == u.preferences.value.temperatureUnit)
                  && (u.preferences.value.privacy != "" ==> v.preferences.value.privacy == u.preferences.value.privacy)
                  && (u.preferences.value.defaultLocation.Some? ==>
                        v.preferences.value.defaultLocation == u.preferences.value.defaultLocation))
            && (u.preferences.None? ==>
                  v.preferences.value.temperatureUnit == "celsius" && v.preferences.value.privacy == "public"
                  && v.preferences.value.defaultLocation == Some("") && !v.preferences.value.notifications)
  {
  }
}
