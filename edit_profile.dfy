/** The mobile EditProfileScreen's submit handler: name and email are
    required; a new password is optional but, when given, must match its
    confirmation; the payload carries the password only when one was
    typed. */
module EditProfile {
  import opened Seqs
  import UsersRoute

  /** The body sent to `updateUserProfile`. */
  datatype ProfilePayload = ProfilePayload(name: string, email: string, password: Option<string>)

  datatype ProfileOutcome =
    | NameOrEmailMissing
    | PasswordsDiffer
    | UpdateCalled(payload: ProfilePayload)

  /** `handleUpdateProfile`. */
  function HandleUpdateProfile(name: string, email: string, password: string, confirmPassword: string): (o: ProfileOutcome)
    ensures o == NameOrEmailMissing <==> name == "" || email == ""
    ensures o == PasswordsDiffer <==> name != "" && email != "" && password != "" && password != confirmPassword
    ensures o.UpdateCalled? <==> name != "" && email != "" && (password == "" || password == confirmPassword)
    ensures o.UpdateCalled? ==> o.payload.name == name && o.payload.email == email
    ensures o.UpdateCalled? ==> (o.payload.password.Some? <==> password != "")
    ensures o.UpdateCalled? && o.payload.password.Some?
            ==> o.payload.password.value == password == confirmPassword
  {
    if name == "" || email == "" then NameOrEmailMissing
    else if password != "" && password != confirmPassword then PasswordsDiffer
    else UpdateCalled(ProfilePayload(name, email, if password != "" then Some(password) else None))
  }

  /** Leaving the password empty skips the match check altogether: the
      confirmation field is then ignored. */
  lemma EmptyPasswordSkipsCheck(name: string, email: string, confirmPassword: string)
    requires name != "" && email != ""
    ensures HandleUpdateProfile(name, email, "", confirmPassword) == UpdateCalled(ProfilePayload(name, email, None))
  {
  }

  /** Sent to the profile route, the payload of an accepted form sets the
      name and email it carries, and changes the stored password exactly
      when a new one was typed (and confirmed). */
  lemma PayloadThroughRoute(u: UsersRoute.User, name: string, email: string, password: string, confirmPassword: string)
    requires HandleUpdateProfile(name, email, password, confirmPassword).UpdateCalled?
    ensures var p := HandleUpdateProfile(name, email, password, confirmPassword).payload;
            var r := UsersRoute.ProfileUpdated(u, Some(p.name), Some(p.email), p.password);
            r.name == name && r.email == email
            && (password == "" ==> r.password == u.password)
            && (password != "" ==> r.password == password == confirmPassword)
  {
  }
}
