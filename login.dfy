/** The submit handler of the frontend client's LoginScreen: both fields
    are required. A rejection from `login` is caught inside the handler
    and nothing follows it, so the handler has no failure outcome of its
    own. */
module Login {

  datatype LoginOutcome =
    | MissingCredentials
    | LoginCalled(email: string, password: string)

  /** `handleLogin`: the empty-field alert, or the call to `login`. */
  function HandleLogin(email: string, password: string): (o: LoginOutcome)
    ensures o == MissingCredentials <==> email == "" || password == ""
    ensures o.LoginCalled? <==> email != "" && password != ""
    ensures o.LoginCalled? ==> o == LoginCalled(email, password)
  {
    if email == "" || password == "" then MissingCredentials
    else LoginCalled(email, password)
  }
}
