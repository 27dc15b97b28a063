/** The mobile RegisterScreen's submit handler: every field must be filled
    in, then the two passwords must agree, and only then is `register`
    called. A rejection from `register` is caught by the handler. */
module Register {

  datatype RegisterOutcome =
    | MissingFields
    | PasswordsDiffer
    | RegisterCalled(name: string, email: string, password: string)

  /** `handleRegister`: the empty-field check comes first, so a form with an
      empty field is reported as incomplete whatever its passwords are. */
  function HandleRegister(name: string, email: string, password: string, confirmPassword: string): (o: RegisterOutcome)
    ensures o == MissingFields <==> name == "" || email == "" || password == "" || confirmPassword == ""
    ensures o == PasswordsDiffer
            <==> name != "" && email != "" && password != "" && confirmPassword != "" && password != confirmPassword
    ensures o.RegisterCalled?
            <==> name != "" && email != "" && password != "" && password == confirmPassword
    ensures o.RegisterCalled? ==> o == RegisterCalled(name, email, password)
  {
    if name == "" || email == "" || password == "" || confirmPassword == "" then MissingFields
    else if password != confirmPassword then PasswordsDiffer
    else RegisterCalled(name, email, password)
  }

  /** An empty confirmation is reported as a missing field, not as a
      mismatch, even when the password is filled in. */
  lemma EmptyCheckFirst(name: string, email: string, password: string)
    ensures HandleRegister(name, email, password, "") == MissingFields
  {
  }
}
