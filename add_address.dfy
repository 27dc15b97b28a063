/** The mobile AddAddressScreen's form and its save handler, which accepts
    the form only when all six text fields are filled in. */
module AddAddress {

  /** The screen's seven state cells. */
  datatype AddressForm = AddressForm(
    addressName: string,
    street: string,
    city: string,
    state: string,
    postalCode: string,
    country: string,
    isDefault: bool)

  /** The form as the screen opens it. */
  function EmptyForm(): AddressForm
  {
    AddressForm("", "", "", "", "", "", false)
  }

  predicate IsComplete(form: AddressForm)
  {
    form.addressName != "" && form.street != "" && form.city != ""
    && form.state != "" && form.postalCode != "" && form.country != ""
  }

  datatype SaveOutcome = MissingFields | Saved

  /** `handleSaveAddress`: the "Please fill in all fields" alert, or the
      success path. */
  function HandleSaveAddress(form: AddressForm): (o: SaveOutcome)
    ensures o == Saved <==> IsComplete(form)
    ensures o == MissingFields <==> form.addressName == "" || form.street == "" || form.city == ""
                                    || form.state == "" || form.postalCode == "" || form.country == ""
  {
    if form.addressName == "" || form.street == "" || form.city == ""
       || form.state == "" || form.postalCode == "" || form.country == "" then MissingFields
    else Saved
  }

  /** The default switch plays no part in validation, and the form as
      first shown is rejected. */
  lemma SaveIgnoresDefault(form: AddressForm, isDefault: bool)
    ensures HandleSaveAddress(form.(isDefault := isDefault)) == HandleSaveAddress(form)
    ensures HandleSaveAddress(EmptyForm()) == MissingFields
  {
  }
}
