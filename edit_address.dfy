/** The mobile EditAddressScreen: on opening it copies the address with the
    route's id into its form (leaving the form empty when there is none),
    validates like the add-address form, and locks the default switch once
    it is on. */
module EditAddress {
  import opened Seqs
  import opened AddAddress
  import Addresses

  /** The seven state setters of the load effect. */
  function FromAddress(a: Addresses.Address): AddressForm
  {
    AddressForm(a.name, a.street, a.city, a.state, a.postalCode, a.country, a.isDefault)
  }

  /** The load effect: the first address with that id fills the form; with
      none the form is left as it was. */
  function Loaded(form: AddressForm, addresses: seq<Addresses.Address>, addressId: string): (r: AddressForm)
    ensures (forall k :: 0 <= k < |addresses| ==> addresses[k].id != addressId) ==> r == form
    ensures forall k :: 0 <= k < |addresses| && addresses[k].id == addressId
              && (forall j :: 0 <= j < k ==> addresses[j].id != addressId)
              ==> r == FromAddress(addresses[k])
  {
    match FindIndex(addresses, (a: Addresses.Address) => a.id == addressId)
    case None => form
    case Some(k) => FromAddress(addresses[k])
  }

  /** An unknown id leaves the empty form in place, so the update is
      rejected; either sample id loads a complete form, which is accepted. */
  lemma LoadThenUpdate(addressId: string)
    ensures addressId != "1" && addressId != "2"
            ==> HandleSaveAddress(Loaded(EmptyForm(), Addresses.SampleAddresses(), addressId)) == MissingFields
    ensures addressId == "1" || addressId == "2"
            ==> HandleSaveAddress(Loaded(EmptyForm(), Addresses.SampleAddresses(), addressId)) == Saved
  {
    var s := Addresses.SampleAddresses();
    if addressId == "2" {
      assert s[0].id != addressId && s[1].id == addressId;
    }
  }

  /** `onValueChange` of the default switch, which is disabled while on. */
  function Switched(form: AddressForm, value: bool): (r: AddressForm)
    ensures form.isDefault ==> r == form
    ensures !form.isDefault ==> r == form.(isDefault := value)
  {
    if form.isDefault then form else form.(isDefault := value)
  }

  function SwitchedAll(form: AddressForm, values: seq<bool>): AddressForm
    decreases values
  {
    if values == [] then form else SwitchedAll(Switched(form, values[0]), values[1..])
  }

  /** A default address cannot be unset here: once the switch is on, no
      sequence of presses turns it off, and the text fields never move. */
  lemma {:induction false} DefaultLocked(form: AddressForm, values: seq<bool>)
    ensures form.isDefault ==> SwitchedAll(form, values) == form
    ensures SwitchedAll(form, values).(isDefault := form.isDefault) == form
    ensures form.isDefault ==> SwitchedAll(form, values).isDefault
    decreases values
  {
    if values != [] {
      DefaultLocked(Switched(form, values[0]), values[1..]);
    }
  }

  class EditAddressScreen {
    const addressId: string
    var form: AddressForm

    /** Opening the screen: the empty form, then the load effect. */
    constructor (addressId: string)
      ensures this.addressId == addressId
      ensures form == Loaded(EmptyForm(), Addresses.SampleAddresses(), addressId)
    {
      this.addressId := addressId;
      form := Loaded(EmptyForm(), Addresses.SampleAddresses(), addressId);
    }

    method SetDefaultSwitch(value: bool)
      modifies this`form
      ensures form == Switched(old(form), value)
    {
      if !form.isDefault {
        form := form.(isDefault := value);
      }
    }

    /** `handleUpdateAddress`: the same six-field check as adding. */
    method HandleUpdateAddress() returns (o: SaveOutcome)
      ensures o == Saved <==> IsComplete(form)
    {
      o := HandleSaveAddress(form);
    }
  }
}
