/** The mobile AddressesScreen: a list of saved addresses, at most one of
    which is meant to be the default. Set-default marks exactly the
    addresses with the chosen id; delete filters the id out, default or
    not. */
module Addresses {
  import opened Seqs

  datatype Address = Address(
    id: string,
    name: string,
    street: string,
    city: string,
    state: string,
    postalCode: string,
    country: string,
    isDefault: bool)

  /** The two addresses the screen starts from; "Home" is the default. */
  function SampleAddresses(): seq<Address>
  {
    [ Address("1", "Home", "123 Main Street", "New York", "NY", "10001", "United States", true),
      Address("2", "Work", "456 Business Ave", "San Francisco", "CA", "94105", "United States", false) ]
  }

  predicate UniqueIds(addresses: seq<Address>)
  {
    forall i, j :: 0 <= i < j < |addresses| ==> addresses[i].id != addresses[j].id
  }

  predicate IsDefault(address: Address)
  {
    address.isDefault
  }

  /** How many addresses are marked default. */
  function DefaultCount(addresses: seq<Address>): nat
  {
    Count(addresses, IsDefault)
  }

  /** The updater of `handleSetDefault`. */
  function WithDefault(addresses: seq<Address>, id: string): seq<Address>
  {
    seq(|addresses|, i requires 0 <= i < |addresses| =>
      addresses[i].(isDefault := addresses[i].id == id))
  }

  /** The updater of `handleDeleteAddress`. */
  function WithoutAddress(addresses: seq<Address>, id: string): seq<Address>
  {
    Filter(addresses, (a: Address) => a.id != id)
  }

  /** Set-default marks exactly the addresses with that id and changes no
      other field, the length or the order. */
  lemma SetDefaultMarks(addresses: seq<Address>, id: string)
    ensures |WithDefault(addresses, id)| == |addresses|
    ensures forall k :: 0 <= k < |addresses| ==> (WithDefault(addresses, id)[k].isDefault <==> addresses[k].id == id)
    ensures forall k :: 0 <= k < |addresses|
              ==> WithDefault(addresses, id)[k] == addresses[k].(isDefault := WithDefault(addresses, id)[k].isDefault)
  {
  }

  /** With unique ids, choosing an id that is present leaves exactly one
      default; choosing an absent id leaves none. */
  lemma SetDefaultSingle(addresses: seq<Address>, id: string)
    requires UniqueIds(addresses)
    ensures (exists k :: 0 <= k < |addresses| && addresses[k].id == id)
            ==> DefaultCount(WithDefault(addresses, id)) == 1
    ensures (forall k :: 0 <= k < |addresses| ==> addresses[k].id != id)
            ==> DefaultCount(WithDefault(addresses, id)) == 0
  {
    var r := WithDefault(addresses, id);
    if k :| 0 <= k < |addresses| && addresses[k].id == id {
      CountSingle(r, IsDefault, k);
    } else {
      CountNone(r, IsDefault);
    }
  }

  /** Delete drops exactly the addresses with that id, keeps the others in
      order, and keeps ids unique. */
  lemma DeleteDrops(addresses: seq<Address>, id: string)
    ensures forall k :: 0 <= k < |WithoutAddress(addresses, id)| ==> WithoutAddress(addresses, id)[k].id != id
    ensures forall k :: 0 <= k < |addresses| && addresses[k].id != id ==> addresses[k] in WithoutAddress(addresses, id)
    ensures UniqueIds(addresses) ==> UniqueIds(WithoutAddress(addresses, id))
  {
    if UniqueIds(addresses) {
      FilterKeepsPairwise(addresses, (a: Address) => a.id != id, (a: Address, b: Address) => a.id != b.id);
    }
  }

  /** Delete is not guarded: deleting the only default address leaves the
      list with no default. */
  lemma DeleteDefaultLeavesNone(addresses: seq<Address>, k: int)
    requires UniqueIds(addresses)
    requires 0 <= k < |addresses| && addresses[k].isDefault
    requires forall j :: 0 <= j < |addresses| && j != k ==> !addresses[j].isDefault
    ensures DefaultCount(WithoutAddress(addresses, addresses[k].id)) == 0
  {
    var r := WithoutAddress(addresses, addresses[k].id);
    forall m | 0 <= m < |r| ensures !IsDefault(r[m]) {
      var j :| 0 <= j < |addresses| && addresses[j] == r[m];
    }
    CountNone(r, IsDefault);
  }

  /** On the sample list, deleting "Home" leaves no default. */
  lemma SampleDeleteHome()
    ensures DefaultCount(SampleAddresses()) == 1
    ensures DefaultCount(WithoutAddress(SampleAddresses(), "1")) == 0
  {
    var s := SampleAddresses();
    CountSingle(s, IsDefault, 0);
    DeleteDefaultLeavesNone(s, 0);
  }

  /** The screen's `addresses` state cell. */
  class AddressesScreen {
    var addresses: seq<Address>

    ghost predicate Valid()
      reads this
    {
      UniqueIds(addresses)
    }

    constructor ()
      ensures Valid() && addresses == SampleAddresses()
    {
      addresses := SampleAddresses();
    }

    method HandleSetDefault(id: string)
      requires Valid()
      modifies this
      ensures Valid()
      ensures addresses == WithDefault(old(addresses), id)
    {
      addresses := WithDefault(addresses, id);
    }

    method HandleDeleteAddress(id: string)
      requires Valid()
      modifies this
      ensures Valid()
      ensures addresses == WithoutAddress(old(addresses), id)
    {
      DeleteDrops(addresses, id);
      addresses := WithoutAddress(addresses, id);
    }
  }
}
