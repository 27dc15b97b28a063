/** The mobile CartScreen: a local cart seeded with three sample rows,
    plus/minus buttons that step a row's quantity but never below one, a
    remove button and the order summary. */
module CartScreen {
  import opened Seqs
  import opened LineItems
  import Pricing

  /** One row under `handleUpdateQuantity`: a row of that product moves by
      `increment` unless that would take it below one. */
  function StepRow(item: LineItem, id: string, increment: int): LineItem
  {
    if item.id == id && item.quantity + increment >= 1
    then item.(quantity := item.quantity + increment)
    else item
  }

  /** The updater of `handleUpdateQuantity`. */
  function Stepped(items: seq<LineItem>, id: string, increment: int): seq<LineItem>
  {
    seq(|items|, i requires 0 <= i < |items| => StepRow(items[i], id, increment))
  }

  /** A step moves exactly the rows of that product whose quantity stays at
      one or more, by exactly the increment and with no upper bound; every
      other row, and the order, is unchanged; so positive quantities stay
      positive. */
  lemma StepSpec(items: seq<LineItem>, id: string, increment: int)
    ensures |Stepped(items, id, increment)| == |items|
    ensures forall k :: 0 <= k < |items| && (items[k].id != id || items[k].quantity + increment < 1)
              ==> Stepped(items, id, increment)[k] == items[k]
    ensures forall k :: 0 <= k < |items| && items[k].id == id && items[k].quantity + increment >= 1
              ==> Stepped(items, id, increment)[k] == items[k].(quantity := items[k].quantity + increment)
    ensures AllPositive(items) ==> AllPositive(Stepped(items, id, increment))
    ensures forall k :: 0 <= k < |items| ==> Stepped(items, id, increment)[k].quantity >= 1 || Stepped(items, id, increment)[k] == items[k]
  {
  }

  /** The minus button is disabled at quantity one or less. */
  predicate MinusDisabled(item: LineItem)
  {
    item.quantity <= 1
  }

  /** With the minus button enabled, pressing it lowers a row of unique id
      by exactly one. */
  lemma MinusWhenEnabled(items: seq<LineItem>, k: int)
    requires UniqueIds(items)
    requires 0 <= k < |items| && !MinusDisabled(items[k])
    ensures Stepped(items, items[k].id, -1) == items[k := items[k].(quantity := items[k].quantity - 1)]
  {
  }

  /** The summary of the seeded cart: subtotal 349.96, shipping 5.99, tax
      27.9968 and total 383.9468. */
  lemma InitialSummary()
    ensures Pricing.Summarize(Subtotal(SampleItems())) == Pricing.Summary(34996, 599, 2799.68, 38394.68)
  {
    var s := SampleItems();
    assert s[1..][1..][1..] == [];
    assert Subtotal(s) == 34996;
  }

  class CartScreenState {
    var cartItems: seq<LineItem>

    /** No row's quantity is ever below one. */
    ghost predicate Valid()
      reads this
    {
      AllPositive(cartItems)
    }

    constructor ()
      ensures Valid() && cartItems == SampleItems()
    {
      cartItems := SampleItems();
    }

    method HandleUpdateQuantity(id: string, increment: int)
      requires Valid()
      modifies this
      ensures Valid()
      ensures cartItems == Stepped(old(cartItems), id, increment)
    {
      StepSpec(cartItems, id, increment);
      cartItems := Stepped(cartItems, id, increment);
    }

    method HandleRemoveItem(id: string)
      requires Valid()
      modifies this
      ensures Valid()
      ensures cartItems == WithoutId(old(cartItems), id)
    {
      RemoveId(cartItems, id);
      cartItems := WithoutId(cartItems, id);
    }

    /** The summary rows: the subtotal of the current rows, the flat 5.99
        shipping whatever the contents, 8% tax and their sum. */
    function Summary(): (r: Pricing.Summary)
      reads this
      ensures r.subtotal == Subtotal(cartItems)
      ensures r.shipping == Pricing.ShippingCents
      ensures r.total == r.subtotal as real + r.shipping as real + r.tax
      ensures r.tax == 0.08 * r.subtotal as real
    {
      Pricing.Summarize(Subtotal(cartItems))
    }
  }
}
