/** The web storefront's CartDrawer: it copies the rows it is given into a
    local state cell, edits that copy, and forwards each accepted edit to
    its parent through a callback. A callback invocation is modelled as the
    value the handler returns. */
module CartDrawer {
  import opened Seqs
  import opened LineItems
  import Pricing
  import Labels

  /** The arguments of an `onUpdateQuantity(id, quantity)` call. */
  datatype QuantityUpdate = QuantityUpdate(id: string, quantity: int)

  class Drawer {
    var localItems: seq<LineItem>

    /** `useState(items)`: the drawer starts from the rows it was given
        (by default the three sample rows). */
    constructor (items: seq<LineItem>)
      ensures localItems == items
    {
      localItems := items;
    }

    /** `handleUpdateQuantity`: a quantity below one is ignored and nothing
        is forwarded; otherwise the rows of that product take the new
        quantity and the same (id, quantity) goes to the parent. */
    method HandleUpdateQuantity(id: string, newQuantity: int) returns (forwarded: Option<QuantityUpdate>)
      modifies this
      ensures newQuantity < 1 ==> localItems == old(localItems) && forwarded == None
      ensures newQuantity >= 1 ==> localItems == WithQuantity(old(localItems), id, newQuantity)
                                   && forwarded == Some(QuantityUpdate(id, newQuantity))
      ensures AllPositive(old(localItems)) ==> AllPositive(localItems)
    {
      if newQuantity < 1 {
        return None;
      }
      SetQuantity(localItems, id, newQuantity);
      localItems := WithQuantity(localItems, id, newQuantity);
      forwarded := Some(QuantityUpdate(id, newQuantity));
    }

    /** `handleRemoveItem`: the rows of that product go from the local copy
        and the same id goes to the parent. */
    method HandleRemoveItem(id: string) returns (forwarded: string)
      modifies this
      ensures localItems == WithoutId(old(localItems), id)
      ensures forwarded == id
      ensures AllPositive(old(localItems)) ==> AllPositive(localItems)
    {
      RemoveId(localItems, id);
      localItems := WithoutId(localItems, id);
      forwarded := id;
    }

    /** The summary rows, computed from the local copy. */
    function Summary(): (r: Pricing.Summary)
      reads this
      ensures r.subtotal == Subtotal(localItems)
      ensures r.shipping == Pricing.ShippingCents
      ensures r.total == r.subtotal as real + r.shipping as real + r.tax
      ensures r.tax == 0.08 * r.subtotal as real
    {
      Pricing.Summarize(Subtotal(localItems))
    }

    /** The header's noun after the row count: "item" for exactly one row
        and "items" otherwise, an empty drawer included. */
    function HeaderNoun(): (noun: string)
      reads this
      ensures noun == "item" <==> |localItems| == 1
      ensures noun == "item" || noun == "items"
    {
      Labels.CountNoun(|localItems|)
    }
  }
}
