/** The client cart store of the mobile app (CartProvider): an ordered list
    of line items held in one state cell that every operation replaces.
    Rows are merged on the variant key (product id, size, colour); removal
    and quantity updates match on the product id alone. Persistence to
    local storage is not modelled. */
module CartContext {
  import opened Seqs

  /** One cart row. Prices are in cents; `size` and `color` are optional. */
  datatype CartItem = CartItem(
    id: string,
    name: string,
    price: int,
    image: string,
    quantity: int,
    countInStock: int,
    size: Option<string>,
    color: Option<string>)

  /** The merge key of `addToCart`: same product, size and colour. */
  predicate SameVariant(a: CartItem, b: CartItem)
  {
    a.id == b.id && a.size == b.size && a.color == b.color
  }

  /** The store invariant: no two rows share a variant key. */
  predicate UniqueVariants(items: seq<CartItem>)
  {
    forall i, j :: 0 <= i < j < |items| ==> !SameVariant(items[i], items[j])
  }

  predicate HasVariant(items: seq<CartItem>, item: CartItem)
  {
    exists i :: 0 <= i < |items| && SameVariant(items[i], item)
  }

  function LineTotal(item: CartItem): int
  {
    item.price * item.quantity
  }

  /** `getCartTotal`: the sum of price times quantity over the rows. */
  function CartTotal(items: seq<CartItem>): int
  {
    Sum(items, LineTotal)
  }

  /** The updater of `addToCart`: when some row has the item's variant key,
      every such row gains the item's quantity; otherwise the item is
      appended. */
  function Merged(items: seq<CartItem>, item: CartItem): seq<CartItem>
  {
    if HasVariant(items, item) then
      seq(|items|, i requires 0 <= i < |items| =>
        if SameVariant(items[i], item)
        then items[i].(quantity := items[i].quantity + item.quantity)
        else items[i])
    else
      items + [item]
  }

  /** The updater of `removeFromCart`: every row of that product goes, all
      sizes and colours alike. */
  function WithoutProduct(items: seq<CartItem>, id: string): seq<CartItem>
  {
    Filter(items, (item: CartItem) => item.id != id)
  }

  /** The updater of `updateCartQuantity`: every row of that product gets
      the new quantity, unchecked. */
  function WithQuantity(items: seq<CartItem>, id: string, quantity: int): seq<CartItem>
  {
    seq(|items|, i requires 0 <= i < |items| =>
      if items[i].id == id then items[i].(quantity := quantity) else items[i])
  }

  /** Adding a variant already in the cart changes one row only: its
      quantity grows by the added quantity, its name, price, image and stock
      stay, and the total grows by that row's price times the added
      quantity. */
  lemma MergeExisting(items: seq<CartItem>, item: CartItem, k: int)
    requires UniqueVariants(items)
    requires 0 <= k < |items| && SameVariant(items[k], item)
    ensures |Merged(items, item)| == |items|
    ensures Merged(items, item)[k] == items[k].(quantity := items[k].quantity + item.quantity)
    ensures forall j :: 0 <= j < |items| && j != k ==> Merged(items, item)[j] == items[j]
    ensures CartTotal(Merged(items, item)) == CartTotal(items) + items[k].price * item.quantity
  {
    var row := items[k].(quantity := items[k].quantity + item.quantity);
    assert Merged(items, item) == items[k := row];
    SumUpdate(items, k, row, LineTotal);
    assert LineTotal(row) == LineTotal(items[k]) + items[k].price * item.quantity by {
      assert items[k].price * (items[k].quantity + item.quantity)
          == items[k].price * items[k].quantity + items[k].price * item.quantity;
    }
  }

  /** Adding a new variant appends it and leaves every earlier row alone;
      the total grows by the new row's line total. */
  lemma MergeNew(items: seq<CartItem>, item: CartItem)
    requires !HasVariant(items, item)
    ensures |Merged(items, item)| == |items| + 1
    ensures Merged(items, item)[|items|] == item
    ensures Merged(items, item)[..|items|] == items
    ensures CartTotal(Merged(items, item)) == CartTotal(items) + item.price * item.quantity
  {
    SumAppend(items, [item], LineTotal);
  }

  /** `addToCart` keeps the variant keys unique. */
  lemma MergeKeepsUniqueVariants(items: seq<CartItem>, item: CartItem)
    requires UniqueVariants(items)
    ensures UniqueVariants(Merged(items, item))
  {
    var r := Merged(items, item);
    if HasVariant(items, item) {
      forall i, j | 0 <= i < j < |r| ensures !SameVariant(r[i], r[j]) {
        assert SameVariant(r[i], r[j]) == SameVariant(items[i], items[j]);
      }
    } else {
      forall i, j | 0 <= i < j < |r| ensures !SameVariant(r[i], r[j]) {
        if j == |items| {
          assert r[j] == item && r[i] == items[i];
        } else {
          assert r[i] == items[i] && r[j] == items[j];
        }
      }
    }
  }

  /** Adding the same variant twice to a cart without it yields one row
      whose quantity is the sum of the two quantities. */
  lemma AddSameVariantTwice(items: seq<CartItem>, first: CartItem, second: CartItem)
    requires UniqueVariants(items) && !HasVariant(items, first)
    requires SameVariant(first, second)
    ensures Merged(Merged(items, first), second)
         == items + [first.(quantity := first.quantity + second.quantity)]
  {
    var once := Merged(items, first);
    assert once == items + [first];
    assert SameVariant(once[|items|], second);
    MergeKeepsUniqueVariants(items, first);
    MergeExisting(once, second, |items|);
    assert Merged(once, second)[..|items|] == items;
  }

  /** `removeFromCart` drops exactly the rows of that product, keeps the
      rest (in order, since a filter never reorders), and keeps the variant
      keys unique. */
  lemma RemoveProduct(items: seq<CartItem>, id: string)
    requires UniqueVariants(items)
    ensures forall k :: 0 <= k < |WithoutProduct(items, id)| ==> WithoutProduct(items, id)[k].id != id
    ensures forall k :: 0 <= k < |items| && items[k].id != id ==> items[k] in WithoutProduct(items, id)
    ensures UniqueVariants(WithoutProduct(items, id))
    ensures (forall k :: 0 <= k < |items| ==> items[k].id != id) ==> WithoutProduct(items, id) == items
  {
    FilterKeepsPairwise(items, (item: CartItem) => item.id != id,
                        (a: CartItem, b: CartItem) => !SameVariant(a, b));
    if forall k :: 0 <= k < |items| ==> items[k].id != id {
      FilterKeepsAll(items, (item: CartItem) => item.id != id);
    }
  }

  /** `updateCartQuantity` touches only the quantity of that product's
      rows, so the variant keys stay unique; with no such row it changes
      nothing. */
  lemma UpdateQuantityKeepsKeys(items: seq<CartItem>, id: string, quantity: int)
    requires UniqueVariants(items)
    ensures UniqueVariants(WithQuantity(items, id, quantity))
    ensures (forall k :: 0 <= k < |items| ==> items[k].id != id) ==> WithQuantity(items, id, quantity) == items
  {
    var r := WithQuantity(items, id, quantity);
    forall i, j | 0 <= i < j < |r| ensures !SameVariant(r[i], r[j]) {
      assert SameVariant(r[i], r[j]) == SameVariant(items[i], items[j]);
    }
  }

  /** The total is additive over concatenation: appending rows adds their
      line totals. */
  lemma CartTotalAppend(items: seq<CartItem>, more: seq<CartItem>)
    ensures CartTotal(items + more) == CartTotal(items) + CartTotal(more)
  {
    SumAppend(items, more, LineTotal);
  }

  /** The provider's state cell and the operations it exposes. */
  class CartProvider {
    var cartItems: seq<CartItem>

    ghost predicate Valid()
      reads this
    {
      UniqueVariants(cartItems)
    }

    constructor ()
      ensures Valid() && cartItems == []
    {
      cartItems := [];
    }

    method AddToCart(item: CartItem)
      requires Valid()
      modifies this
      ensures Valid()
      ensures cartItems == Merged(old(cartItems), item)
    {
      MergeKeepsUniqueVariants(cartItems, item);
      cartItems := Merged(cartItems, item);
    }

    method RemoveFromCart(id: string)
      requires Valid()
      modifies this
      ensures Valid()
      ensures cartItems == WithoutProduct(old(cartItems), id)
    {
      RemoveProduct(cartItems, id);
      cartItems := WithoutProduct(cartItems, id);
    }

    method UpdateCartQuantity(id: string, quantity: int)
      requires Valid()
      modifies this
      ensures Valid()
      ensures cartItems == WithQuantity(old(cartItems), id, quantity)
    {
      UpdateQuantityKeepsKeys(cartItems, id, quantity);
      cartItems := WithQuantity(cartItems, id, quantity);
    }

    method ClearCart()
      modifies this
      ensures Valid() && cartItems == []
    {
      cartItems := [];
    }

    /** `getCartTotal`; an empty cart totals zero. */
    method GetCartTotal() returns (total: int)
      ensures total == CartTotal(cartItems)
      ensures cartItems == [] ==> total == 0
    {
      total := CartTotal(cartItems);
    }
  }
}
