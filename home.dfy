/** The web storefront's home page (src/components/home.tsx), which keeps
    its own cart: rows are merged on the product id alone and every add
    puts in one unit of a fixed sample product. */
module Home {
  import opened Seqs
  import opened LineItems

  /** `productToAdd`: the fixed sample row, one medium white T-shirt at
      29.99. */
  function ProductToAdd(id: string): LineItem
  {
    LineItem(id, "Classic White T-Shirt", 2999,
             "https://images.unsplash.com/photo-1521572163474-6864f9cf17ab?w=300&q=80",
             1, Some("M"), Some("White"))
  }

  predicate HasId(items: seq<LineItem>, id: string)
  {
    exists i :: 0 <= i < |items| && items[i].id == id
  }

  /** The updater of `handleAddToCart`: one more unit on the rows with that
      id, or a new sample row when there is none. */
  function AddedById(items: seq<LineItem>, id: string): seq<LineItem>
  {
    if HasId(items, id) then
      seq(|items|, i requires 0 <= i < |items| =>
        if items[i].id == id then items[i].(quantity := items[i].quantity + 1) else items[i])
    else
      items + [ProductToAdd(id)]
  }

  /** Adding an id already in the cart raises that row's quantity by exactly
      one, changes nothing else, and keeps the length. */
  lemma AddExistingId(items: seq<LineItem>, id: string, k: int)
    requires UniqueIds(items)
    requires 0 <= k < |items| && items[k].id == id
    ensures |AddedById(items, id)| == |items|
    ensures AddedById(items, id) == items[k := items[k].(quantity := items[k].quantity + 1)]
  {
  }

  /** Adding a new id appends one sample row of quantity one. */
  lemma AddNewId(items: seq<LineItem>, id: string)
    requires !HasId(items, id)
    ensures |AddedById(items, id)| == |items| + 1
    ensures AddedById(items, id)[..|items|] == items
    ensures AddedById(items, id)[|items|].id == id && AddedById(items, id)[|items|].quantity == 1
  {
  }

  /** Merging on the id alone keeps at most one row per id. */
  lemma AddKeepsUniqueIds(items: seq<LineItem>, id: string)
    requires UniqueIds(items)
    ensures UniqueIds(AddedById(items, id))
  {
    var r := AddedById(items, id);
    if !HasId(items, id) {
      forall i, j | 0 <= i < j < |r| ensures r[i].id != r[j].id {
        if j == |items| {
          assert r[i] == items[i];
        } else {
          assert r[i] == items[i] && r[j] == items[j];
        }
      }
    }
  }

  /** The badge count is the sum of quantities, so each add raises it by
      exactly one. */
  lemma AddRaisesBadgeByOne(items: seq<LineItem>, id: string)
    requires UniqueIds(items)
    ensures QuantityTotal(AddedById(items, id)) == QuantityTotal(items) + 1
  {
    if HasId(items, id) {
      var k :| 0 <= k < |items| && items[k].id == id;
      AddExistingId(items, id, k);
      SumUpdate(items, k, items[k].(quantity := items[k].quantity + 1), Quantity);
    } else {
      SumAppend(items, [ProductToAdd(id)], Quantity);
    }
  }

  /** The page's state cells that the cart handlers touch. */
  class HomePage {
    var cartItems: seq<LineItem>
    var currentPage: int
    var isCartOpen: bool

    ghost predicate Valid()
      reads this
    {
      UniqueIds(cartItems)
    }

    constructor ()
      ensures Valid()
      ensures cartItems == [] && currentPage == 1 && !isCartOpen
    {
      cartItems := [];
      currentPage := 1;
      isCartOpen := false;
    }

    /** `handleAddToCart`: add one unit and open the cart drawer. */
    method HandleAddToCart(id: string)
      requires Valid()
      modifies this
      ensures Valid()
      ensures cartItems == AddedById(old(cartItems), id)
      ensures isCartOpen && currentPage == old(currentPage)
    {
      var added := AddedById(cartItems, id);
      AddKeepsUniqueIds(cartItems, id);
      cartItems, isCartOpen := added, true;
    }

    /** The quick-view callback: the chosen quantity, size and colour are
        ignored and it is a plain one-unit add of the id. */
    method HandleQuickViewAddToCart(id: string, quantity: int, size: string, color: string)
      requires Valid()
      modifies this
      ensures Valid()
      ensures cartItems == AddedById(old(cartItems), id)
      ensures isCartOpen && currentPage == old(currentPage)
    {
      HandleAddToCart(id);
    }

    /** `handleUpdateCartQuantity`: the rows with that id take the new
        quantity; the other rows are unchanged. */
    method HandleUpdateCartQuantity(id: string, quantity: int)
      requires Valid()
      modifies this`cartItems
      ensures Valid()
      ensures cartItems == WithQuantity(old(cartItems), id, quantity)
    {
      SetQuantity(cartItems, id, quantity);
      cartItems := WithQuantity(cartItems, id, quantity);
    }

    /** `handleRemoveCartItem`: the rows with that id go, the rest stay in
        order. */
    method HandleRemoveCartItem(id: string)
      requires Valid()
      modifies this`cartItems
      ensures Valid()
      ensures cartItems == WithoutId(old(cartItems), id)
    {
      RemoveId(cartItems, id);
      cartItems := WithoutId(cartItems, id);
    }

    method HandlePageChange(page: int)
      modifies this`currentPage
      ensures currentPage == page
    {
      currentPage := page;
    }

    /** The count shown on the navbar's cart badge. */
    method CartItemCount() returns (count: int)
      ensures count == QuantityTotal(cartItems)
      ensures cartItems == [] ==> count == 0
    {
      count := QuantityTotal(cartItems);
    }
  }
}
