/** The line-item shape shared by the web storefront's cart (home.tsx and
    CartDrawer.tsx) and the mobile CartScreen: product id, snapshot of
    name, price (cents) and image, a quantity and an optional size and
    colour. The operations all three carts share are defined here once. */
module LineItems {
  import opened Seqs

  datatype LineItem = LineItem(
    id: string,
    name: string,
    price: int,
    image: string,
    quantity: int,
    size: Option<string>,
    color: Option<string>)

  function LineTotal(item: LineItem): int
  {
    item.price * item.quantity
  }

  function Quantity(item: LineItem): int
  {
    item.quantity
  }

  /** `items.reduce((sum, item) => sum + item.price * item.quantity, 0)`. */
  function Subtotal(items: seq<LineItem>): int
  {
    Sum(items, LineTotal)
  }

  /** `items.reduce((sum, item) => sum + item.quantity, 0)`. */
  function QuantityTotal(items: seq<LineItem>): int
  {
    Sum(items, Quantity)
  }

  predicate UniqueIds(items: seq<LineItem>)
  {
    forall i, j :: 0 <= i < j < |items| ==> items[i].id != items[j].id
  }

  /** Every row has a quantity of at least one. */
  predicate AllPositive(items: seq<LineItem>)
  {
    forall i :: 0 <= i < |items| ==> items[i].quantity >= 1
  }

  /** `items.filter((item) => item.id !== id)`. */
  function WithoutId(items: seq<LineItem>, id: string): seq<LineItem>
  {
    Filter(items, (item: LineItem) => item.id != id)
  }

  /** `items.map((item) => item.id === id ? { ...item, quantity } : item)`. */
  function WithQuantity(items: seq<LineItem>, id: string, quantity: int): seq<LineItem>
  {
    seq(|items|, i requires 0 <= i < |items| =>
      if items[i].id == id then items[i].(quantity := quantity) else items[i])
  }

  /** Removing by id drops exactly the rows with that id, keeps every other
      row, and keeps ids unique and quantities positive. */
  lemma RemoveId(items: seq<LineItem>, id: string)
    ensures forall k :: 0 <= k < |WithoutId(items, id)| ==> WithoutId(items, id)[k].id != id
    ensures forall k :: 0 <= k < |items| && items[k].id != id ==> items[k] in WithoutId(items, id)
    ensures UniqueIds(items) ==> UniqueIds(WithoutId(items, id))
    ensures AllPositive(items) ==> AllPositive(WithoutId(items, id))
  {
    var keep := (item: LineItem) => item.id != id;
    if UniqueIds(items) {
      FilterKeepsPairwise(items, keep, (a: LineItem, b: LineItem) => a.id != b.id);
    }
    if AllPositive(items) {
      var r := WithoutId(items, id);
      forall k | 0 <= k < |r| ensures r[k].quantity >= 1 {
        var j :| 0 <= j < |items| && items[j] == r[k];
      }
    }
  }

  /** Setting a quantity by id changes nothing but the quantity of the rows
      with that id, so ids stay unique; a positive quantity keeps every
      quantity positive. */
  lemma SetQuantity(items: seq<LineItem>, id: string, quantity: int)
    ensures UniqueIds(items) ==> UniqueIds(WithQuantity(items, id, quantity))
    ensures AllPositive(items) && quantity >= 1 ==> AllPositive(WithQuantity(items, id, quantity))
    ensures forall k :: 0 <= k < |items| && items[k].id != id ==> WithQuantity(items, id, quantity)[k] == items[k]
  {
  }

  /** The three sample rows both CartScreen and CartDrawer start from. */
  function SampleItems(): seq<LineItem>
  {
    [ LineItem("1", "Classic White T-Shirt", 2999,
               "https://images.unsplash.com/photo-1521572163474-6864f9cf17ab?w=300&q=80",
               1, Some("M"), Some("White")),
      LineItem("2", "Black Denim Jeans", 5999,
               "https://images.unsplash.com/photo-1542272604-787c3835535d?w=300&q=80",
               2, Some("32"), Some("Black")),
      LineItem("3", "Leather Jacket", 19999,
               "https://images.unsplash.com/photo-1551028719-00167b16eac5?w=300&q=80",
               1, Some("L"), Some("Brown")) ]
  }
}
