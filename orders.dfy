/** The mobile OrdersScreen's per-order display rules: the status derived
    from the paid and delivered flags, its colour, the number of units and
    its noun, and the shortened order id. */
module Orders {
  import opened Seqs
  import Labels

  datatype OrderLine = OrderLine(name: string, qty: int)

  /** An order as the screen receives it; `id` is the store's `_id` and the
      total is in cents. */
  datatype Order = Order(
    id: string,
    createdAt: string,
    totalPrice: int,
    isPaid: bool,
    isDelivered: bool,
    orderItems: seq<OrderLine>)

  /** `getOrderStatus`: delivery wins over payment. */
  function OrderStatus(order: Order): (status: string)
    ensures status == "Delivered" <==> order.isDelivered
    ensures status == "Shipped" <==> order.isPaid && !order.isDelivered
    ensures status == "Processing" <==> !order.isPaid && !order.isDelivered
  {
    if order.isDelivered then "Delivered"
    else if order.isPaid then "Shipped"
    else "Processing"
  }

  const DeliveredColor: string := "#4CAF50"
  const ShippedColor: string := "#2196F3"
  const DefaultColor: string := "#FF9800"

  /** `getStatusColor`: any status other than the two known ones gets the
      default colour. */
  function StatusColor(status: string): (color: string)
    ensures status == "Delivered" ==> color == DeliveredColor
    ensures status == "Shipped" ==> color == ShippedColor
    ensures status != "Delivered" && status != "Shipped" ==> color == DefaultColor
  {
    if status == "Delivered" then DeliveredColor
    else if status == "Shipped" then ShippedColor
    else DefaultColor
  }

  /** The three statuses get three different colours, so the colour alone
      tells the order's state. */
  lemma OrderColour(order: Order)
    ensures StatusColor(OrderStatus(order)) == DeliveredColor <==> order.isDelivered
    ensures StatusColor(OrderStatus(order)) == ShippedColor <==> order.isPaid && !order.isDelivered
    ensures StatusColor(OrderStatus(order)) == DefaultColor <==> !order.isPaid && !order.isDelivered
  {
  }

  function Qty(line: OrderLine): int
  {
    line.qty
  }

  /** `orderItems.reduce((acc, item) => acc + item.qty, 0)`. */
  function ItemCount(order: Order): int
  {
    Sum(order.orderItems, Qty)
  }

  /** The noun after the count. */
  function ItemNoun(order: Order): (noun: string)
    ensures noun == "item" <==> ItemCount(order) == 1
  {
    Labels.CountNoun(ItemCount(order))
  }

  predicate PositiveQuantities(lines: seq<OrderLine>)
  {
    forall i :: 0 <= i < |lines| ==> lines[i].qty >= 1
  }

  /** With every line at one unit or more, the count is at least the number
      of lines. */
  lemma {:induction false} CountAtLeastLines(lines: seq<OrderLine>)
    requires PositiveQuantities(lines)
    ensures Sum(lines, Qty) >= |lines|
  {
    if lines != [] {
      CountAtLeastLines(lines[1..]);
    }
  }

  /** With positive quantities the singular noun is shown exactly for an
      order of one line holding one unit. */
  lemma SingularNoun(order: Order)
    requires PositiveQuantities(order.orderItems)
    ensures ItemNoun(order) == "item"
            <==> |order.orderItems| == 1 && order.orderItems[0].qty == 1
  {
    var lines := order.orderItems;
    if |lines| >= 2 {
      CountAtLeastLines(lines);
    } else if |lines| == 1 {
      assert lines[1..] == [];
      assert ItemCount(order) == Qty(lines[0]) + Sum(lines[1..], Qty);
    }
  }

  /** `_id.substring(0, 8)`: the first eight characters, or the whole id
      when it is shorter. */
  function ShortId(id: string): (short: string)
    ensures |short| <= 8
    ensures |id| >= 8 ==> |short| == 8
    ensures |id| < 8 ==> short == id
    ensures short == id[..|short|]
  {
    if |id| <= 8 then id else id[..8]
  }
}
