/** The mobile CheckoutScreen: a three-step flow (shipping, payment,
    review) whose submit buttons advance only past a validated form, and
    an order placement that turns the cart into an order payload and
    clears the cart once the store has accepted it. */
module Checkout {
  import opened Seqs
  import CartContext
  import Pricing

  datatype ShippingAddress = ShippingAddress(address: string, city: string, postalCode: string, country: string)

  function EmptyAddress(): ShippingAddress
  {
    ShippingAddress("", "", "", "")
  }

  const DefaultPaymentMethod: string := "PayPal"

  /** The shipping guard: all four fields filled in. */
  predicate ShippingComplete(a: ShippingAddress)
  {
    a.address != "" && a.city != "" && a.postalCode != "" && a.country != ""
  }

  /** The step after `handleShippingSubmit`. */
  function AfterShippingSubmit(step: int, a: ShippingAddress): (next: int)
    ensures ShippingComplete(a) ==> next == 2
    ensures !ShippingComplete(a) ==> next == step
  {
    if ShippingComplete(a) then 2 else step
  }

  /** The step after `handlePaymentSubmit`. */
  function AfterPaymentSubmit(step: int, paymentMethod: string): (next: int)
    ensures paymentMethod != "" ==> next == 3
    ensures paymentMethod == "" ==> next == step
  {
    if paymentMethod != "" then 3 else step
  }

  /** What the user can do on the first two steps. */
  datatype CheckoutEvent =
    | EditShipping(shipping: ShippingAddress)
    | SubmitShipping
    | ChoosePayment(choice: string)
    | SubmitPayment

  /** The state cells the step machine reads. */
  datatype Flow = Flow(step: int, shipping: ShippingAddress, paymentMethod: string)

  function InitialFlow(): Flow
  {
    Flow(1, EmptyAddress(), DefaultPaymentMethod)
  }

  function Next(f: Flow, e: CheckoutEvent): Flow
  {
    match e
    case EditShipping(a) => f.(shipping := a)
    case SubmitShipping => f.(step := AfterShippingSubmit(f.step, f.shipping))
    case ChoosePayment(m) => f.(paymentMethod := m)
    case SubmitPayment => f.(step := AfterPaymentSubmit(f.step, f.paymentMethod))
  }

  function Run(f: Flow, events: seq<CheckoutEvent>): Flow
    decreases events
  {
    if events == [] then f else Run(Next(f, events[0]), events[1..])
  }

  /** Whatever the user does, the step stays one of 1, 2, 3; it leaves step
      one only through a shipping or payment submit, and it reaches step
      three only through a payment submit. */
  lemma {:induction false} RunSteps(f: Flow, events: seq<CheckoutEvent>)
    requires 1 <= f.step <= 3
    ensures 1 <= Run(f, events).step <= 3
    ensures Run(f, events).step != f.step ==> SubmitShipping in events || SubmitPayment in events
    ensures Run(f, events).step == 3 && f.step != 3 ==> SubmitPayment in events
    decreases events
  {
    if events != [] {
      RunSteps(Next(f, events[0]), events[1..]);
      assert events == [events[0]] + events[1..];
    }
  }

  /** From the start, an empty shipping form keeps the flow on step one,
      and a complete one followed by a payment submit with the default
      method reaches the review step. */
  lemma HappyPath(a: ShippingAddress)
    ensures Run(InitialFlow(), [SubmitShipping]).step == 1
    ensures ShippingComplete(a)
            ==> Run(InitialFlow(), [EditShipping(a), SubmitShipping, SubmitPayment]).step == 3
  {
    var evs := [EditShipping(a), SubmitShipping, SubmitPayment];
    assert evs[1..] == [SubmitShipping, SubmitPayment] && evs[1..][1..] == [SubmitPayment];
    var f1 := Next(InitialFlow(), EditShipping(a));
    var f2 := Next(f1, SubmitShipping);
    var f3 := Next(f2, SubmitPayment);
    assert Run(InitialFlow(), evs) == Run(f1, evs[1..]) == Run(f2, evs[1..][1..]) == Run(f3, []);
  }

  /** One line of the order payload. */
  datatype OrderItem = OrderItem(
    name: string,
    qty: int,
    image: string,
    price: int,
    product: string,
    size: Option<string>,
    color: Option<string>)

  datatype OrderPayload = OrderPayload(
    orderItems: seq<OrderItem>,
    shippingAddress: ShippingAddress,
    paymentMethod: string,
    itemsPrice: int,
    taxPrice: real,
    shippingPrice: int,
    totalPrice: real)

  /** The `cartItems.map` callback of `handlePlaceOrder`. */
  function ToOrderItem(item: CartContext.CartItem): OrderItem
  {
    OrderItem(item.name, item.quantity, item.image, item.price, item.id, item.size, item.color)
  }

  function ToOrderItems(cart: seq<CartContext.CartItem>): seq<OrderItem>
  {
    seq(|cart|, i requires 0 <= i < |cart| => ToOrderItem(cart[i]))
  }

  /** The payload of `handlePlaceOrder`, priced from the cart total. */
  function BuildOrder(cart: seq<CartContext.CartItem>, shipping: ShippingAddress, paymentMethod: string): OrderPayload
  {
    var summary := Pricing.Summarize(CartContext.CartTotal(cart));
    OrderPayload(ToOrderItems(cart), shipping, paymentMethod,
                 summary.subtotal, summary.tax, summary.shipping, summary.total)
  }

  /** The order lines follow the cart row by row, in order, with qty the
      row's quantity and product its id; the prices are the cart total,
      8% tax, the flat 5.99 shipping and their sum. */
  lemma OrderMatchesCart(cart: seq<CartContext.CartItem>, shipping: ShippingAddress, paymentMethod: string)
    ensures |BuildOrder(cart, shipping, paymentMethod).orderItems| == |cart|
    ensures forall k :: 0 <= k < |cart| ==>
              var line := BuildOrder(cart, shipping, paymentMethod).orderItems[k];
              line.qty == cart[k].quantity && line.product == cart[k].id
              && line.name == cart[k].name && line.image == cart[k].image && line.price == cart[k].price
              && line.size == cart[k].size && line.color == cart[k].color
    ensures BuildOrder(cart, shipping, paymentMethod).itemsPrice == CartContext.CartTotal(cart)
    ensures BuildOrder(cart, shipping, paymentMethod).shippingPrice == Pricing.ShippingCents
    ensures BuildOrder(cart, shipping, paymentMethod).taxPrice == Pricing.TaxRate * CartContext.CartTotal(cart) as real
    ensures BuildOrder(cart, shipping, paymentMethod).totalPrice
         == (CartContext.CartTotal(cart) + Pricing.ShippingCents) as real + BuildOrder(cart, shipping, paymentMethod).taxPrice
    ensures BuildOrder(cart, shipping, paymentMethod).shippingAddress == shipping
    ensures BuildOrder(cart, shipping, paymentMethod).paymentMethod == paymentMethod
  {
  }

  /** The order lines carry the cart's value: summing price times qty over
      them gives the items price. */
  lemma {:induction false} OrderItemsTotal(cart: seq<CartContext.CartItem>)
    ensures Sum(ToOrderItems(cart), (o: OrderItem) => o.price * o.qty) == CartContext.CartTotal(cart)
    decreases cart
  {
    if cart != [] {
      OrderItemsTotal(cart[1..]);
      assert ToOrderItems(cart)[1..] == ToOrderItems(cart[1..]);
    }
  }

  class CheckoutScreen {
    const cart: CartContext.CartProvider
    var activeStep: int
    var loading: bool
    var shippingAddress: ShippingAddress
    var paymentMethod: string

    constructor (cart: CartContext.CartProvider)
      ensures this.cart == cart
      ensures activeStep == 1 && !loading
      ensures shippingAddress == EmptyAddress() && paymentMethod == DefaultPaymentMethod
    {
      this.cart := cart;
      activeStep := 1;
      loading := false;
      shippingAddress := EmptyAddress();
      paymentMethod := DefaultPaymentMethod;
    }

    /** The shipping form's `onChangeText` handlers. */
    method EditShipping(a: ShippingAddress)
      modifies this`shippingAddress
      ensures shippingAddress == a
    {
      shippingAddress := a;
    }

    method ChoosePayment(m: string)
      modifies this`paymentMethod
      ensures paymentMethod == m
    {
      paymentMethod := m;
    }

    /** `handleShippingSubmit`: on to step two only with all four fields
        filled in; otherwise an alert and no change. */
    method HandleShippingSubmit()
      modifies this`activeStep
      ensures activeStep == AfterShippingSubmit(old(activeStep), shippingAddress)
    {
      if shippingAddress.address == "" || shippingAddress.city == ""
         || shippingAddress.postalCode == "" || shippingAddress.country == "" {
        return;
      }
      activeStep := 2;
    }

    /** `handlePaymentSubmit`: on to step three only with a payment method. */
    method HandlePaymentSubmit()
      modifies this`activeStep
      ensures activeStep == AfterPaymentSubmit(old(activeStep), paymentMethod)
    {
      if paymentMethod == "" {
        return;
      }
      activeStep := 3;
    }

    /** `handlePlaceOrder`. `createOrder` is the store's answer: the new
        order's id, or `None` when the request throws. The payload is built
        from the cart as it stands; the cart is cleared only on success,
        and loading ends either way. */
    method HandlePlaceOrder(createOrder: Option<string>) returns (sent: OrderPayload, placedOrderId: Option<string>)
      modifies cart, this`loading
      ensures sent == BuildOrder(old(cart.cartItems), shippingAddress, paymentMethod)
      ensures createOrder.Some? ==> cart.cartItems == [] && placedOrderId == createOrder
      ensures createOrder.None? ==> cart.cartItems == old(cart.cartItems) && placedOrderId == None
      ensures !loading
    {
      loading := true;
      sent := BuildOrder(cart.cartItems, shippingAddress, paymentMethod);
      if createOrder.Some? {
        cart.ClearCart();
        placedOrderId := createOrder;
      } else {
        placedOrderId := None;
      }
      loading := false;
    }
  }
}
