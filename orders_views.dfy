/** The order views: checkout turns the user's cart into an order with
    frozen prices and clears the cart; the owner can pay or cancel; staff can
    list orders by status and set a status or a payment status. */
module OrderViews {
  import opened Base
  import opened ProductModels
  import opened CartViews
  import opened AccountViews

  datatype OrderStatus = Pending | Processing | Shipped | Delivered | Cancelled

  datatype PaymentStatus = PaymentPending | Paid | Failed | Refunded

  /** The stored code of an order status. */
  function StatusCode(s: OrderStatus): string {
    match s
    case Pending => "pending"
    case Processing => "processing"
    case Shipped => "shipped"
    case Delivered => "delivered"
    case Cancelled => "cancelled"
  }

  /** The stored code of a payment status. */
  function PaymentCode(s: PaymentStatus): string {
    match s
    case PaymentPending => "pending"
    case Paid => "paid"
    case Failed => "failed"
    case Refunded => "refunded"
  }

  /** The status a submitted code names, if it is one of the choices. */
  function ParseStatus(code: string): (r: Option<OrderStatus>)
    ensures r.Some? ==> StatusCode(r.value) == code
    ensures r.None? ==> forall s :: StatusCode(s) != code
  {
    if code == "pending" then Some(Pending)
    else if code == "processing" then Some(Processing)
    else if code == "shipped" then Some(Shipped)
    else if code == "delivered" then Some(Delivered)
    else if code == "cancelled" then Some(Cancelled)
    else None
  }

  /** The payment status a submitted code names, if it is one of the choices. */
  function ParsePayment(code: string): (r: Option<PaymentStatus>)
    ensures r.Some? ==> PaymentCode(r.value) == code
    ensures r.None? ==> forall s :: PaymentCode(s) != code
  {
    if code == "pending" then Some(PaymentPending)
    else if code == "paid" then Some(Paid)
    else if code == "failed" then Some(Failed)
    else if code == "refunded" then Some(Refunded)
    else None
  }

  /** Distinct statuses have distinct codes, so each code parses back to
      the status it came from. */
  lemma CodesRoundTrip(s: OrderStatus, t: PaymentStatus)
    ensures ParseStatus(StatusCode(s)) == Some(s)
    ensures ParsePayment(PaymentCode(t)) == Some(t)
  {
  }

  /** A line of an order: the unit price is the product's price when the
      order was placed. */
  datatype OrderItem = OrderItem(productId: nat, quantity: nat, price: Cents)

  /** An order. Amounts are in hundredths of a cent; `paidAtSet` says
      whether the payment time stamp has been set. */
  datatype Order = Order(
    id: nat,
    number: string,
    userId: nat,
    status: OrderStatus,
    paymentStatus: PaymentStatus,
    subtotal: int,
    shippingCost: int,
    taxAmount: int,
    totalAmount: int,
    shippingAddress: string,
    shippingCity: string,
    shippingPostalCode: string,
    contactEmail: string,
    contactPhone: string,
    paidAtSet: bool,
    createdAt: nat,
    items: seq<OrderItem>)

  /** A set of amounts, in hundredths of a cent. */
  datatype Totals = Totals(subtotal: int, shippingCost: int, taxAmount: int, totalAmount: int)

  /** The checkout page's figures for a cart worth `c` cents: free shipping,
      8% tax computed exactly, and the total of the three. */
  function CheckoutTotals(c: Cents): (t: Totals)
    ensures t.subtotal == SubunitsPerCent * c
    ensures t.shippingCost == 0
    ensures 100 * t.taxAmount == TaxPercent * t.subtotal
    ensures t.totalAmount == t.subtotal + t.shippingCost + t.taxAmount
  {
    var subtotal := SubunitsPerCent * c;
    Totals(subtotal, 0, TaxPercent * c, subtotal + 0 + TaxPercent * c)
  }

  /** The figures stored on a new order: shipping is stored as zero and the
      total is the subtotal plus the tax, with no shipping term. */
  function StoredTotals(c: Cents): (t: Totals)
    ensures t.subtotal == SubunitsPerCent * c
    ensures t.shippingCost == 0
    ensures 100 * t.taxAmount == TaxPercent * t.subtotal
    ensures t.totalAmount == t.subtotal + t.taxAmount
  {
    var subtotal := SubunitsPerCent * c;
    Totals(subtotal, 0, TaxPercent * c, subtotal + TaxPercent * c)
  }

  /** Because shipping is free, the stored figures are the ones shown. */
  lemma StoredTotalsAreShown(c: Cents)
    ensures StoredTotals(c) == CheckoutTotals(c)
  {
  }

  /** Two products at 10.00 and 5.00, and a cart holding two of the first
      and one of the second. */
  const BarbellPlate: Product := Product(1, "Plate", "", 1000, 1, 1, 10, false, true, 0)
  const JumpRope: Product := Product(2, "Rope", "", 500, 1, 1, 10, false, true, 0)
  const SampleLines: seq<CartItem> := [CartItem(1, 1, 1, 2), CartItem(2, 1, 2, 1)]

  /** That cart is worth 25.00; checkout shows 2.00 tax, free shipping and
      27.00 in all. */
  lemma CheckoutScenario()
    ensures TotalPrice(SampleLines, [BarbellPlate, JumpRope]) == 2500
    ensures CheckoutTotals(2500) == Totals(250000, 0, 20000, 270000)
  {
    var ps := [BarbellPlate, JumpRope];
    assert FindProduct(ps, 1) == Some(BarbellPlate);
    assert ps[1..] == [JumpRope];
    assert FindProduct(ps, 2) == Some(JumpRope);
    var first := SampleLines[..1];
    assert first == [CartItem(1, 1, 1, 2)] && first[..0] == [];
    assert TotalPrice(first, ps) == ProductPrice(ps, 1) * 2 == 2000;
    assert TotalPrice(SampleLines, ps) == TotalPrice(first, ps) + ProductPrice(ps, 2) * 1;
  }

  /** The summed price times quantity of an order's lines, in cents. */
  function ItemsTotal(items: seq<OrderItem>): Cents {
    if items == [] then 0
    else ItemsTotal(items[..|items| - 1]) + items[|items| - 1].price * items[|items| - 1].quantity
  }

  /** Order lines copied from cart lines, one each, with the same product
      and quantity and the current price. */
  predicate FrozenFrom(items: seq<OrderItem>, lines: seq<CartItem>, products: seq<Product>) {
    && |items| == |lines|
    && forall i :: 0 <= i < |lines| ==>
         items[i] == OrderItem(lines[i].productId, lines[i].quantity, ProductPrice(products, lines[i].productId))
  }

  /** The frozen lines are worth what the cart was worth. */
  lemma {:induction false} FrozenTotal(items: seq<OrderItem>, lines: seq<CartItem>, products: seq<Product>)
    requires FrozenFrom(items, lines, products)
    ensures ItemsTotal(items) == TotalPrice(lines, products)
  {
    if lines != [] {
      FrozenTotal(items[..|items| - 1], lines[..|lines| - 1], products);
    }
  }

  /** `value or default`: an empty profile field is replaced. */
  function OrDefault(s: string, default: string): (r: string)
    ensures s != "" ==> r == s
    ensures s == "" ==> r == default
  {
    if s == "" then default else s
  }

  /** The order `create_order_from_cart` makes: pending, unpaid, with the
      stored totals and the user's contact details. */
  function NewOrder(id: nat, number: string, user: User, items: seq<OrderItem>, cartTotal: Cents, now: nat): Order {
    var t := StoredTotals(cartTotal);
    Order(id, number, user.id, Pending, PaymentPending,
          t.subtotal, t.shippingCost, t.taxAmount, t.totalAmount,
          OrDefault(user.address, "Not provided"), OrDefault(user.city, "Not provided"),
          OrDefault(user.postalCode, "Not provided"), user.email, user.phoneNumber,
          false, now, items)
  }

  /** An order's amounts agree with its lines: the subtotal is the lines'
      worth, shipping is zero, the tax is 8% of the subtotal and the total is
      their sum; an order has at least one line. */
  predicate WellPriced(o: Order) {
    && o.items != []
    && o.subtotal == SubunitsPerCent * ItemsTotal(o.items)
    && o.shippingCost == 0
    && 100 * o.taxAmount == TaxPercent * o.subtotal
    && o.totalAmount == o.subtotal + o.taxAmount
  }

  predicate NumberTaken(orders: seq<Order>, number: string) {
    exists k :: 0 <= k < |orders| && orders[k].number == number
  }

  predicate IdsIncreasing(s: seq<Order>) {
    forall i, j :: 0 <= i < j < |s| ==> s[i].id < s[j].id
  }

  /** Newest first: ids decrease along the listing. */
  predicate IdsDecreasing(s: seq<Order>) {
    forall i, j :: 0 <= i < j < |s| ==> s[i].id > s[j].id
  }

  /** The position of order `id`, when it belongs to `owner` (any owner for
      `None`). */
  function OrderAt(orders: seq<Order>, id: nat, owner: Option<nat>): (r: Option<nat>)
    ensures r.Some? ==> r.value < |orders| && orders[r.value].id == id
                        && (owner.Some? ==> orders[r.value].userId == owner.value)
    ensures r.None? ==> forall k :: 0 <= k < |orders| ==>
                          !(orders[k].id == id && (owner.Some? ==> orders[k].userId == owner.value))
  {
    if orders == [] then None
    else if orders[0].id == id && (owner.Some? ==> orders[0].userId == owner.value) then Some(0)
    else match OrderAt(orders[1..], id, owner)
      case None => None
      case Some(k) => Some(k + 1)
  }

  /** The orders `keep` accepts, in their original order. */
  function Select(orders: seq<Order>, keep: Order -> bool): (r: seq<Order>)
    ensures forall o :: o in r <==> o in orders && keep(o)
    ensures r == [] <==> forall k :: 0 <= k < |orders| ==> !keep(orders[k])
  {
    if orders == [] then []
    else if keep(orders[0]) then [orders[0]] + Select(orders[1..], keep)
    else Select(orders[1..], keep)
  }

  /** Selecting keeps the table order, so ids still increase. */
  lemma {:induction false} SelectKeepsOrder(orders: seq<Order>, keep: Order -> bool)
    requires IdsIncreasing(orders)
    ensures IdsIncreasing(Select(orders, keep))
  {
    if orders != [] {
      var rest := Select(orders[1..], keep);
      SelectKeepsOrder(orders[1..], keep);
      forall j | 0 <= j < |rest| ensures orders[0].id < rest[j].id {
        assert rest[j] in orders[1..];
        var m :| 0 <= m < |orders[1..]| && orders[1..][m] == rest[j];
        assert orders[m + 1] == rest[j];
      }
    }
  }

  /** Listing newest first: increasing ids in table order become decreasing
      ids once reversed. */
  lemma NewestFirst(s: seq<Order>)
    requires IdsIncreasing(s)
    ensures IdsDecreasing(Reverse(s))
  {
  }

  /** An admin filter value keeps an order status code: no value, or the
      empty string, keeps everything. */
  predicate FilterKeeps(filter: Option<string>, code: string) {
    filter.None? || filter.value == "" || filter.value == code
  }

  /** What a staff status update changed. */
  datatype AdminChange = StatusSet(status: OrderStatus) | PaymentSet(payment: PaymentStatus)

  /** What checkout answers: the page with the cart's figures, or the id
      of the order it created. */
  datatype CheckoutOutcome = Preview(totals: Totals, lines: seq<CartItem>) | Created(orderId: nat)

  class OrderBook {
    /** All orders, in the order they were placed. */
    var orders: seq<Order>
    var nextOrderId: nat

    /** Ids increase in placement order and stay below the next one, order
        numbers are unique, and every order is well priced. */
    ghost predicate Valid()
      reads this
    {
      && (forall i :: 0 <= i < |orders| ==> orders[i].id < nextOrderId)
      && IdsIncreasing(orders)
      && (forall i, j :: 0 <= i < j < |orders| ==> orders[i].number != orders[j].number)
      && (forall i :: 0 <= i < |orders| ==> WellPriced(orders[i]))
    }

    constructor ()
      ensures Valid() && orders == []
    {
      orders, nextOrderId := [], 1;
    }

    /** `checkout_view` with `create_order_from_cart`. An absent or empty
        cart is refused. A POST creates the order (one line per cart line at
        the current price) and then empties the cart; if the order number is
        taken the creation fails and nothing changes. Any other call shows
        the cart's figures. */
    method Checkout(user: User, verb: HttpMethod, number: string, now: nat, carts: CartStore, products: seq<Product>)
      returns (r: Result<CheckoutOutcome>)
      requires Valid() && carts.Valid()
      modifies this, carts
      ensures Valid() && carts.Valid()
      ensures old(carts.CartLines(user.id)) == [] ==> r == Err(EmptyCart)
      ensures old(carts.CartLines(user.id)) != [] && verb != Post ==>
        r == Ok(Preview(CheckoutTotals(TotalPrice(old(carts.CartLines(user.id)), products)), old(carts.CartLines(user.id))))
      ensures old(carts.CartLines(user.id)) != [] && verb == Post && NumberTaken(old(orders), number) ==>
        r == Err(CheckoutFailed)
      ensures old(carts.CartLines(user.id)) != [] && verb == Post && !NumberTaken(old(orders), number) ==>
        r == Ok(Created(old(nextOrderId)))
      ensures !(r.Ok? && r.value.Created?) ==> unchanged(this) && unchanged(carts)
      ensures r.Ok? && r.value.Created? ==>
        var lines := old(carts.CartLines(user.id));
        && |orders| == |old(orders)| + 1
        && orders[..|old(orders)|] == old(orders)
        && FrozenFrom(orders[|old(orders)|].items, lines, products)
        && orders[|old(orders)|]
           == NewOrder(r.value.orderId, number, user, orders[|old(orders)|].items, TotalPrice(lines, products), now)
        && carts.carts == old(carts.carts)
        && carts.items == WithoutCart(old(carts.items), carts.carts[user.id])
        && carts.CartLines(user.id) == []
      ensures r.Ok? && r.value.Created? ==>
        && nextOrderId == old(nextOrderId) + 1
        && carts.nextCartId == old(carts.nextCartId) && carts.nextItemId == old(carts.nextItemId)
    {
      var lines := carts.CartLines(user.id);
      if lines == [] {
        return Err(EmptyCart);
      }
      var cartTotal := TotalPrice(lines, products);
      if verb != Post {
        return Ok(Preview(CheckoutTotals(cartTotal), lines));
      }
      if NumberTaken(orders, number) {
        return Err(CheckoutFailed);
      }
      var items := FreezeLines(lines, products);
      var order := NewOrder(nextOrderId, number, user, items, cartTotal, now);
      AppendOrder(order);
      var c := carts.carts[user.id];
      carts.DeleteLinesOf(c);
      WithoutCartFacts(old(carts.items), c);
      r := Ok(Created(order.id));
    }

    /** Stores a new well-priced order under the next id and a fresh number. */
    method AppendOrder(order: Order)
      requires Valid()
      requires order.id == nextOrderId && !NumberTaken(orders, order.number) && WellPriced(order)
      modifies this
      ensures Valid()
      ensures orders == old(orders) + [order] && orders[..|old(orders)|] == old(orders)
      ensures nextOrderId == old(nextOrderId) + 1
    {
      orders := orders + [order];
      nextOrderId := nextOrderId + 1;
      assert orders[..|old(orders)|] == old(orders);
    }

    /** `order_detail_view`: the order, when it is the user's. */
    function OrderDetail(userId: nat, orderId: nat): (r: Result<Order>)
      reads this
      ensures r.Ok? ==> r.value in orders && r.value.id == orderId && r.value.userId == userId
      ensures r.Err? <==> forall k :: 0 <= k < |orders| ==> !(orders[k].id == orderId && orders[k].userId == userId)
      ensures r.Err? ==> r.error == NotFound
    {
      match OrderAt(orders, orderId, Some(userId))
      case Some(k) => Ok(orders[k])
      case None => Err(NotFound)
    }

    /** `order_history_view`: the user's orders, newest first. */
    function OrderHistory(userId: nat): (r: seq<Order>)
      reads this
      ensures forall o :: o in r <==> o in orders && o.userId == userId
      ensures Valid() ==> IdsDecreasing(r)
    {
      var mine := (o: Order) => o.userId == userId;
      NewestFirstIfValid(orders, mine);
      Reverse(Select(orders, mine))
    }

    /** `admin_orders_view`: all orders newest first, narrowed by a status
        code and by a payment status code when those are given. */
    function AdminOrders(isSuperuser: bool, status: Option<string>, payment: Option<string>): (r: Result<seq<Order>>)
      reads this
      ensures r.Err? <==> !isSuperuser
      ensures r.Err? ==> r.error == AccessDenied
      ensures r.Ok? ==> forall o :: o in r.value <==>
        o in orders && FilterKeeps(status, StatusCode(o.status)) && FilterKeeps(payment, PaymentCode(o.paymentStatus))
      ensures r.Ok? && Valid() ==> IdsDecreasing(r.value)
    {
      if !isSuperuser then Err(AccessDenied)
      else
        var wanted := (o: Order) =>
          FilterKeeps(status, StatusCode(o.status)) && FilterKeeps(payment, PaymentCode(o.paymentStatus));
        NewestFirstIfValid(orders, wanted);
        Ok(Reverse(Select(orders, wanted)))
    }

    /** `process_payment_view`: the owner's unpaid order becomes paid and
        processing, whatever its status was, and gets its payment time; the
        answer is the order number. */
    method ProcessPayment(userId: nat, orderId: nat) returns (r: Result<string>)
      requires Valid()
      modifies this
      ensures Valid()
      ensures OrderAt(old(orders), orderId, Some(userId)).None? ==> r == Err(NotFound)
      ensures OrderAt(old(orders), orderId, Some(userId)).Some? ==>
        var k := OrderAt(old(orders), orderId, Some(userId)).value;
        && (old(orders)[k].paymentStatus == Paid ==> r == Err(AlreadyPaid))
        && (old(orders)[k].paymentStatus != Paid ==>
              && r == Ok(old(orders)[k].number)
              && orders == old(orders)[k := old(orders)[k].(paymentStatus := Paid, status := Processing, paidAtSet := true)])
      ensures r.Err? ==> unchanged(this)
      ensures nextOrderId == old(nextOrderId)
    {
      var found := OrderAt(orders, orderId, Some(userId));
      if found.None? {
        return Err(NotFound);
      }
      var k := found.value;
      if orders[k].paymentStatus == Paid {
        return Err(AlreadyPaid);
      }
      SetOrder(k, orders[k].(paymentStatus := Paid, status := Processing, paidAtSet := true));
      r := Ok(orders[k].number);
    }

    /** `update_order_status_view`: staff only. A POST with a valid status
        code sets the status, with no check of the transition, and returns
        before the payment status is looked at; otherwise a valid payment
        status code sets the payment status; anything else is refused. */
    method UpdateOrderStatus(isSuperuser: bool, orderId: nat, verb: HttpMethod, status: Option<string>, payment: Option<string>)
      returns (r: Result<AdminChange>)
      requires Valid()
      modifies this
      ensures Valid()
      ensures !isSuperuser ==> r == Err(AccessDenied)
      ensures isSuperuser && OrderAt(old(orders), orderId, None).None? ==> r == Err(NotFound)
      ensures isSuperuser && OrderAt(old(orders), orderId, None).Some? ==>
        var k := OrderAt(old(orders), orderId, None).value;
        var s := ParseStatus(status.GetOr(""));
        var p := ParsePayment(payment.GetOr(""));
        if verb == Post && s.Some? then
          r == Ok(StatusSet(s.value)) && orders == old(orders)[k := old(orders)[k].(status := s.value)]
        else if verb == Post && p.Some? then
          r == Ok(PaymentSet(p.value)) && orders == old(orders)[k := old(orders)[k].(paymentStatus := p.value)]
        else
          r == Err(InvalidRequest)
      ensures r.Err? ==> unchanged(this)
      ensures nextOrderId == old(nextOrderId)
    {
      if !isSuperuser {
        return Err(AccessDenied);
      }
      var found := OrderAt(orders, orderId, None);
      if found.None? {
        return Err(NotFound);
      }
      var k := found.value;
      if verb == Post {
        var s := ParseStatus(status.GetOr(""));
        if s.Some? {
          SetOrder(k, orders[k].(status := s.value));
          return Ok(StatusSet(s.value));
        }
        var p := ParsePayment(payment.GetOr(""));
        if p.Some? {
          SetOrder(k, orders[k].(paymentStatus := p.value));
          return Ok(PaymentSet(p.value));
        }
      }
      r := Err(InvalidRequest);
    }

    /** `cancel_order_view`: only on POST, only the owner's order, not once
        shipped or delivered, not twice; otherwise the status alone becomes
        cancelled. */
    method CancelOrder(userId: nat, orderId: nat, verb: HttpMethod) returns (r: Result<()>)
      requires Valid()
      modifies this
      ensures Valid()
      ensures verb != Post ==> r == Err(InvalidMethod)
      ensures verb == Post && OrderAt(old(orders), orderId, Some(userId)).None? ==> r == Err(NotFound)
      ensures verb == Post && OrderAt(old(orders), orderId, Some(userId)).Some? ==>
        var k := OrderAt(old(orders), orderId, Some(userId)).value;
        match old(orders)[k].status
        case Shipped => r == Err(CannotCancel)
        case Delivered => r == Err(CannotCancel)
        case Cancelled => r == Err(AlreadyCancelled)
        case _ => r == Ok(()) && orders == old(orders)[k := old(orders)[k].(status := Cancelled)]
      ensures r.Err? ==> unchanged(this)
      ensures nextOrderId == old(nextOrderId)
    {
      if verb != Post {
        return Err(InvalidMethod);
      }
      var found := OrderAt(orders, orderId, Some(userId));
      if found.None? {
        return Err(NotFound);
      }
      var k := found.value;
      var current := orders[k].status;
      if current == Shipped || current == Delivered {
        return Err(CannotCancel);
      }
      if current == Cancelled {
        return Err(AlreadyCancelled);
      }
      SetOrder(k, orders[k].(status := Cancelled));
      r := Ok(());
    }

    /** Saves order `k` with changed status fields; its id, number, lines
        and amounts stay as they were. */
    method SetOrder(k: nat, o: Order)
      requires Valid() && k < |orders|
      requires o.id == orders[k].id && o.number == orders[k].number
      requires o.items == orders[k].items
      requires o.subtotal == orders[k].subtotal && o.shippingCost == orders[k].shippingCost
      requires o.taxAmount == orders[k].taxAmount && o.totalAmount == orders[k].totalAmount
      modifies this
      ensures Valid()
      ensures orders == old(orders)[k := o] && nextOrderId == old(nextOrderId)
    {
      orders := orders[k := o];
    }
  }

  /** The loop of `create_order_from_cart`: one order line per cart line,
      priced as the product is now; the lines are worth the cart's total. */
  method FreezeLines(lines: seq<CartItem>, products: seq<Product>) returns (items: seq<OrderItem>)
    ensures FrozenFrom(items, lines, products)
    ensures ItemsTotal(items) == TotalPrice(lines, products)
  {
    items := [];
    var i := 0;
    while i < |lines|
      invariant 0 <= i <= |lines|
      invariant FrozenFrom(items, lines[..i], products)
    {
      var line := lines[i];
      items := items + [OrderItem(line.productId, line.quantity, ProductPrice(products, line.productId))];
      i := i + 1;
    }
    assert lines[..|lines|] == lines;
    FrozenTotal(items, lines, products);
  }

  /** The orders `keep` accepts, newest first when the table's ids increase. */
  lemma NewestFirstIfValid(orders: seq<Order>, keep: Order -> bool)
    ensures IdsIncreasing(orders) ==> IdsDecreasing(Reverse(Select(orders, keep)))
  {
    if IdsIncreasing(orders) {
      SelectKeepsOrder(orders, keep);
      NewestFirst(Select(orders, keep));
    }
  }

  /** A status filter that names no status lists nothing. */
  lemma UnknownStatusListsNothing(book: OrderBook, code: string, payment: Option<string>)
    requires code != "" && ParseStatus(code).None?
    ensures book.AdminOrders(true, Some(code), payment) == Ok([])
  {
  }

  /** Without filters the staff list is every order. */
  lemma NoFilterListsAll(book: OrderBook)
    ensures forall o :: o in book.AdminOrders(true, None, None).value <==> o in book.orders
  {
  }
}
