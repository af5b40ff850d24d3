/**
 * Order placement (src/app/actions/orders.ts): turning the signed-in user's
 * server cart into an `orders` row plus `order_items` snapshot rows, with a
 * best-effort rollback and cart clearing, and the list of payment methods
 * offered at checkout.
 */
module OrderActions {
  import opened Wrappers
  import opened Entities
  import opened Store

  const LoginRequired := "You must be logged in to place an order"
  const CartEmpty := "Your cart is empty"
  const OrderInsertFailed := "Failed to create order"
  const ItemsInsertFailed := "Failed to create order items"

  /** Fallback of NEXT_PUBLIC_FLAT_DELIVERY_FEE, charged on every delivery order. */
  const DefaultFlatDeliveryFee: real := 25.0
  /** Tax is not implemented: always zero. */
  const Tax: real := 0.0

  // ---------- totals ----------

  /** The order line a cart row becomes: product details as they are now, the price as it was when added. */
  function Snapshot(item: CartItem, product: Product): (line: LineSnapshot)
    ensures line.productId == item.productId && line.quantity == item.quantity
    ensures line.unitPrice == item.priceAtAdd
    ensures line.totalPrice == item.quantity as real * item.priceAtAdd
    ensures line.productName == product.name && line.productSku == product.sku
    ensures line.woodType == product.woodType && line.unitType == product.unitType
    ensures line.isHeatTreated == product.isHeatTreated
  {
    LineSnapshot(item.productId, product.name, product.sku, product.woodType, product.unitType,
                 product.isHeatTreated, item.quantity, item.priceAtAdd, item.quantity as real * item.priceAtAdd)
  }

  /** A later change to the catalog price does not change what an order line charges. */
  lemma SnapshotIgnoresCurrentPrice(item: CartItem, product: Product, newPrice: real)
    ensures Snapshot(item, product.(price := newPrice)) == Snapshot(item, product)
  {
  }

  /** Every row of the cart names a product that still exists. */
  predicate AllResolve(items: seq<CartItem>, products: map<ProductId, Product>) {
    forall x :: x in items ==> x.productId in products
  }

  /** The order lines of a cart, in the cart's row order. */
  function OrderLines(items: seq<CartItem>, products: map<ProductId, Product>): (lines: seq<LineSnapshot>)
    requires AllResolve(items, products)
    ensures |lines| == |items|
    ensures forall k :: 0 <= k < |items| ==> lines[k] == Snapshot(items[k], products[items[k].productId])
  {
    seq(|items|, k requires 0 <= k < |items| => Snapshot(items[k], products[items[k].productId]))
  }

  /** The running sum `subtotal += quantity * price_at_add`, taken in row order. */
  function CartSubtotal(items: seq<CartItem>): real {
    if items == [] then 0.0
    else CartSubtotal(items[..|items| - 1]) + items[|items| - 1].quantity as real * items[|items| - 1].priceAtAdd
  }

  /** The sum of the lines' totals. */
  function LinesTotal(lines: seq<LineSnapshot>): real {
    if lines == [] then 0.0 else LinesTotal(lines[..|lines| - 1]) + lines[|lines| - 1].totalPrice
  }

  /** The subtotal of a cart equals the sum of its order lines' totals, so an order's lines add up to its subtotal. */
  lemma {:induction false} SubtotalMatchesLines(items: seq<CartItem>, products: map<ProductId, Product>)
    requires AllResolve(items, products)
    ensures LinesTotal(OrderLines(items, products)) == CartSubtotal(items)
  {
    if items != [] {
      var init := items[..|items| - 1];
      var lines := OrderLines(items, products);
      assert OrderLines(init, products) == lines[..|lines| - 1];
      SubtotalMatchesLines(init, products);
    }
  }

  /** Splitting a cart splits its subtotal. */
  lemma {:induction false} CartSubtotalAppend(a: seq<CartItem>, b: seq<CartItem>)
    ensures CartSubtotal(a + b) == CartSubtotal(a) + CartSubtotal(b)
  {
    if b == [] {
      assert a + b == a;
    } else {
      var last := b[|b| - 1];
      assert (a + b)[..|a + b| - 1] == a + b[..|b| - 1];
      CartSubtotalAppend(a, b[..|b| - 1]);
    }
  }

  /** With non-negative quantities and prices the subtotal is non-negative. */
  lemma {:induction false} CartSubtotalNonNegative(items: seq<CartItem>)
    requires forall x :: x in items ==> x.quantity >= 0 && x.priceAtAdd >= 0.0
    ensures CartSubtotal(items) >= 0.0
  {
    if items != [] {
      var init := items[..|items| - 1];
      assert forall x :: x in init ==> x in items;
      CartSubtotalNonNegative(init);
      var last := items[|items| - 1];
      assert last in items;
      assert last.quantity as real * last.priceAtAdd >= 0.0;
    }
  }

  /**
   * The `cart_items.map` of `createOrder`: builds the order lines and
   * accumulates the subtotal in one pass over the cart.
   */
  method ComputeTotals(items: seq<CartItem>, products: map<ProductId, Product>)
    returns (lines: seq<LineSnapshot>, subtotal: real)
    requires AllResolve(items, products)
    ensures lines == OrderLines(items, products)
    ensures subtotal == CartSubtotal(items)
  {
    lines, subtotal := [], 0.0;
    var i := 0;
    while i < |items|
      invariant 0 <= i <= |items|
      invariant lines == OrderLines(items[..i], products)
      invariant subtotal == CartSubtotal(items[..i])
    {
      var item := items[i];
      var itemTotal := item.quantity as real * item.priceAtAdd;
      assert items[..i + 1][..i] == items[..i];
      subtotal := subtotal + itemTotal;
      lines := lines + [Snapshot(item, products[item.productId])];
      i := i + 1;
    }
    assert items[..i] == items;
  }

  // ---------- the order row ----------

  /** `delivery_type === 'delivery' ? flatFee : 0`. */
  function DeliveryFeeFor(deliveryType: DeliveryType, flatFee: real): (fee: real)
    ensures deliveryType == Pickup ==> fee == 0.0
    ensures deliveryType == Delivery ==> fee == flatFee
  {
    match deliveryType
    case Delivery => flatFee
    case Pickup => 0.0
  }

  /** The order number: the generator's result, unless it is missing or empty (JavaScript `||`). */
  function OrderNumber(generated: Option<string>, fallback: string): (n: string)
    ensures generated.Some? && generated.value != "" ==> n == generated.value
    ensures generated.None? || generated.value == "" ==> n == fallback
  {
    if generated.Some? && generated.value != "" then generated.value else fallback
  }

  /** The checkout form fields `createOrder` copies onto the order. */
  datatype CheckoutInput = CheckoutInput(
    shipping: ShippingDetails,
    deliveryType: DeliveryType,
    paymentMethodId: PaymentMethodId,
    customerNotes: Option<string>,
    latitude: Option<real>,
    longitude: Option<real>,
    paymentProofUrl: Option<string>)

  /** The new `orders` row: customer fields copied, amounts computed, both statuses pending. */
  function NewOrder(id: OrderId, number: string, user: UserId, input: CheckoutInput, subtotal: real, flatFee: real)
    : (o: Order)
    ensures o.id == id && o.orderNumber == number && o.userId == user
    ensures o.shipping == input.shipping && o.deliveryType == input.deliveryType
    ensures o.paymentMethodId == input.paymentMethodId && o.paymentProofUrl == input.paymentProofUrl
    ensures o.latitude == input.latitude && o.longitude == input.longitude
    ensures o.customerNotes == input.customerNotes
    ensures o.subtotal == subtotal && o.tax == 0.0
    ensures o.deliveryFee == DeliveryFeeFor(input.deliveryType, flatFee)
    ensures o.total == o.subtotal + o.deliveryFee + o.tax
    ensures o.status == Pending && o.paymentStatus == PaymentPending
    ensures o.paidAt.None? && o.shippedAt.None? && o.deliveredAt.None? && o.cancelledAt.None?
  {
    var fee := DeliveryFeeFor(input.deliveryType, flatFee);
    Order(id, number, user, input.shipping, input.deliveryType, input.latitude, input.longitude,
          subtotal, fee, Tax, subtotal + fee + Tax, input.paymentMethodId, input.paymentProofUrl,
          input.customerNotes, Pending, PaymentPending, None, None, None, None)
  }

  /** A pickup order costs exactly its subtotal; a delivery order adds the flat fee. */
  lemma OrderTotalByDeliveryType(id: OrderId, number: string, user: UserId, input: CheckoutInput, subtotal: real,
                                 flatFee: real)
    ensures input.deliveryType == Pickup ==> NewOrder(id, number, user, input, subtotal, flatFee).total == subtotal
    ensures input.deliveryType == Delivery ==>
      NewOrder(id, number, user, input, subtotal, flatFee).total == subtotal + flatFee
  {
  }

  /** The `order_items` rows of an order: its lines tagged with the order id. */
  function Tagged(id: OrderId, lines: seq<LineSnapshot>): (rows: seq<OrderItem>)
    ensures |rows| == |lines|
    ensures forall k :: 0 <= k < |lines| ==> rows[k].orderId == id && rows[k].line == lines[k]
  {
    seq(|lines|, k requires 0 <= k < |lines| => OrderItem(id, lines[k]))
  }

  // ---------- createOrder ----------

  /** The rows of a user's cart, or none when the user has no cart. */
  function CartRows(carts: seq<Cart>, items: seq<CartItem>, user: UserId): (r: seq<CartItem>)
    ensures CartOf(carts, user).None? ==> r == []
    ensures CartOf(carts, user).Some? ==>
      forall x :: x in r <==> x in items && x.cartId == CartOf(carts, user).value.id
  {
    match CartOf(carts, user)
    case None => []
    case Some(c) => ItemsOf(items, c.id)
  }

  /** What `createOrder` returns: the order, an error message, or an exception (a row whose product is gone). */
  datatype OrderResult = Placed(order: Order) | Rejected(message: string) | Threw

  /**
   * The storage faults `createOrder` can meet: the order insert, the batch
   * insert of its items, the rollback delete and the cart clearing. The last
   * two are not checked by the source.
   */
  datatype OrderFaults = OrderFaults(orderInsertFails: bool, itemsInsertFails: bool, rollbackFails: bool,
                                     clearFails: bool)

  /**
   * The three ways writing an order ends, from the tables before (`orders0`,
   * `items0`, `cartItems0`) to the tables after: a failed order insert writes
   * nothing; a failed items insert deletes the order again, or leaves it when
   * that rollback fails; otherwise the order and its items are in, and the
   * cart is emptied unless clearing it fails.
   */
  ghost predicate WriteOutcome(orders0: seq<Order>, items0: seq<OrderItem>, cartItems0: seq<CartItem>,
                               orders: seq<Order>, items: seq<OrderItem>, cartItems: seq<CartItem>,
                               r: OrderResult, order: Order, lines: seq<LineSnapshot>, cart: CartId,
                               faults: OrderFaults)
  {
    if faults.orderInsertFails then
      r == Rejected(OrderInsertFailed) && orders == orders0 && items == items0 && cartItems == cartItems0
    else if faults.itemsInsertFails then
      && r == Rejected(ItemsInsertFailed)
      && orders == (if faults.rollbackFails then orders0 + [order] else orders0)
      && items == items0 && cartItems == cartItems0
    else
      && r == Placed(order)
      && orders == orders0 + [order]
      && items == items0 + Tagged(order.id, lines)
      && cartItems == (if faults.clearFails then cartItems0 else WithoutCart(cartItems0, cart))
  }

  /**
   * The writes of `createOrder` once the order row is built: insert the
   * order, then its items; a failed items insert deletes the order again (or
   * leaves it behind when that delete fails too); a failed cart clear is
   * ignored.
   */
  method WriteOrder(db: Db, order: Order, lines: seq<LineSnapshot>, cart: CartId, faults: OrderFaults)
    returns (r: OrderResult)
    requires db.Valid() && order.id == db.nextId
    modifies db`orders, db`orderItems, db`cartItems, db`nextId
    ensures db.Valid()
    ensures WriteOutcome(old(db.orders), old(db.orderItems), old(db.cartItems),
                         db.orders, db.orderItems, db.cartItems, r, order, lines, cart, faults)
  {
    if faults.orderInsertFails {
      return Rejected(OrderInsertFailed);
    }
    db.orders := db.orders + [order];
    db.nextId := db.nextId + 1;
    if faults.itemsInsertFails {
      if !faults.rollbackFails {
        WithoutFreshOrder(old(db.orders), order);
        db.orders := WithoutOrder(db.orders, order.id);
      }
      return Rejected(ItemsInsertFailed);
    }
    db.orderItems := db.orderItems + Tagged(order.id, lines);
    if !faults.clearFails {
      db.cartItems := WithoutCart(db.cartItems, cart);
    }
    r := Placed(order);
  }

  /**
   * `createOrder`. Nothing is written unless the user's cart has rows and
   * every row's product resolves; then the order is built from the cart and
   * written as `WriteOrder` says. The cart read's error is not inspected: a
   * failed read (`cartReadFails`) looks like an empty cart.
   */
  method CreateOrder(db: Db, user: Option<UserId>, input: CheckoutInput, flatFee: real,
                     generatedNumber: Option<string>, fallbackNumber: string, cartReadFails: bool,
                     faults: OrderFaults)
    returns (r: OrderResult)
    requires db.Valid()
    modifies db`orders, db`orderItems, db`cartItems, db`nextId
    ensures db.Valid()
    ensures user.None? || cartReadFails || CartRows(db.carts, old(db.cartItems), user.value) == []
            || !AllResolve(CartRows(db.carts, old(db.cartItems), user.value), db.products) ==>
      && r == (if user.None? then Rejected(LoginRequired)
               else if cartReadFails || CartRows(db.carts, old(db.cartItems), user.value) == [] then Rejected(CartEmpty)
               else Threw)
      && db.orders == old(db.orders) && db.orderItems == old(db.orderItems) && db.cartItems == old(db.cartItems)
    ensures user.Some? && !cartReadFails && CartRows(db.carts, old(db.cartItems), user.value) != []
            && AllResolve(CartRows(db.carts, old(db.cartItems), user.value), db.products) ==>
      var rows := CartRows(db.carts, old(db.cartItems), user.value);
      var order := NewOrder(old(db.nextId), OrderNumber(generatedNumber, fallbackNumber), user.value, input,
                            CartSubtotal(rows), flatFee);
      && CartOf(db.carts, user.value).Some?
      && WriteOutcome(old(db.orders), old(db.orderItems), old(db.cartItems),
                      db.orders, db.orderItems, db.cartItems, r, order, OrderLines(rows, db.products),
                      CartOf(db.carts, user.value).value.id, faults)
  {
    if user.None? {
      return Rejected(LoginRequired);
    }
    var rows := CartRows(db.carts, db.cartItems, user.value);
    if cartReadFails || rows == [] {
      return Rejected(CartEmpty);
    }
    if !AllResolve(rows, db.products) {
      return Threw;
    }
    r := PlaceOrder(db, user.value, rows, input, flatFee, OrderNumber(generatedNumber, fallbackNumber), faults);
  }

  /** The writing half of `createOrder`, once the cart's rows are known to be non-empty and to resolve. */
  method PlaceOrder(db: Db, user: UserId, rows: seq<CartItem>, input: CheckoutInput, flatFee: real,
                    number: string, faults: OrderFaults)
    returns (r: OrderResult)
    requires db.Valid() && rows != [] && rows == CartRows(db.carts, db.cartItems, user)
    requires AllResolve(rows, db.products)
    modifies db`orders, db`orderItems, db`cartItems, db`nextId
    ensures db.Valid()
    ensures CartOf(db.carts, user).Some?
    ensures WriteOutcome(old(db.orders), old(db.orderItems), old(db.cartItems),
                         db.orders, db.orderItems, db.cartItems, r,
                         NewOrder(old(db.nextId), number, user, input, CartSubtotal(rows), flatFee),
                         OrderLines(rows, db.products), CartOf(db.carts, user).value.id, faults)
  {
    var lines, subtotal := ComputeTotals(rows, db.products);
    var order := NewOrder(db.nextId, number, user, input, subtotal, flatFee);
    r := WriteOrder(db, order, lines, CartOf(db.carts, user).value.id, faults);
  }

  /** A placed order's lines add up to its subtotal, and its total adds the delivery fee and tax. */
  lemma PlacedOrderAddsUp(rows: seq<CartItem>, products: map<ProductId, Product>, id: OrderId, number: string,
                          user: UserId, input: CheckoutInput, flatFee: real)
    requires AllResolve(rows, products)
    ensures var o := NewOrder(id, number, user, input, CartSubtotal(rows), flatFee);
      LinesTotal(OrderLines(rows, products)) + o.deliveryFee + o.tax == o.total
  {
    SubtotalMatchesLines(rows, products);
  }

  // ---------- getPaymentMethods ----------

  /** `.eq('is_active', true)`. */
  function ActiveMethods(rows: seq<PaymentMethod>): (r: seq<PaymentMethod>)
    ensures forall m :: m in r <==> m in rows && m.isActive
  {
    Filter(rows, (m: PaymentMethod) => m.isActive)
  }

  ghost predicate SortedByDisplayOrder(s: seq<PaymentMethod>) {
    forall i, j :: 0 <= i < j < |s| ==> s[i].displayOrder <= s[j].displayOrder
  }

  /** Places one method into a list already ordered by `display_order`. */
  function InsertByDisplayOrder(m: PaymentMethod, s: seq<PaymentMethod>): (r: seq<PaymentMethod>)
    requires SortedByDisplayOrder(s)
    ensures r != [] && (r[0] == m || (s != [] && r[0] == s[0]))
    ensures SortedByDisplayOrder(r)
    ensures multiset(r) == multiset(s) + multiset{m}
  {
    if s == [] || m.displayOrder <= s[0].displayOrder then
      ConsSorted(m, s);
      [m] + s
    else
      assert SortedByDisplayOrder(s[1..]);
      var rest := InsertByDisplayOrder(m, s[1..]);
      assert s == [s[0]] + s[1..];
      assert multiset(s) == multiset{s[0]} + multiset(s[1..]);
      ConsSorted(s[0], rest);
      assert multiset([s[0]] + rest) == multiset{s[0]} + multiset(rest);
      [s[0]] + rest
  }

  /** A method no later than the head of an ordered list may go in front of it. */
  lemma ConsSorted(x: PaymentMethod, s: seq<PaymentMethod>)
    requires SortedByDisplayOrder(s)
    requires s == [] || x.displayOrder <= s[0].displayOrder
    ensures SortedByDisplayOrder([x] + s)
  {
  }

  /** `.order('display_order', { ascending: true })`. */
  function ByDisplayOrder(s: seq<PaymentMethod>): (r: seq<PaymentMethod>)
    ensures SortedByDisplayOrder(r)
    ensures multiset(r) == multiset(s)
  {
    if s == [] then []
    else
      assert s == [s[0]] + s[1..];
      InsertByDisplayOrder(s[0], ByDisplayOrder(s[1..]))
  }

  /** `getPaymentMethods`: the active methods in display order; none when the query fails. */
  function CheckoutPaymentMethods(rows: seq<PaymentMethod>, queryFails: bool): (r: seq<PaymentMethod>)
    ensures queryFails ==> r == []
    ensures !queryFails ==> SortedByDisplayOrder(r) && multiset(r) == multiset(ActiveMethods(rows))
  {
    if queryFails then [] else ByDisplayOrder(ActiveMethods(rows))
  }

  /** Checkout offers exactly the active methods: every active one, and no inactive one. */
  lemma CheckoutOffersActive(rows: seq<PaymentMethod>, m: PaymentMethod)
    ensures m in CheckoutPaymentMethods(rows, false) <==> m in rows && m.isActive
  {
    var r := CheckoutPaymentMethods(rows, false);
    assert m in r <==> m in multiset(r);
    assert m in ActiveMethods(rows) <==> m in multiset(ActiveMethods(rows));
  }
}
