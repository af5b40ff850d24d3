/**
 * The form schemas of src/lib/validations/schemas.ts as predicates.
 * Form numbers are JavaScript numbers (reals here); `.int()` asks for a
 * whole value. The email, uuid and url checks of the schema library are
 * left abstract: they are parameters.
 */
module Validation {
  import opened Wrappers
  import opened Entities
  import Delivery
  import Store
  import CartActions
  import OrderActions
  import AdminActions

  /** `z.number().int()`. */
  predicate IsInteger(x: real) {
    x.Floor as real == x
  }

  /** `z.string().min(lo).max(hi)`. */
  predicate LengthWithin(s: string, lo: nat, hi: nat) {
    lo <= |s| <= hi
  }

  /** An optional string that, when present, has at most `hi` characters. */
  predicate OptionalAtMost(s: Option<string>, hi: nat) {
    s.Some? ==> |s.value| <= hi
  }

  // ---------- the enumerations ----------

  /** `z.enum(['cord', 'face_cord', 'bundle', 'rack'])`. */
  function ParseUnitType(s: string): (r: Option<UnitType>)
    ensures r.Some? ==> UnitTypeName(r.value) == s
  {
    if s == "cord" then Some(Cord)
    else if s == "face_cord" then Some(FaceCord)
    else if s == "bundle" then Some(Bundle)
    else if s == "rack" then Some(Rack)
    else None
  }

  /** `z.enum(['delivery', 'pickup'])`. */
  function ParseDeliveryType(s: string): (r: Option<DeliveryType>)
    ensures r.Some? ==> DeliveryTypeName(r.value) == s
  {
    if s == "delivery" then Some(Delivery)
    else if s == "pickup" then Some(Pickup)
    else None
  }

  /** `z.enum(['pending', 'processing', 'shipped', 'delivered', 'cancelled'])`. */
  function ParseOrderStatus(s: string): (r: Option<OrderStatus>)
    ensures r.Some? ==> OrderStatusName(r.value) == s
  {
    if s == "pending" then Some(Pending)
    else if s == "processing" then Some(Processing)
    else if s == "shipped" then Some(Shipped)
    else if s == "delivered" then Some(Delivered)
    else if s == "cancelled" then Some(Cancelled)
    else None
  }

  /** `z.enum(['pending', 'paid', 'failed', 'refunded'])`. */
  function ParsePaymentStatus(s: string): (r: Option<PaymentStatus>)
    ensures r.Some? ==> PaymentStatusName(r.value) == s
  {
    if s == "pending" then Some(PaymentPending)
    else if s == "paid" then Some(Paid)
    else if s == "failed" then Some(Failed)
    else if s == "refunded" then Some(Refunded)
    else None
  }

  /** Every stored spelling is accepted and read back as the value it spells. */
  lemma EnumRoundTrips(u: UnitType, d: DeliveryType, o: OrderStatus, p: PaymentStatus)
    ensures ParseUnitType(UnitTypeName(u)) == Some(u)
    ensures ParseDeliveryType(DeliveryTypeName(d)) == Some(d)
    ensures ParseOrderStatus(OrderStatusName(o)) == Some(o)
    ensures ParsePaymentStatus(PaymentStatusName(p)) == Some(p)
  {
    match u
    case Cord => case FaceCord => case Bundle => case Rack =>
    match d
    case Delivery => case Pickup =>
    match o
    case Pending => case Processing => case Shipped => case Delivered => case Cancelled =>
    match p
    case PaymentPending => case Paid => case Failed => case Refunded =>
  }

  /** Each enumeration field accepts exactly the stored spellings of its values. */
  lemma ParsersAcceptExactlyNames(s: string)
    ensures ParseUnitType(s).Some? <==> exists u :: UnitTypeName(u) == s
    ensures ParseDeliveryType(s).Some? <==> exists d :: DeliveryTypeName(d) == s
    ensures ParseOrderStatus(s).Some? <==> exists o :: OrderStatusName(o) == s
    ensures ParsePaymentStatus(s).Some? <==> exists p :: PaymentStatusName(p) == s
  {
    forall u | UnitTypeName(u) == s ensures ParseUnitType(s).Some? {
      EnumRoundTrips(u, Delivery, Pending, PaymentPending);
    }
    forall d | DeliveryTypeName(d) == s ensures ParseDeliveryType(s).Some? {
      EnumRoundTrips(Cord, d, Pending, PaymentPending);
    }
    forall o | OrderStatusName(o) == s ensures ParseOrderStatus(s).Some? {
      EnumRoundTrips(Cord, Delivery, o, PaymentPending);
    }
    forall p | PaymentStatusName(p) == s ensures ParsePaymentStatus(s).Some? {
      EnumRoundTrips(Cord, Delivery, Pending, p);
    }
  }

  // ---------- products ----------

  datatype ProductForm = ProductForm(
    name: string,
    slug: string,
    price: real,
    compareAtPrice: Option<real>,
    stockQuantity: real,
    woodType: string,
    unitType: string,
    moistureContent: Option<real>,
    weightLbs: Option<real>,
    metaTitle: Option<string>,
    metaDescription: Option<string>)

  /** `productSchema`. */
  predicate ValidProduct(f: ProductForm) {
    && LengthWithin(f.name, 1, 200)
    && LengthWithin(f.slug, 1, 200)
    && f.price > 0.0
    && (f.compareAtPrice.Some? ==> f.compareAtPrice.value > 0.0)
    && IsInteger(f.stockQuantity) && f.stockQuantity >= 0.0
    && |f.woodType| >= 1
    && ParseUnitType(f.unitType).Some?
    && (f.moistureContent.Some? ==> 0.0 <= f.moistureContent.value <= 100.0)
    && (f.weightLbs.Some? ==> f.weightLbs.value > 0.0)
    && OptionalAtMost(f.metaTitle, 60)
    && OptionalAtMost(f.metaDescription, 160)
  }

  // ---------- cart ----------

  /** The quantity field of `addToCartSchema` and of `updateCartItemSchema`. */
  predicate ValidCartQuantity(q: real) {
    IsInteger(q) && q > 0.0
  }

  /** A positive whole quantity is at least one. */
  lemma ValidCartQuantityAtLeastOne(q: real)
    requires ValidCartQuantity(q)
    ensures q >= 1.0 && q.Floor >= 1
  {
  }

  /**
   * With a quantity that passes the cart schema, a successful `addToCart`
   * raises what the cart holds of the product by at least one: it never
   * lowers or removes the row.
   */
  lemma ValidQuantityGrowsHolding(items: seq<CartItem>, cart: CartId, product: ProductId, q: real, price: real,
                                  newId: CartItemId)
    requires Store.OneRowPerProduct(items) && Store.Pairwise(items, Store.DifferentIds)
    requires forall x :: x in items ==> x.id < newId
    requires ValidCartQuantity(q)
    ensures var r := CartActions.AddLine(items, cart, product, q.Floor, price, newId, false);
      CartActions.HeldQuantity(r, cart, product) >= CartActions.HeldQuantity(items, cart, product) + 1
  {
    ValidCartQuantityAtLeastOne(q);
    CartActions.AddLineMerges(items, cart, product, q.Floor, price, newId);
    var r := CartActions.AddLine(items, cart, product, q.Floor, price, newId, false);
    var lines := Store.LinesFor(r, cart, product);
    assert lines[0] in lines;
    assert CartActions.ExistingLine(r, cart, product) == Some(lines[0]);
  }

  /**
   * A product whose form passes the schema, put in the cart at its price with
   * a quantity that passes the cart schema, gives an order line with a
   * positive total.
   */
  lemma ValidFormsChargePositive(f: ProductForm, q: real, item: CartItem, product: Product)
    requires ValidProduct(f) && ValidCartQuantity(q)
    requires item.priceAtAdd == f.price && item.quantity == q.Floor
    ensures OrderActions.Snapshot(item, product).totalPrice > 0.0
  {
    ValidCartQuantityAtLeastOne(q);
    var n := item.quantity as real;
    assert n >= 1.0;
    assert n * f.price >= 1.0 * f.price;
  }

  /** `addToCartSchema`. */
  predicate ValidAddToCart(productId: string, quantity: real, isUuid: string -> bool) {
    isUuid(productId) && ValidCartQuantity(quantity)
  }

  // ---------- checkout ----------

  datatype CheckoutForm = CheckoutForm(
    email: string,
    fullName: string,
    phone: string,
    addressLine1: string,
    addressLine2: Option<string>,
    city: string,
    state: string,
    zipCode: string,
    deliveryType: string,
    paymentMethodId: string,
    customerNotes: Option<string>)

  /** `checkoutSchema`. */
  predicate ValidCheckout(f: CheckoutForm, isEmail: string -> bool, isUuid: string -> bool) {
    && isEmail(f.email)
    && |f.fullName| >= 1
    && |f.phone| >= 10
    && |f.addressLine1| >= 1
    && |f.city| >= 1
    && LengthWithin(f.state, 2, 2)
    && Delivery.IsValidZipCode(f.zipCode)
    && ParseDeliveryType(f.deliveryType).Some?
    && isUuid(f.paymentMethodId)
    && OptionalAtMost(f.customerNotes, 500)
  }

  /**
   * The delivery type a checkout passes the schema with decides the fee
   * `createOrder` charges: the flat fee for "delivery", nothing for "pickup".
   */
  lemma ValidCheckoutFee(f: CheckoutForm, isEmail: string -> bool, isUuid: string -> bool, flatFee: real)
    requires ValidCheckout(f, isEmail, isUuid)
    ensures OrderActions.DeliveryFeeFor(ParseDeliveryType(f.deliveryType).value, flatFee)
         == if f.deliveryType == "delivery" then flatFee else 0.0
  {
  }

  /** What a checkout that passes the schema guarantees about its address fields. */
  lemma ValidCheckoutAddress(f: CheckoutForm, isEmail: string -> bool, isUuid: string -> bool)
    requires ValidCheckout(f, isEmail, isUuid)
    ensures |f.state| == 2
    ensures |f.zipCode| == 5 || (|f.zipCode| == 10 && f.zipCode[5] == '-')
    ensures f.deliveryType == "delivery" || f.deliveryType == "pickup"
  {
  }

  // ---------- payment methods, categories, orders, profiles ----------

  datatype PaymentMethodForm = PaymentMethodForm(
    name: string,
    qrCodeUrl: Option<string>,
    displayOrder: real)

  /** `paymentMethodSchema`. */
  predicate ValidPaymentMethod(f: PaymentMethodForm, isUrl: string -> bool) {
    && LengthWithin(f.name, 1, 100)
    && (f.qrCodeUrl.Some? ==> isUrl(f.qrCodeUrl.value))
    && IsInteger(f.displayOrder) && f.displayOrder >= 0.0
  }

  datatype CategoryForm = CategoryForm(
    name: string,
    slug: string,
    imageUrl: Option<string>,
    displayOrder: real)

  /** `categorySchema`. */
  predicate ValidCategory(f: CategoryForm, isUrl: string -> bool) {
    && LengthWithin(f.name, 1, 100)
    && LengthWithin(f.slug, 1, 100)
    && (f.imageUrl.Some? ==> isUrl(f.imageUrl.value))
    && IsInteger(f.displayOrder) && f.displayOrder >= 0.0
  }

  /** `updateOrderStatusSchema`. */
  predicate ValidOrderStatusUpdate(status: string, adminNotes: Option<string>) {
    ParseOrderStatus(status).Some? && OptionalAtMost(adminNotes, 1000)
  }

  /** `updatePaymentStatusSchema`. */
  predicate ValidPaymentStatusUpdate(paymentStatus: string) {
    ParsePaymentStatus(paymentStatus).Some?
  }

  /** The status schemas accept exactly the spellings of the statuses, with admin notes of at most 1000 characters. */
  lemma StatusUpdatesAcceptNames(s: string, adminNotes: Option<string>)
    ensures ValidOrderStatusUpdate(s, adminNotes)
        <==> (exists o :: OrderStatusName(o) == s) && (adminNotes.Some? ==> |adminNotes.value| <= 1000)
    ensures ValidPaymentStatusUpdate(s) <==> exists p :: PaymentStatusName(p) == s
  {
    ParsersAcceptExactlyNames(s);
  }

  /**
   * A status that passes its schema, handed to the admin update, is stored as
   * the status it spells; likewise for the payment status.
   */
  lemma ValidStatusUpdateStored(status: string, adminNotes: Option<string>, payment: string, o: Order, now: Timestamp)
    requires ValidOrderStatusUpdate(status, adminNotes) && ValidPaymentStatusUpdate(payment)
    ensures OrderStatusName(AdminActions.WithStatus(o, ParseOrderStatus(status).value, now).status) == status
    ensures PaymentStatusName(AdminActions.WithPayment(o, ParsePaymentStatus(payment).value, now).paymentStatus)
         == payment
  {
  }

  datatype ProfileForm = ProfileForm(
    fullName: string,
    state: Option<string>,
    zipCode: Option<string>)

  /** `profileUpdateSchema`. */
  predicate ValidProfile(f: ProfileForm) {
    && |f.fullName| >= 1
    && OptionalAtMost(f.state, 2)
    && (f.zipCode.Some? ==> Delivery.IsValidZipCode(f.zipCode.value))
  }

  /** Every ZIP code a checkout accepts is accepted by the profile form too: both use the delivery utility's rule. */
  lemma ZipRuleShared(f: CheckoutForm, p: ProfileForm, isEmail: string -> bool, isUuid: string -> bool)
    requires ValidCheckout(f, isEmail, isUuid)
    requires p.zipCode == Some(f.zipCode) && |p.fullName| >= 1 && p.state == Some(f.state)
    ensures ValidProfile(p)
  {
  }
}
