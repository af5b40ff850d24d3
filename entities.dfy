/**
 * The rows of the storefront's database tables, as values
 * (src/types/database.ts and the columns the server actions read and write).
 */
module Entities {
  import opened Wrappers

  type UserId = nat
  type ProductId = nat
  type CartId = nat
  type CartItemId = nat
  type OrderId = nat
  type PaymentMethodId = nat
  type ImageId = nat

  /** An instant as produced by `new Date()`; only its identity matters here. */
  type Timestamp = nat

  datatype UnitType = Cord | FaceCord | Bundle | Rack
  datatype DeliveryType = Delivery | Pickup
  datatype OrderStatus = Pending | Processing | Shipped | Delivered | Cancelled
  datatype PaymentStatus = PaymentPending | Paid | Failed | Refunded
  datatype Role = Customer | Admin

  /** The stored spelling of each enumerated column value. */
  function UnitTypeName(u: UnitType): string {
    match u
    case Cord => "cord"
    case FaceCord => "face_cord"
    case Bundle => "bundle"
    case Rack => "rack"
  }

  function DeliveryTypeName(d: DeliveryType): string {
    match d
    case Delivery => "delivery"
    case Pickup => "pickup"
  }

  function OrderStatusName(s: OrderStatus): string {
    match s
    case Pending => "pending"
    case Processing => "processing"
    case Shipped => "shipped"
    case Delivered => "delivered"
    case Cancelled => "cancelled"
  }

  function PaymentStatusName(s: PaymentStatus): string {
    match s
    case PaymentPending => "pending"
    case Paid => "paid"
    case Failed => "failed"
    case Refunded => "refunded"
  }

  /** A catalog row, reduced to the columns the cart and order code reads (keyed by id in the table). */
  datatype Product = Product(
    name: string,
    sku: Option<string>,
    price: real,
    woodType: string,
    unitType: UnitType,
    isHeatTreated: bool)

  /** A `carts` row: the cart owned by one user. */
  datatype Cart = Cart(id: CartId, userId: UserId)

  /** A `cart_items` row; `priceAtAdd` is the product price copied when the row was inserted. */
  datatype CartItem = CartItem(
    id: CartItemId,
    cartId: CartId,
    productId: ProductId,
    quantity: int,
    priceAtAdd: real)

  /** The product and price snapshot an order line carries, before the order id is attached. */
  datatype LineSnapshot = LineSnapshot(
    productId: ProductId,
    productName: string,
    productSku: Option<string>,
    woodType: string,
    unitType: UnitType,
    isHeatTreated: bool,
    quantity: int,
    unitPrice: real,
    totalPrice: real)

  /** An `order_items` row. */
  datatype OrderItem = OrderItem(orderId: OrderId, line: LineSnapshot)

  /** The customer-supplied contact and address fields copied onto an order. */
  datatype ShippingDetails = ShippingDetails(
    customerEmail: string,
    customerName: string,
    customerPhone: string,
    addressLine1: string,
    addressLine2: Option<string>,
    city: string,
    state: string,
    zip: string)

  /** An `orders` row. */
  datatype Order = Order(
    id: OrderId,
    orderNumber: string,
    userId: UserId,
    shipping: ShippingDetails,
    deliveryType: DeliveryType,
    latitude: Option<real>,
    longitude: Option<real>,
    subtotal: real,
    deliveryFee: real,
    tax: real,
    total: real,
    paymentMethodId: PaymentMethodId,
    paymentProofUrl: Option<string>,
    customerNotes: Option<string>,
    status: OrderStatus,
    paymentStatus: PaymentStatus,
    paidAt: Option<Timestamp>,
    shippedAt: Option<Timestamp>,
    deliveredAt: Option<Timestamp>,
    cancelledAt: Option<Timestamp>)

  /** A `payment_methods` row, reduced to the columns the actions read or write. */
  datatype PaymentMethod = PaymentMethod(
    id: PaymentMethodId,
    name: string,
    isActive: bool,
    displayOrder: int)

  /** A `product_images` row. */
  datatype ProductImage = ProductImage(
    id: ImageId,
    productId: ProductId,
    imageUrl: string,
    altText: string,
    isPrimary: bool)
}
