/**
 * The admin server actions of src/app/actions/admin.ts that change records:
 * the admin gate, the two order status axes, the payment-method toggle and
 * the product-image maintenance. The clock is the parameter `now`; each
 * storage call that can fail takes a fault flag, the gate's profile read
 * included (`profileFails`).
 */
module AdminActions {
  import opened Wrappers
  import opened Entities
  import opened Store
  import opened Text

  const LoginPath := "/auth/login"
  const DashboardPath := "/dashboard"
  const OrderStatusFailed := "Failed to update order status"
  const PaymentStatusFailed := "Failed to update payment status"
  const ToggleFailed := "Failed to update payment method status"
  const AddImagesFailed := "Failed to add product images"
  const DeleteImageFailed := "Failed to delete product image"
  const SetPrimaryFailed := "Failed to set primary image"

  /** The separator between the bucket URL and the object path in a public image URL. */
  const BucketMarker := "/product-images/"

  /** The outcome of `checkAdmin`: go on as this admin, or redirect. */
  datatype Gate = Admitted(admin: UserId) | Redirect(path: string)

  /** What an admin action gives back: success, an error message, or the gate's redirect. */
  datatype AdminResult = Ok | Refused(message: string) | Redirected(path: string)

  /**
   * `checkAdmin`: no user goes to the login page; a user whose profile is
   * missing or not admin goes to the dashboard, and so does an admin whose
   * profile read fails (`readFails`), since the source then sees no profile.
   */
  function CheckAdmin(user: Option<UserId>, profiles: map<UserId, Role>, readFails: bool): (g: Gate)
    ensures g.Admitted? <==> user.Some? && !readFails && user.value in profiles && profiles[user.value] == Admin
    ensures g.Admitted? ==> g.admin == user.value
    ensures user.None? ==> g == Redirect(LoginPath)
    ensures user.Some? && !g.Admitted? ==> g == Redirect(DashboardPath)
  {
    if user.None? then Redirect(LoginPath)
    else if !readFails && user.value in profiles && profiles[user.value] == Admin then Admitted(user.value)
    else Redirect(DashboardPath)
  }

  // ---------- order status and payment status ----------

  /** The order after `updateOrderStatus`: the new status and, for the three end states, that state's timestamp. */
  function WithStatus(o: Order, status: OrderStatus, now: Timestamp): (r: Order)
    ensures r.status == status
    ensures r.shippedAt == if status == Shipped then Some(now) else o.shippedAt
    ensures r.deliveredAt == if status == Delivered then Some(now) else o.deliveredAt
    ensures r.cancelledAt == if status == Cancelled then Some(now) else o.cancelledAt
    ensures r.paymentStatus == o.paymentStatus && r.paidAt == o.paidAt
    ensures r.(status := o.status, shippedAt := o.shippedAt, deliveredAt := o.deliveredAt,
               cancelledAt := o.cancelledAt) == o
  {
    match status
    case Shipped => o.(status := status, shippedAt := Some(now))
    case Delivered => o.(status := status, deliveredAt := Some(now))
    case Cancelled => o.(status := status, cancelledAt := Some(now))
    case _ => o.(status := status)
  }

  /** The order after `updatePaymentStatus`: the new payment status, and `paid_at` only when it is paid. */
  function WithPayment(o: Order, status: PaymentStatus, now: Timestamp): (r: Order)
    ensures r.paymentStatus == status
    ensures r.paidAt == if status == Paid then Some(now) else o.paidAt
    ensures r.status == o.status && r.shippedAt == o.shippedAt && r.deliveredAt == o.deliveredAt
    ensures r.cancelledAt == o.cancelledAt
    ensures r.(paymentStatus := o.paymentStatus, paidAt := o.paidAt) == o
  {
    if status == Paid then o.(paymentStatus := status, paidAt := Some(now))
    else o.(paymentStatus := status)
  }

  /** The two axes are independent: applying them in either order gives the same order. */
  lemma StatusAndPaymentCommute(o: Order, s: OrderStatus, p: PaymentStatus, t1: Timestamp, t2: Timestamp)
    ensures WithPayment(WithStatus(o, s, t1), p, t2) == WithStatus(WithPayment(o, p, t2), s, t1)
  {
  }

  /**
   * No transition is refused: from any order, any status can be set, even out
   * of a final state; a later update overwrites the earlier one's status and
   * stamps its own end state, while the earlier end state keeps its timestamp.
   */
  lemma AnyTransitionAccepted(o: Order, first: OrderStatus, second: OrderStatus, t1: Timestamp, t2: Timestamp)
    requires first != second
    ensures var r := WithStatus(WithStatus(o, first, t1), second, t2);
      && r.status == second
      && (first == Shipped ==> r.shippedAt == Some(t1))
      && (first == Delivered ==> r.deliveredAt == Some(t1))
      && (first == Cancelled ==> r.cancelledAt == Some(t1))
      && (second == Shipped ==> r.shippedAt == Some(t2))
      && (second == Delivered ==> r.deliveredAt == Some(t2))
      && (second == Cancelled ==> r.cancelledAt == Some(t2))
  {
  }

  /** `.update(...).eq('id', id)` on the orders table: every row with that id gets `f`, the rest are kept. */
  function UpdateOrders(orders: seq<Order>, id: OrderId, f: Order -> Order): (r: seq<Order>)
    ensures |r| == |orders|
    ensures forall k :: 0 <= k < |orders| ==> r[k] == if orders[k].id == id then f(orders[k]) else orders[k]
  {
    seq(|orders|, k requires 0 <= k < |orders| => if orders[k].id == id then f(orders[k]) else orders[k])
  }

  /** `updateOrderStatus`: an id that matches no order is not an error. */
  method UpdateOrderStatus(db: Db, user: Option<UserId>, profileFails: bool, id: OrderId, status: OrderStatus, now: Timestamp,
                           fails: bool) returns (r: AdminResult)
    requires db.Valid()
    modifies db`orders
    ensures db.Valid()
    ensures CheckAdmin(user, db.profiles, profileFails).Redirect? ==>
      r == Redirected(CheckAdmin(user, db.profiles, profileFails).path) && db.orders == old(db.orders)
    ensures CheckAdmin(user, db.profiles, profileFails).Admitted? && fails ==>
      r == Refused(OrderStatusFailed) && db.orders == old(db.orders)
    ensures CheckAdmin(user, db.profiles, profileFails).Admitted? && !fails ==>
      r == Ok && db.orders == UpdateOrders(old(db.orders), id, o => WithStatus(o, status, now))
  {
    var gate := CheckAdmin(user, db.profiles, profileFails);
    if gate.Redirect? {
      return Redirected(gate.path);
    }
    if fails {
      return Refused(OrderStatusFailed);
    }
    db.orders := UpdateOrders(db.orders, id, o => WithStatus(o, status, now));
    r := Ok;
  }

  /** `updatePaymentStatus`: as `updateOrderStatus`, on the payment axis. */
  method UpdatePaymentStatus(db: Db, user: Option<UserId>, profileFails: bool, id: OrderId, status: PaymentStatus, now: Timestamp,
                             fails: bool) returns (r: AdminResult)
    requires db.Valid()
    modifies db`orders
    ensures db.Valid()
    ensures CheckAdmin(user, db.profiles, profileFails).Redirect? ==>
      r == Redirected(CheckAdmin(user, db.profiles, profileFails).path) && db.orders == old(db.orders)
    ensures CheckAdmin(user, db.profiles, profileFails).Admitted? && fails ==>
      r == Refused(PaymentStatusFailed) && db.orders == old(db.orders)
    ensures CheckAdmin(user, db.profiles, profileFails).Admitted? && !fails ==>
      r == Ok && db.orders == UpdateOrders(old(db.orders), id, o => WithPayment(o, status, now))
  {
    var gate := CheckAdmin(user, db.profiles, profileFails);
    if gate.Redirect? {
      return Redirected(gate.path);
    }
    if fails {
      return Refused(PaymentStatusFailed);
    }
    db.orders := UpdateOrders(db.orders, id, o => WithPayment(o, status, now));
    r := Ok;
  }

  /** Updating an order's status leaves every other order, and every order's payment fields, as they were. */
  lemma StatusUpdateIsolated(orders: seq<Order>, id: OrderId, status: OrderStatus, now: Timestamp, k: nat)
    requires k < |orders|
    ensures var r := UpdateOrders(orders, id, o => WithStatus(o, status, now));
      && (orders[k].id != id ==> r[k] == orders[k])
      && r[k].paymentStatus == orders[k].paymentStatus && r[k].paidAt == orders[k].paidAt
      && r[k].id == orders[k].id && r[k].total == orders[k].total
  {
  }

  // ---------- payment methods ----------

  /** The `payment_methods` table with `is_active` set to `active` on the rows with that id. */
  function SetActive(rows: seq<PaymentMethod>, id: PaymentMethodId, active: bool): (r: seq<PaymentMethod>)
    ensures |r| == |rows|
    ensures forall k :: 0 <= k < |rows| ==>
      r[k] == if rows[k].id == id then rows[k].(isActive := active) else rows[k]
  {
    seq(|rows|, k requires 0 <= k < |rows| => if rows[k].id == id then rows[k].(isActive := active) else rows[k])
  }

  /**
   * `togglePaymentMethodStatus(id, current)`: the method becomes active iff
   * the caller said it was inactive; the stored value is not consulted. The
   * update asks for the changed row back (`.single()`), so an id with no row
   * is an error.
   */
  method TogglePaymentMethodStatus(db: Db, user: Option<UserId>, profileFails: bool, id: PaymentMethodId, current: bool, fails: bool)
    returns (r: AdminResult)
    requires db.Valid()
    modifies db`paymentMethods
    ensures db.Valid()
    ensures CheckAdmin(user, db.profiles, profileFails).Redirect? ==>
      r == Redirected(CheckAdmin(user, db.profiles, profileFails).path) && db.paymentMethods == old(db.paymentMethods)
    ensures CheckAdmin(user, db.profiles, profileFails).Admitted? && (fails || forall m :: m in old(db.paymentMethods) ==> m.id != id) ==>
      r == Refused(ToggleFailed) && db.paymentMethods == old(db.paymentMethods)
    ensures CheckAdmin(user, db.profiles, profileFails).Admitted? && !fails && (exists m :: m in old(db.paymentMethods) && m.id == id) ==>
      r == Ok && db.paymentMethods == SetActive(old(db.paymentMethods), id, !current)
  {
    var gate := CheckAdmin(user, db.profiles, profileFails);
    if gate.Redirect? {
      return Redirected(gate.path);
    }
    if fails || forall m :: m in db.paymentMethods ==> m.id != id {
      return Refused(ToggleFailed);
    }
    db.paymentMethods := SetActive(db.paymentMethods, id, !current);
    r := Ok;
  }

  /**
   * Because the new value comes from the caller, a toggle issued with a stale
   * `current` does not flip the stored flag: it sets it to what it already is.
   */
  lemma StaleToggleIsNoOp(rows: seq<PaymentMethod>, id: PaymentMethodId, stored: bool)
    requires forall m :: m in rows && m.id == id ==> m.isActive == !stored
    ensures SetActive(rows, id, !stored) == rows
  {
    var r := SetActive(rows, id, !stored);
    forall k | 0 <= k < |rows| ensures r[k] == rows[k] {
      assert rows[k] in rows;
    }
  }

  /** Given the stored value, the toggle flips that method and leaves every other method as it was. */
  lemma ToggleFlipsOnlyThatMethod(rows: seq<PaymentMethod>, id: PaymentMethodId, k: nat)
    requires k < |rows|
    ensures var r := SetActive(rows, id, !rows[k].isActive);
      && |r| == |rows|
      && (rows[k].id == id ==> r[k].isActive != rows[k].isActive && r[k].(isActive := rows[k].isActive) == rows[k])
      && (forall j :: 0 <= j < |rows| && rows[j].id != id ==> r[j] == rows[j])
  {
  }

  // ---------- product images ----------

  /** One image as the admin form submits it. */
  datatype ImageInput = ImageInput(url: string, altText: string, isPrimary: bool)

  /** The rows `addProductImages` inserts: one per input, in order, all for `product`, ids from `firstId` up. */
  function ImageRows(product: ProductId, images: seq<ImageInput>, firstId: nat): (rows: seq<ProductImage>)
    ensures |rows| == |images|
    ensures forall k :: 0 <= k < |images| ==>
      rows[k] == ProductImage(firstId + k, product, images[k].url, images[k].altText, images[k].isPrimary)
  {
    seq(|images|, k requires 0 <= k < |images| =>
      ProductImage(firstId + k, product, images[k].url, images[k].altText, images[k].isPrimary))
  }

  /** The inserted rows all belong to the product and carry distinct ids from `firstId` up. */
  lemma ImageRowsFresh(product: ProductId, images: seq<ImageInput>, firstId: nat)
    ensures var rows := ImageRows(product, images, firstId);
      && (forall m :: m in rows ==> m.productId == product && firstId <= m.id < firstId + |images|)
      && (forall i, j :: 0 <= i < j < |rows| ==> rows[i].id != rows[j].id)
      && (forall k :: 0 <= k < |images| ==> rows[k].imageUrl == images[k].url && rows[k].isPrimary == images[k].isPrimary)
  {
    var rows := ImageRows(product, images, firstId);
    forall m | m in rows ensures m.productId == product && firstId <= m.id < firstId + |images| {
      var k :| 0 <= k < |rows| && rows[k] == m;
    }
  }

  /** `addProductImages`: a single batch insert, all rows or none. */
  method AddProductImages(db: Db, user: Option<UserId>, profileFails: bool, product: ProductId, images: seq<ImageInput>, fails: bool)
    returns (r: AdminResult)
    requires db.Valid()
    modifies db`productImages, db`nextId
    ensures db.Valid()
    ensures CheckAdmin(user, db.profiles, profileFails).Redirect? ==>
      r == Redirected(CheckAdmin(user, db.profiles, profileFails).path) && db.productImages == old(db.productImages)
    ensures CheckAdmin(user, db.profiles, profileFails).Admitted? && fails ==>
      r == Refused(AddImagesFailed) && db.productImages == old(db.productImages)
    ensures CheckAdmin(user, db.profiles, profileFails).Admitted? && !fails ==>
      r == Ok && db.productImages == old(db.productImages) + ImageRows(product, images, old(db.nextId))
  {
    var gate := CheckAdmin(user, db.profiles, profileFails);
    if gate.Redirect? {
      return Redirected(gate.path);
    }
    if fails {
      return Refused(AddImagesFailed);
    }
    var rows := ImageRows(product, images, db.nextId);
    db.productImages := db.productImages + rows;
    db.nextId := db.nextId + |images|;
    r := Ok;
  }

  /**
   * The storage object path of an image URL, as `deleteProductImage` extracts
   * it: only for URLs containing "supabase" that split on the bucket marker
   * into exactly two parts, and then it is the part after the marker.
   */
  function StoragePath(url: string): (r: Option<string>)
    ensures !Contains(url, "supabase") ==> r.None?
    ensures r.Some? ==> IndexOf(url, BucketMarker).Some?
                        && r.value == url[IndexOf(url, BucketMarker).value + |BucketMarker|..]
    ensures r.Some? ==> exists head :: url == head + BucketMarker + r.value && !Contains(head, BucketMarker)
    ensures r.Some? ==> !Contains(r.value, BucketMarker)
    ensures Contains(url, "supabase") && IndexOf(url, BucketMarker).Some?
            && !Contains(url[IndexOf(url, BucketMarker).value + |BucketMarker|..], BucketMarker) ==>
      r == Some(url[IndexOf(url, BucketMarker).value + |BucketMarker|..])
  {
    if !Contains(url, "supabase") then None
    else
      var parts := Split(url, BucketMarker);
      if |parts| == 2 then
        JoinSplit(url, BucketMarker);
        assert parts[1..] == [parts[1]];
        assert url == parts[0] + BucketMarker + parts[1];
        var i := IndexOf(url, BucketMarker).value;
        var rest := url[i + |BucketMarker|..];
        assert parts == [url[..i]] + Split(rest, BucketMarker);
        assert parts[1] == rest;
        Some(parts[1])
      else None
  }

  /** A path is found exactly for URLs containing "supabase" that split on the bucket marker into two parts. */
  lemma StoragePathTwoParts(url: string)
    ensures StoragePath(url).Some? <==> Contains(url, "supabase") && |Split(url, BucketMarker)| == 2
  {
    if Contains(url, "supabase") && |Split(url, BucketMarker)| != 2 && Contains(url, BucketMarker) {
      var i := IndexOf(url, BucketMarker).value;
      var rest := url[i + |BucketMarker|..];
      assert Split(url, BucketMarker) == [url[..i]] + Split(rest, BucketMarker);
      assert Contains(rest, BucketMarker);
    }
  }

  /** A URL with no bucket marker names no object to remove. */
  lemma StoragePathNeedsOneMarker(url: string)
    ensures !Contains(url, BucketMarker) ==> StoragePath(url).None?
  {
  }

  /** `deleteProductImage`: the storage object goes first (its failure ignored), then the row. */
  method DeleteProductImage(db: Db, user: Option<UserId>, profileFails: bool, id: ImageId, url: string, removeFails: bool,
                            deleteFails: bool) returns (r: AdminResult)
    requires db.Valid()
    modifies db`imageBucket, db`productImages
    ensures db.Valid()
    ensures CheckAdmin(user, db.profiles, profileFails).Redirect? ==>
      && r == Redirected(CheckAdmin(user, db.profiles, profileFails).path)
      && db.imageBucket == old(db.imageBucket) && db.productImages == old(db.productImages)
    ensures CheckAdmin(user, db.profiles, profileFails).Admitted? ==>
      && db.imageBucket == (if StoragePath(url).Some? && !removeFails
                            then old(db.imageBucket) - {StoragePath(url).value} else old(db.imageBucket))
      && (deleteFails ==> r == Refused(DeleteImageFailed) && db.productImages == old(db.productImages))
      && (!deleteFails ==> r == Ok && db.productImages == WithoutImage(old(db.productImages), id))
  {
    var gate := CheckAdmin(user, db.profiles, profileFails);
    if gate.Redirect? {
      return Redirected(gate.path);
    }
    var path := StoragePath(url);
    if path.Some? && !removeFails {
      db.imageBucket := db.imageBucket - {path.value};
    }
    if deleteFails {
      return Refused(DeleteImageFailed);
    }
    FilterPairwise(db.productImages, (m: ProductImage) => m.id != id, DifferentImageIds);
    db.productImages := WithoutImage(db.productImages, id);
    r := Ok;
  }

  /** `.delete().eq('id', id)` on `product_images`. */
  function WithoutImage(rows: seq<ProductImage>, id: ImageId): (r: seq<ProductImage>)
    ensures forall m :: m in r <==> m in rows && m.id != id
  {
    Filter(rows, (m: ProductImage) => m.id != id)
  }

  /** `.update({ is_primary: false }).eq('product_id', product)`. */
  function ClearPrimary(rows: seq<ProductImage>, product: ProductId): (r: seq<ProductImage>)
    ensures |r| == |rows|
    ensures forall k :: 0 <= k < |rows| ==>
      r[k] == if rows[k].productId == product then rows[k].(isPrimary := false) else rows[k]
  {
    seq(|rows|, k requires 0 <= k < |rows| =>
      if rows[k].productId == product then rows[k].(isPrimary := false) else rows[k])
  }

  /** `.update({ is_primary: true }).eq('id', id)`. */
  function MarkPrimary(rows: seq<ProductImage>, id: ImageId): (r: seq<ProductImage>)
    ensures |r| == |rows|
    ensures forall k :: 0 <= k < |rows| ==>
      r[k] == if rows[k].id == id then rows[k].(isPrimary := true) else rows[k]
  {
    seq(|rows|, k requires 0 <= k < |rows| => if rows[k].id == id then rows[k].(isPrimary := true) else rows[k])
  }

  /**
   * `setProductImagePrimary`: clear the product's primary flags, then set the
   * chosen image's. The first update's failure is not checked.
   */
  method SetProductImagePrimary(db: Db, user: Option<UserId>, profileFails: bool, image: ImageId, product: ProductId,
                                clearFails: bool, markFails: bool) returns (r: AdminResult)
    requires db.Valid()
    modifies db`productImages
    ensures db.Valid()
    ensures CheckAdmin(user, db.profiles, profileFails).Redirect? ==>
      r == Redirected(CheckAdmin(user, db.profiles, profileFails).path) && db.productImages == old(db.productImages)
    ensures CheckAdmin(user, db.profiles, profileFails).Admitted? ==>
      var cleared := if clearFails then old(db.productImages) else ClearPrimary(old(db.productImages), product);
      && (markFails ==> r == Refused(SetPrimaryFailed) && db.productImages == cleared)
      && (!markFails ==> r == Ok && db.productImages == MarkPrimary(cleared, image))
  {
    var gate := CheckAdmin(user, db.profiles, profileFails);
    if gate.Redirect? {
      return Redirected(gate.path);
    }
    if !clearFails {
      db.productImages := ClearPrimary(db.productImages, product);
    }
    if markFails {
      return Refused(SetPrimaryFailed);
    }
    db.productImages := MarkPrimary(db.productImages, image);
    r := Ok;
  }

  /**
   * When both updates succeed, among the product's images exactly the chosen
   * one is primary; images of other products change only if they carry the
   * chosen id.
   */
  lemma SetPrimaryLeavesOnlyChosen(rows: seq<ProductImage>, image: ImageId, product: ProductId)
    ensures var r := MarkPrimary(ClearPrimary(rows, product), image);
      && |r| == |rows|
      && (forall k :: 0 <= k < |r| && r[k].productId == product ==> (r[k].isPrimary <==> r[k].id == image))
      && (forall k :: 0 <= k < |r| && rows[k].productId != product && rows[k].id != image ==> r[k] == rows[k])
      && (forall k :: 0 <= k < |r| ==> r[k].id == rows[k].id && r[k].imageUrl == rows[k].imageUrl)
  {
  }

  /**
   * If the chosen image is one of the product's and ids are unique (as `Db.Valid`
   * keeps them), the product ends with exactly one primary image.
   */
  lemma SetPrimaryExactlyOne(rows: seq<ProductImage>, image: ImageId, product: ProductId, i: nat)
    requires i < |rows| && rows[i].id == image && rows[i].productId == product
    requires forall a, b :: 0 <= a < b < |rows| ==> rows[a].id != rows[b].id
    ensures var r := MarkPrimary(ClearPrimary(rows, product), image);
      && r[i].isPrimary
      && forall k :: 0 <= k < |r| && k != i && r[k].productId == product ==> !r[k].isPrimary
  {
    var r := MarkPrimary(ClearPrimary(rows, product), image);
    forall k | 0 <= k < |r| && k != i && r[k].productId == product ensures !r[k].isPrimary {
      if k < i { assert rows[k].id != rows[i].id; } else { assert rows[i].id != rows[k].id; }
    }
  }

  /** A failed clear that goes unnoticed can leave the product with two primary images. */
  lemma IgnoredClearFailureKeepsOldPrimary(rows: seq<ProductImage>, image: ImageId, product: ProductId, j: nat)
    requires j < |rows| && rows[j].productId == product && rows[j].isPrimary && rows[j].id != image
    ensures MarkPrimary(rows, image)[j].isPrimary
  {
  }
}
