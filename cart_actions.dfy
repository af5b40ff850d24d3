/**
 * The server cart store (src/app/actions/cart.ts): a lazily created cart per
 * user and its `cart_items` rows, each holding a quantity and the product
 * price copied when the row was first inserted. The signed-in user is a
 * parameter; each storage call that can fail takes a fault parameter,
 * `Some(message)` when the call fails with that message.
 */
module CartActions {
  import opened Wrappers
  import opened Entities
  import opened Store

  const LoginRequired := "You must be logged in to add items to cart"
  const FetchCartFailed := "Failed to fetch cart: "
  const CreateCartFailed := "Failed to create cart: "
  const ProductNotFound := "Product not found"
  const UpdateItemFailed := "Failed to update cart item: "
  const AddItemFailed := "Failed to add item to cart: "
  const UpdateQuantityFailed := "Failed to update cart item"
  const RemoveFailed := "Failed to remove item from cart"
  const NotAuthenticated := "Not authenticated"
  const ClearFailed := "Failed to clear cart"

  /** A cart with its rows, each joined to its product. */
  datatype CartContents = CartContents(cart: Cart, items: seq<(CartItem, Product)>)

  /** The join `cart_items(*, products(*))` with the rows whose product is gone dropped. */
  function LiveItems(items: seq<CartItem>, products: map<ProductId, Product>): (r: seq<(CartItem, Product)>)
    ensures |r| <= |items|
    ensures forall x, p :: (x, p) in r <==> x in items && x.productId in products && p == products[x.productId]
  {
    if items == [] then []
    else
      var head := if items[0].productId in products then [(items[0], products[items[0].productId])] else [];
      head + LiveItems(items[1..], products)
  }

  /**
   * The "get or create cart" step of `getCart` and `addToCart`: the user's
   * cart if there is one, else a new cart row (unless that insert fails).
   */
  method FindOrCreateCart(db: Db, user: UserId, createError: Option<string>) returns (cart: Option<Cart>)
    requires db.Valid()
    modifies db`carts, db`nextId
    ensures db.Valid()
    ensures CartOf(old(db.carts), user).Some? ==>
      cart == CartOf(old(db.carts), user) && db.carts == old(db.carts) && db.nextId == old(db.nextId)
    ensures CartOf(old(db.carts), user).None? && createError.Some? ==>
      cart.None? && db.carts == old(db.carts) && db.nextId == old(db.nextId)
    ensures CartOf(old(db.carts), user).None? && createError.None? ==>
      && cart == Some(Cart(old(db.nextId), user))
      && db.carts == old(db.carts) + [cart.value]
      && db.nextId == old(db.nextId) + 1
    ensures cart.Some? ==> cart == CartOf(db.carts, user)
  {
    cart := CartOf(db.carts, user);
    if cart.None? && createError.None? {
      var created := Cart(db.nextId, user);
      PairwiseAppend(db.carts, created, DifferentOwners);
      CartOfAppend(db.carts, created);
      db.carts := db.carts + [created];
      db.nextId := db.nextId + 1;
      cart := Some(created);
    }
  }

  /** Adding the first cart of a user makes it the cart the lookup finds. */
  lemma {:induction false} CartOfAppend(carts: seq<Cart>, c: Cart)
    requires CartOf(carts, c.userId).None?
    ensures CartOf(carts + [c], c.userId) == Some(c)
  {
    if carts != [] {
      assert (carts + [c])[1..] == carts[1..] + [c];
      CartOfAppend(carts[1..], c);
    }
  }

  /**
   * `getCart`: null without a user or when creating the missing cart fails;
   * otherwise the cart with its live items (none when reading them fails).
   */
  method GetCart(db: Db, user: Option<UserId>, createError: Option<string>, itemsFail: bool)
    returns (r: Option<CartContents>)
    requires db.Valid()
    modifies db`carts, db`nextId
    ensures db.Valid()
    ensures user.None? ==> r.None? && db.carts == old(db.carts) && db.nextId == old(db.nextId)
    ensures user.Some? && CartOf(old(db.carts), user.value).Some? ==>
      r.Some? && Some(r.value.cart) == CartOf(old(db.carts), user.value) && db.carts == old(db.carts)
      && db.nextId == old(db.nextId)
    ensures user.Some? && CartOf(old(db.carts), user.value).None? ==>
      if createError.Some? then r.None? && db.carts == old(db.carts) && db.nextId == old(db.nextId)
      else (r.Some? && r.value.cart == Cart(old(db.nextId), user.value) && db.carts == old(db.carts) + [r.value.cart]
        && db.nextId == old(db.nextId) + 1)
    ensures r.Some? ==> r.value.cart.userId == user.value && Some(r.value.cart) == CartOf(db.carts, user.value)
    ensures r.Some? ==>
      r.value.items == if itemsFail then [] else LiveItems(ItemsOf(db.cartItems, r.value.cart.id), db.products)
  {
    if user.None? {
      return None;
    }
    var cart := FindOrCreateCart(db, user.value, createError);
    if cart.None? {
      return None;
    }
    if itemsFail {
      return Some(CartContents(cart.value, []));
    }
    r := Some(CartContents(cart.value, LiveItems(ItemsOf(db.cartItems, cart.value.id), db.products)));
  }

  /** The row the existing-item lookup (`maybeSingle`) returns: present only when exactly one row matches. */
  function ExistingLine(items: seq<CartItem>, cart: CartId, product: ProductId): (r: Option<CartItem>)
    ensures r.Some? ==> r.value in items && r.value.cartId == cart && r.value.productId == product
    ensures r.None? && OneRowPerProduct(items) ==>
      forall x :: x in items ==> x.cartId != cart || x.productId != product
  {
    var lines := LinesFor(items, cart, product);
    assert |lines| > 0 ==> lines[0] in lines;
    if |lines| == 1 then Some(lines[0]) else None
  }

  /**
   * The rows after the merge step of `addToCart`: the existing (cart, product)
   * row gets `quantity` more, otherwise a new row is appended with the price
   * copied from the product. A failed lookup reads as "no existing row".
   */
  function AddLine(items: seq<CartItem>, cart: CartId, product: ProductId, quantity: int, price: real,
                   newId: CartItemId, lookupFails: bool): seq<CartItem>
  {
    var existing := if lookupFails then None else ExistingLine(items, cart, product);
    if existing.Some? then WithQuantity(items, existing.value.id, existing.value.quantity + quantity)
    else items + [CartItem(newId, cart, product, quantity, price)]
  }

  /** The quantity a cart holds of a product: that of its single row, or zero. */
  function HeldQuantity(items: seq<CartItem>, cart: CartId, product: ProductId): int {
    match ExistingLine(items, cart, product)
    case Some(x) => x.quantity
    case None => 0
  }

  /**
   * With a successful lookup, merging keeps one row per (cart, product): the
   * pair ends with exactly one row holding the old quantity plus the added
   * one, at the price of the first add; every other row is untouched.
   */
  lemma AddLineMerges(items: seq<CartItem>, cart: CartId, product: ProductId, quantity: int, price: real,
                      newId: CartItemId)
    requires OneRowPerProduct(items) && Pairwise(items, DifferentIds)
    requires forall x :: x in items ==> x.id < newId
    ensures var r := AddLine(items, cart, product, quantity, price, newId, false);
      && OneRowPerProduct(r)
      && Pairwise(r, DifferentIds)
      && |LinesFor(r, cart, product)| == 1
      && LinesFor(r, cart, product)[0].quantity == HeldQuantity(items, cart, product) + quantity
      && LinesFor(r, cart, product)[0].priceAtAdd
         == (match ExistingLine(items, cart, product) case Some(x) => x.priceAtAdd case None => price)
      && (forall x :: x in r && (x.cartId != cart || x.productId != product) <==>
                      x in items && (x.cartId != cart || x.productId != product))
  {
    match ExistingLine(items, cart, product)
    case Some(e) =>
      MergedLine(items, cart, product, quantity, e);
    case None =>
      InsertedLine(items, cart, product, quantity, price, newId);
  }

  /** Merging into the existing row: it alone gains the quantity, and it stays the pair's only row. */
  lemma MergedLine(items: seq<CartItem>, cart: CartId, product: ProductId, quantity: int, e: CartItem)
    requires OneRowPerProduct(items) && Pairwise(items, DifferentIds)
    requires e in items && e.cartId == cart && e.productId == product
    ensures var r := WithQuantity(items, e.id, e.quantity + quantity);
      && LinesFor(r, cart, product) == [e.(quantity := e.quantity + quantity)]
      && (forall x :: x in r && (x.cartId != cart || x.productId != product) <==>
                      x in items && (x.cartId != cart || x.productId != product))
  {
    var r := WithQuantity(items, e.id, e.quantity + quantity);
    var k :| 0 <= k < |items| && items[k] == e;
    forall j | 0 <= j < |items| && j != k ensures r[j] == items[j] {
      if j < k { assert DifferentIds(items[j], items[k]); } else { assert DifferentIds(items[k], items[j]); }
    }
    var lines := LinesFor(r, cart, product);
    assert r[k] == e.(quantity := e.quantity + quantity);
    assert r[k] in lines;
    forall x | x in r && (x.cartId != cart || x.productId != product) ensures x in items {
      var j :| 0 <= j < |r| && r[j] == x;
      assert j != k;
    }
    forall x | x in items && (x.cartId != cart || x.productId != product) ensures x in r {
      var j :| 0 <= j < |items| && items[j] == x;
      assert j != k;
      assert r[j] == x;
    }
  }

  /** Inserting the pair's first row: the new row is its only row, and the table keeps its invariants. */
  lemma InsertedLine(items: seq<CartItem>, cart: CartId, product: ProductId, quantity: int, price: real,
                     newId: CartItemId)
    requires OneRowPerProduct(items) && Pairwise(items, DifferentIds)
    requires forall x :: x in items ==> x.id < newId
    requires forall x :: x in items ==> x.cartId != cart || x.productId != product
    ensures var row := CartItem(newId, cart, product, quantity, price);
      var r := items + [row];
      && OneRowPerProduct(r) && Pairwise(r, DifferentIds)
      && LinesFor(r, cart, product) == [row]
  {
    var row := CartItem(newId, cart, product, quantity, price);
    var r := items + [row];
    PairwiseAppend(items, row, DifferentLines);
    PairwiseAppend(items, row, DifferentIds);
    var lines := LinesFor(r, cart, product);
    assert row in lines;
  }

  /** Adding the same product twice leaves one row holding both quantities. */
  lemma AddTwiceSums(items: seq<CartItem>, cart: CartId, product: ProductId, q1: int, q2: int, price: real,
                     newId: CartItemId)
    requires OneRowPerProduct(items) && Pairwise(items, DifferentIds)
    requires forall x :: x in items ==> x.id < newId
    requires LinesFor(items, cart, product) == []
    ensures var once := AddLine(items, cart, product, q1, price, newId, false);
      var twice := AddLine(once, cart, product, q2, price, newId + 1, false);
      |LinesFor(twice, cart, product)| == 1 && LinesFor(twice, cart, product)[0].quantity == q1 + q2
  {
    var once := AddLine(items, cart, product, q1, price, newId, false);
    AddLineMerges(items, cart, product, q1, price, newId);
    assert ExistingLine(items, cart, product).None?;
    forall x | x in once ensures x.id < newId + 1 {
      if x !in items {
        assert x == CartItem(newId, cart, product, q1, price);
      }
    }
    AddLineMerges(once, cart, product, q2, price, newId + 1);
    var lines := LinesFor(once, cart, product);
    assert lines[0] in lines;
    assert ExistingLine(once, cart, product) == Some(lines[0]);
  }

  /** The storage faults `addToCart` can meet, in the order it makes its calls. */
  datatype AddFaults = AddFaults(
    cartFetchError: Option<string>,
    cartCreateError: Option<string>,
    productReadFails: bool,
    lookupFails: bool,
    writeError: Option<string>)

  /** Merging keeps row ids distinct, and a row it inserts takes the id it was given. */
  lemma AddLineIds(items: seq<CartItem>, cart: CartId, product: ProductId, quantity: int, price: real,
                   newId: CartItemId, lookupFails: bool)
    requires Pairwise(items, DifferentIds) && forall x :: x in items ==> x.id < newId
    ensures var r := AddLine(items, cart, product, quantity, price, newId, lookupFails);
      && Pairwise(r, DifferentIds)
      && (!lookupFails && ExistingLine(items, cart, product).Some? ==> forall x :: x in r ==> x.id < newId)
      && forall x :: x in r ==> x.id <= newId
  {
    var existing := if lookupFails then None else ExistingLine(items, cart, product);
    if existing.None? {
      PairwiseAppend(items, CartItem(newId, cart, product, quantity, price), DifferentIds);
    } else {
      var r := WithQuantity(items, existing.value.id, existing.value.quantity + quantity);
      forall x | x in r ensures x.id < newId {
        var k :| 0 <= k < |r| && r[k] == x;
        assert items[k] in items;
      }
    }
  }

  /**
   * `addToCart`: find or create the cart, read the product's price, then merge
   * the quantity into the existing row or insert a new one. A cart created on
   * the way stays even when a later step fails. A failed product read
   * (`productReadFails`) is answered like a missing product. The source's
   * default of 1 for an omitted quantity is left to the caller, who passes
   * `quantity` explicitly. The ghost results name the cart the row goes into
   * and the id a newly inserted row takes.
   */
  method AddToCart(db: Db, user: Option<UserId>, product: ProductId, quantity: int, faults: AddFaults)
    returns (r: ActionResult, ghost cartId: CartId, ghost newId: CartItemId)
    requires db.Valid()
    modifies db`carts, db`cartItems, db`nextId
    ensures db.Valid()
    ensures
      if user.None? then
        r == Error(LoginRequired) && db.carts == old(db.carts) && db.cartItems == old(db.cartItems)
      else if faults.cartFetchError.Some? then
        && r == Error(FetchCartFailed + faults.cartFetchError.value)
        && db.carts == old(db.carts) && db.cartItems == old(db.cartItems)
      else if CartOf(old(db.carts), user.value).None? && faults.cartCreateError.Some? then
        && r == Error(CreateCartFailed + faults.cartCreateError.value)
        && db.carts == old(db.carts) && db.cartItems == old(db.cartItems)
      else
        var created := CartOf(old(db.carts), user.value).None?;
        var cart := if created then Cart(old(db.nextId), user.value) else CartOf(old(db.carts), user.value).value;
        && db.carts == (if created then old(db.carts) + [cart] else old(db.carts))
        && cartId == cart.id
        && newId == old(db.nextId) + (if created then 1 else 0)
        && if product !in db.products || faults.productReadFails then
             r == Error(ProductNotFound) && db.cartItems == old(db.cartItems)
           else if faults.writeError.Some? then
             && db.cartItems == old(db.cartItems)
             && var merged := !faults.lookupFails && ExistingLine(old(db.cartItems), cartId, product).Some?;
                r == Error((if merged then UpdateItemFailed else AddItemFailed) + faults.writeError.value)
           else
             && r == Success
             && db.cartItems == AddLine(old(db.cartItems), cartId, product, quantity, db.products[product].price,
                                        newId, faults.lookupFails)
  {
    cartId, newId := 0, 0;
    if user.None? {
      r := Error(LoginRequired);
      return;
    }
    if faults.cartFetchError.Some? {
      r := Error(FetchCartFailed + faults.cartFetchError.value);
      return;
    }
    var cart := FindOrCreateCart(db, user.value, faults.cartCreateError);
    if cart.None? {
      r := Error(CreateCartFailed + faults.cartCreateError.value);
      return;
    }
    var id, nextRow := cart.value.id, db.nextId;
    cartId, newId := id, nextRow;
    if product !in db.products || faults.productReadFails {
      r := Error(ProductNotFound);
      return;
    }
    var merged := !faults.lookupFails && ExistingLine(db.cartItems, id, product).Some?;
    if faults.writeError.Some? {
      r := Error((if merged then UpdateItemFailed else AddItemFailed) + faults.writeError.value);
      return;
    }
    var price := db.products[product].price;
    AddLineIds(db.cartItems, id, product, quantity, price, nextRow, faults.lookupFails);
    db.cartItems := AddLine(db.cartItems, id, product, quantity, price, nextRow, faults.lookupFails);
    if !merged {
      db.nextId := db.nextId + 1;
    }
    r := Success;
  }

  /** `removeFromCart`: delete the row with that id (no ownership check). */
  method RemoveFromCart(db: Db, item: CartItemId, fails: bool) returns (r: ActionResult)
    requires db.Valid()
    modifies db`cartItems
    ensures db.Valid()
    ensures fails ==> r == Error(RemoveFailed) && db.cartItems == old(db.cartItems)
    ensures !fails ==> r == Success && db.cartItems == WithoutItem(old(db.cartItems), item)
  {
    if fails {
      return Error(RemoveFailed);
    }
    db.cartItems := WithoutItem(db.cartItems, item);
    r := Success;
  }

  /**
   * `updateCartItemQuantity`: a quantity of zero or less removes the row,
   * exactly as `removeFromCart`; otherwise only that row's quantity is set.
   */
  method UpdateCartItemQuantity(db: Db, item: CartItemId, quantity: int, fails: bool) returns (r: ActionResult)
    requires db.Valid()
    modifies db`cartItems
    ensures db.Valid()
    ensures quantity <= 0 && fails ==> r == Error(RemoveFailed) && db.cartItems == old(db.cartItems)
    ensures quantity <= 0 && !fails ==> r == Success && db.cartItems == WithoutItem(old(db.cartItems), item)
    ensures quantity > 0 && fails ==> r == Error(UpdateQuantityFailed) && db.cartItems == old(db.cartItems)
    ensures quantity > 0 && !fails ==>
      r == Success && db.cartItems == WithQuantity(old(db.cartItems), item, quantity)
    ensures OneRowPerProduct(old(db.cartItems)) ==> OneRowPerProduct(db.cartItems)
  {
    if quantity <= 0 {
      r := RemoveFromCart(db, item, fails);
      return;
    }
    if fails {
      return Error(UpdateQuantityFailed);
    }
    db.cartItems := WithQuantity(db.cartItems, item, quantity);
    r := Success;
  }

  /**
   * `clearCart`: delete every row of the caller's cart and no other cart's
   * rows. The cart read's error is not inspected: when it fails
   * (`readFails`), the cart looks absent and the call succeeds with every row
   * still stored.
   */
  method ClearCart(db: Db, user: Option<UserId>, readFails: bool, fails: bool) returns (r: ActionResult)
    requires db.Valid()
    modifies db`cartItems
    ensures db.Valid()
    ensures user.None? ==> r == Error(NotAuthenticated) && db.cartItems == old(db.cartItems)
    ensures user.Some? && (readFails || CartOf(db.carts, user.value).None?) ==>
      r == Success && db.cartItems == old(db.cartItems)
    ensures user.Some? && !readFails && CartOf(db.carts, user.value).Some? ==>
      if fails then r == Error(ClearFailed) && db.cartItems == old(db.cartItems)
      else r == Success && db.cartItems == WithoutCart(old(db.cartItems), CartOf(db.carts, user.value).value.id)
  {
    if user.None? {
      return Error(NotAuthenticated);
    }
    var cart := if readFails then None else CartOf(db.carts, user.value);
    if cart.None? {
      return Success;
    }
    if fails {
      return Error(ClearFailed);
    }
    db.cartItems := WithoutCart(db.cartItems, cart.value.id);
    r := Success;
  }

  /** After a clear, the caller's cart is empty and every other cart keeps its rows in order. */
  lemma ClearEmptiesOnlyThatCart(items: seq<CartItem>, cart: CartId, other: CartId)
    requires other != cart
    ensures ItemsOf(WithoutCart(items, cart), cart) == []
    ensures ItemsOf(WithoutCart(items, cart), other) == ItemsOf(items, other)
  {
    ItemsOfWithoutCart(items, cart, other);
  }

  lemma {:induction false} ItemsOfWithoutCart(items: seq<CartItem>, cart: CartId, other: CartId)
    requires other != cart
    ensures ItemsOf(WithoutCart(items, cart), other) == ItemsOf(items, other)
  {
    if items != [] {
      ItemsOfWithoutCart(items[1..], cart, other);
      var keepOther := (x: CartItem) => x.cartId == other;
      var dropCart := (x: CartItem) => x.cartId != cart;
      assert Filter(items, dropCart) == (if dropCart(items[0]) then [items[0]] else []) + Filter(items[1..], dropCart);
      FilterAppend(if dropCart(items[0]) then [items[0]] else [], Filter(items[1..], dropCart), keepOther);
    }
  }
}
