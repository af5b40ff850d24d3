/**
 * The hosted database the server actions talk to, as one object whose
 * fields are its tables. Rows are kept in insertion order; a delete is a
 * filter and an update by key rewrites the matching rows, as the
 * storage service's `.delete().eq(...)` and `.update(...).eq(...)` do.
 * Row ids are drawn from `nextId`, standing in for the generated uuids.
 */
module Store {
  import opened Wrappers
  import opened Entities

  // ---------- generic row filtering ----------

  /** The rows of `s` that `keep` accepts, in their original order. */
  function Filter<T(!new)>(s: seq<T>, keep: T -> bool): (r: seq<T>)
    ensures |r| <= |s|
    ensures forall x :: x in r <==> x in s && keep(x)
  {
    if s == [] then []
    else if keep(s[0]) then [s[0]] + Filter(s[1..], keep)
    else Filter(s[1..], keep)
  }

  /** Filtering distributes over appending rows. */
  lemma {:induction false} FilterAppend<T(!new)>(a: seq<T>, b: seq<T>, keep: T -> bool)
    ensures Filter(a + b, keep) == Filter(a, keep) + Filter(b, keep)
  {
    if a == [] {
      assert a + b == b;
    } else {
      assert (a + b)[0] == a[0] && (a + b)[1..] == a[1..] + b;
      FilterAppend(a[1..], b, keep);
    }
  }

  /** A filter that accepts every row changes nothing. */
  lemma {:induction false} FilterKeepsAll<T(!new)>(s: seq<T>, keep: T -> bool)
    requires forall x :: x in s ==> keep(x)
    ensures Filter(s, keep) == s
  {
    if s != [] {
      FilterKeepsAll(s[1..], keep);
    }
  }

  /** A filter that accepts no row leaves nothing. */
  lemma {:induction false} FilterNone<T(!new)>(s: seq<T>, keep: T -> bool)
    requires forall x :: x in s ==> !keep(x)
    ensures Filter(s, keep) == []
  {
    if s != [] {
      FilterNone(s[1..], keep);
    }
  }

  /** Every pair of rows, taken in table order, is related by `rel`. */
  ghost predicate Pairwise<T>(s: seq<T>, rel: (T, T) -> bool) {
    forall i, j :: 0 <= i < j < |s| ==> rel(s[i], s[j])
  }

  /** Deleting rows cannot break a pairwise constraint. */
  lemma {:induction false} FilterPairwise<T(!new)>(s: seq<T>, keep: T -> bool, rel: (T, T) -> bool)
    ensures Pairwise(s, rel) ==> Pairwise(Filter(s, keep), rel)
  {
    if s != [] && Pairwise(s, rel) {
      assert Pairwise(s[1..], rel) by {
        forall i, j | 0 <= i < j < |s[1..]| ensures rel(s[1..][i], s[1..][j]) {
          assert s[1..][i] == s[i + 1] && s[1..][j] == s[j + 1];
        }
      }
      FilterPairwise(s[1..], keep, rel);
      var rest := Filter(s[1..], keep);
      if keep(s[0]) {
        var r := [s[0]] + rest;
        forall i, j | 0 <= i < j < |r| ensures rel(r[i], r[j]) {
          if i == 0 {
            assert r[j] in s[1..];
            var k :| 0 <= k < |s[1..]| && s[1..][k] == r[j];
            assert s[k + 1] == r[j];
          } else {
            assert r[i] == rest[i - 1] && r[j] == rest[j - 1];
          }
        }
      }
    }
  }

  /** Appending a row related to every earlier row keeps a pairwise constraint. */
  lemma PairwiseAppend<T(!new)>(s: seq<T>, x: T, rel: (T, T) -> bool)
    requires Pairwise(s, rel)
    requires forall y :: y in s ==> rel(y, x)
    ensures Pairwise(s + [x], rel)
  {
    var r := s + [x];
    forall i, j | 0 <= i < j < |r| ensures rel(r[i], r[j]) {
      if j == |s| {
        assert r[i] in s;
      } else {
        assert r[i] == s[i] && r[j] == s[j];
      }
    }
  }

  /** `{ success: true }` or `{ error: message }`, the shape every action returns. */
  datatype ActionResult = Success | Error(message: string)

  // ---------- carts ----------

  /** The cart of `user`: what `.from('carts').eq('user_id', user)` finds. */
  function CartOf(carts: seq<Cart>, user: UserId): (r: Option<Cart>)
    ensures r.Some? ==> r.value in carts && r.value.userId == user
    ensures r.None? ==> forall c :: c in carts ==> c.userId != user
  {
    if carts == [] then None
    else if carts[0].userId == user then Some(carts[0])
    else CartOf(carts[1..], user)
  }

  predicate DifferentOwners(a: Cart, b: Cart) {
    a.userId != b.userId
  }

  /** At most one cart per user. */
  ghost predicate OneCartPerUser(carts: seq<Cart>) {
    Pairwise(carts, DifferentOwners)
  }

  // ---------- cart items ----------

  /** The rows of one cart (`.eq('cart_id', cart)`). */
  function ItemsOf(items: seq<CartItem>, cart: CartId): (r: seq<CartItem>)
    ensures forall x :: x in r <==> x in items && x.cartId == cart
    ensures (forall x :: x in items ==> x.cartId != cart) ==> r == []
  {
    var keep := (x: CartItem) => x.cartId == cart;
    if forall x :: x in items ==> x.cartId != cart then FilterNone(items, keep); Filter(items, keep)
    else Filter(items, keep)
  }

  predicate DifferentImageIds(a: ProductImage, b: ProductImage) {
    a.id != b.id
  }

  predicate DifferentIds(a: CartItem, b: CartItem) {
    a.id != b.id
  }

  predicate DifferentLines(a: CartItem, b: CartItem) {
    a.cartId != b.cartId || a.productId != b.productId
  }

  /** At most one row per (cart, product) pair. */
  ghost predicate OneRowPerProduct(items: seq<CartItem>) {
    Pairwise(items, DifferentLines)
  }

  /** The table after `.delete().eq('id', id)`. */
  function WithoutItem(items: seq<CartItem>, id: CartItemId): (r: seq<CartItem>)
    ensures forall x :: x in r <==> x in items && x.id != id
    ensures Pairwise(items, DifferentIds) ==> Pairwise(r, DifferentIds)
    ensures OneRowPerProduct(items) ==> OneRowPerProduct(r)
  {
    var keep := (x: CartItem) => x.id != id;
    FilterPairwise(items, keep, DifferentIds);
    FilterPairwise(items, keep, DifferentLines);
    Filter(items, keep)
  }

  /** The table after `.delete().eq('cart_id', cart)`. */
  function WithoutCart(items: seq<CartItem>, cart: CartId): (r: seq<CartItem>)
    ensures forall x :: x in r <==> x in items && x.cartId != cart
    ensures Pairwise(items, DifferentIds) ==> Pairwise(r, DifferentIds)
    ensures OneRowPerProduct(items) ==> OneRowPerProduct(r)
  {
    var keep := (x: CartItem) => x.cartId != cart;
    FilterPairwise(items, keep, DifferentIds);
    FilterPairwise(items, keep, DifferentLines);
    Filter(items, keep)
  }

  /** The rows of one cart that hold one product (`.eq('cart_id', cart).eq('product_id', product)`). */
  function LinesFor(items: seq<CartItem>, cart: CartId, product: ProductId): (r: seq<CartItem>)
    ensures forall x :: x in r <==> x in items && x.cartId == cart && x.productId == product
    ensures OneRowPerProduct(items) ==> |r| <= 1
  {
    var keep := (x: CartItem) => x.cartId == cart && x.productId == product;
    FilterPairwise(items, keep, DifferentLines);
    var r := Filter(items, keep);
    assert |r| >= 2 ==> r[0] in r && r[1] in r;
    r
  }

  /** The table after `.update({ quantity }).eq('id', id)`. */
  function WithQuantity(items: seq<CartItem>, id: CartItemId, quantity: int): (r: seq<CartItem>)
    ensures |r| == |items|
    ensures forall k :: 0 <= k < |items| ==>
      r[k] == if items[k].id == id then items[k].(quantity := quantity) else items[k]
    ensures Pairwise(items, DifferentIds) ==> Pairwise(r, DifferentIds)
    ensures OneRowPerProduct(items) ==> OneRowPerProduct(r)
  {
    var r := seq(|items|, k requires 0 <= k < |items| =>
      if items[k].id == id then items[k].(quantity := quantity) else items[k]);
    assert forall i, j :: 0 <= i < j < |r| ==>
      (DifferentIds(r[i], r[j]) <==> DifferentIds(items[i], items[j])) &&
      (DifferentLines(r[i], r[j]) <==> DifferentLines(items[i], items[j]));
    r
  }

  // ---------- orders ----------

  /** The table after `.delete().eq('id', id)`. */
  function WithoutOrder(orders: seq<Order>, id: OrderId): (r: seq<Order>)
    ensures forall o :: o in r <==> o in orders && o.id != id
  {
    Filter(orders, (o: Order) => o.id != id)
  }

  /** Deleting a just-inserted row whose id is fresh restores the table exactly. */
  lemma WithoutFreshOrder(orders: seq<Order>, o: Order)
    requires forall p :: p in orders ==> p.id != o.id
    ensures WithoutOrder(orders + [o], o.id) == orders
  {
    var keep := (p: Order) => p.id != o.id;
    FilterAppend(orders, [o], keep);
    FilterKeepsAll(orders, keep);
    assert Filter([o], keep) == [];
  }

  // ---------- the database ----------

  class Db {
    var carts: seq<Cart>
    var cartItems: seq<CartItem>
    var products: map<ProductId, Product>
    var orders: seq<Order>
    var orderItems: seq<OrderItem>
    var paymentMethods: seq<PaymentMethod>
    var productImages: seq<ProductImage>
    var profiles: map<UserId, Role>
    /** The object paths held in the `product-images` storage bucket. */
    var imageBucket: set<string>
    var nextId: nat

    /** Every generated id lies below `nextId`, cart lines and product images carry distinct ids, and no user owns two carts. */
    ghost predicate Valid()
      reads this
    {
      && (forall c :: c in carts ==> c.id < nextId)
      && (forall x :: x in cartItems ==> x.id < nextId)
      && Pairwise(cartItems, DifferentIds)
      && (forall o :: o in orders ==> o.id < nextId)
      && (forall m :: m in productImages ==> m.id < nextId)
      && Pairwise(productImages, DifferentImageIds)
      && OneCartPerUser(carts)
    }

    /** An empty database with the given catalog, payment methods and profiles. */
    constructor (products: map<ProductId, Product>, paymentMethods: seq<PaymentMethod>, profiles: map<UserId, Role>)
      ensures Valid()
      ensures this.products == products && this.paymentMethods == paymentMethods && this.profiles == profiles
      ensures carts == [] && cartItems == [] && orders == [] && orderItems == [] && productImages == []
      ensures imageBucket == {}
    {
      this.products := products;
      this.paymentMethods := paymentMethods;
      this.profiles := profiles;
      carts, cartItems, orders, orderItems, productImages := [], [], [], [], [];
      imageBucket := {};
      nextId := 0;
    }
  }
}
