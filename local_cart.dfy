/**
 * The browser-side cart page (src/app/cart/page.tsx): a list of
 * (product, quantity) pairs kept under the `cart` key of local storage,
 * joined with catalog rows for display. The stored list is held already
 * parsed; the product query's result is a parameter.
 */
module LocalCart {
  import opened Wrappers
  import opened Entities
  import Store

  /** One stored entry. */
  datatype StoredItem = StoredItem(productId: ProductId, quantity: int)

  /** The columns the page selects from `products`. */
  datatype CatalogRow = CatalogRow(name: string, price: real, unitType: string)

  /** One displayed line. */
  datatype CartLine = CartLine(productId: ProductId, name: string, price: real, quantity: int, unitType: string)

  const UnknownName := "Unknown"
  const DefaultUnit := "unit"

  /** `product?.price || 0`. */
  function PriceOf(catalog: map<ProductId, CatalogRow>, p: ProductId): real {
    if p in catalog then catalog[p].price else 0.0
  }

  /** The display line of a stored entry: a missing product, or an empty name or unit, reads as the defaults. */
  function Line(item: StoredItem, catalog: map<ProductId, CatalogRow>): (l: CartLine)
    ensures l.productId == item.productId && l.quantity == item.quantity
    ensures l.price == PriceOf(catalog, item.productId)
    ensures item.productId !in catalog ==> l.name == UnknownName && l.unitType == DefaultUnit && l.price == 0.0
    ensures item.productId in catalog ==>
      && l.name == (if catalog[item.productId].name == "" then UnknownName else catalog[item.productId].name)
      && l.unitType == (if catalog[item.productId].unitType == "" then DefaultUnit else catalog[item.productId].unitType)
  {
    if item.productId in catalog then
      var row := catalog[item.productId];
      CartLine(item.productId, if row.name == "" then UnknownName else row.name, row.price, item.quantity,
               if row.unitType == "" then DefaultUnit else row.unitType)
    else CartLine(item.productId, UnknownName, 0.0, item.quantity, DefaultUnit)
  }

  /** The `cartItems.map(...)` of `loadCart`: one line per stored entry, in the stored order. */
  function JoinCatalog(items: seq<StoredItem>, catalog: map<ProductId, CatalogRow>): (lines: seq<CartLine>)
    ensures |lines| == |items|
    ensures forall k :: 0 <= k < |items| ==> lines[k] == Line(items[k], catalog)
  {
    seq(|items|, k requires 0 <= k < |items| => Line(items[k], catalog))
  }

  /** What a line costs: quantity times unit price. */
  function Amount(quantity: int, price: real): real {
    quantity as real * price
  }

  /** `cart.reduce((total, item) => total + item.quantity * item.price, 0)`. */
  function Subtotal(lines: seq<CartLine>): real {
    if lines == [] then 0.0 else Amount(lines[0].quantity, lines[0].price) + Subtotal(lines[1..])
  }

  /** Lines with no negative quantity or price never add up to a negative subtotal. */
  lemma {:induction false} SubtotalNonNegative(lines: seq<CartLine>)
    requires forall k :: 0 <= k < |lines| ==> lines[k].quantity >= 0 && lines[k].price >= 0.0
    ensures Subtotal(lines) >= 0.0
  {
    if lines != [] {
      assert forall k :: 0 <= k < |lines[1..]| ==> lines[1..][k] == lines[k + 1];
      SubtotalNonNegative(lines[1..]);
      assert lines[0].quantity as real * lines[0].price >= 0.0;
    }
  }

  /** The quantity of a product summed over the stored entries. */
  function QuantityOf(items: seq<StoredItem>, p: ProductId): int {
    if items == [] then 0
    else (if items[0].productId == p then items[0].quantity else 0) + QuantityOf(items[1..], p)
  }

  /** The stored list after `removeItem(p)`: every entry of `p` gone, the rest in order. */
  function WithoutProduct(items: seq<StoredItem>, p: ProductId): (r: seq<StoredItem>)
    ensures |r| <= |items|
    ensures forall x :: x in r <==> x in items && x.productId != p
  {
    Store.Filter(items, (x: StoredItem) => x.productId != p)
  }

  /** Removal looks at the first entry, then at the rest. */
  lemma WithoutProductCons(items: seq<StoredItem>, p: ProductId)
    requires items != []
    ensures WithoutProduct(items, p)
         == (if items[0].productId == p then [] else [items[0]]) + WithoutProduct(items[1..], p)
  {
  }

  /** Removal works entry by entry: the kept entries of a joined list are the kept entries of each part, in order. */
  lemma WithoutProductAppend(a: seq<StoredItem>, b: seq<StoredItem>, p: ProductId)
    ensures WithoutProduct(a + b, p) == WithoutProduct(a, p) + WithoutProduct(b, p)
  {
    Store.FilterAppend(a, b, (x: StoredItem) => x.productId != p);
  }

  /** The stored list after `updateQuantity(p, q)` with `q >= 1`: entries of `p` get quantity `q`. */
  function WithQuantity(items: seq<StoredItem>, p: ProductId, q: int): (r: seq<StoredItem>)
    ensures |r| == |items|
    ensures forall k :: 0 <= k < |items| ==>
      r[k] == if items[k].productId == p then items[k].(quantity := q) else items[k]
  {
    seq(|items|, k requires 0 <= k < |items| =>
      if items[k].productId == p then items[k].(quantity := q) else items[k])
  }

  /** The subtotal of a joined list: its first line's amount plus the rest. */
  lemma SubtotalCons(items: seq<StoredItem>, catalog: map<ProductId, CatalogRow>)
    requires items != []
    ensures Subtotal(JoinCatalog(items, catalog))
         == Amount(items[0].quantity, PriceOf(catalog, items[0].productId))
            + Subtotal(JoinCatalog(items[1..], catalog))
  {
    assert JoinCatalog(items, catalog)[1..] == JoinCatalog(items[1..], catalog);
  }

  /** Amounts add up over quantities. */
  lemma AmountAdds(q1: int, q2: int, price: real)
    ensures Amount(q1 + q2, price) == Amount(q1, price) + Amount(q2, price)
  {
  }

  /** Removing a product lowers the subtotal by exactly that product's quantity times its price. */
  lemma {:induction false} RemoveLowersSubtotal(items: seq<StoredItem>, p: ProductId, catalog: map<ProductId, CatalogRow>)
    ensures Subtotal(JoinCatalog(items, catalog))
         == Subtotal(JoinCatalog(WithoutProduct(items, p), catalog)) + Amount(QuantityOf(items, p), PriceOf(catalog, p))
  {
    if items != [] {
      var rest := items[1..];
      var kept, keptRest := WithoutProduct(items, p), WithoutProduct(rest, p);
      var price := PriceOf(catalog, p);
      SubtotalCons(items, catalog);
      RemoveLowersSubtotal(rest, p, catalog);
      WithoutProductCons(items, p);
      assert QuantityOf(items, p) == (if items[0].productId == p then items[0].quantity else 0) + QuantityOf(rest, p);
      if items[0].productId != p {
        assert kept[1..] == keptRest;
        SubtotalCons(kept, catalog);
        assert Subtotal(JoinCatalog(kept, catalog))
            == Amount(items[0].quantity, PriceOf(catalog, items[0].productId)) + Subtotal(JoinCatalog(keptRest, catalog));
      } else {
        assert kept == keptRest;
        AmountAdds(items[0].quantity, QuantityOf(rest, p), price);
      }
    } else {
      assert WithoutProduct(items, p) == [];
    }
  }

  /** After `removeItem(p)` the product holds no quantity. */
  lemma {:induction false} RemovedProductHoldsNothing(items: seq<StoredItem>, p: ProductId)
    ensures QuantityOf(WithoutProduct(items, p), p) == 0
  {
    if items != [] {
      RemovedProductHoldsNothing(items[1..], p);
      WithoutProductCons(items, p);
    }
  }

  /** Removing a product after changing its quantity is the same as removing it straight away. */
  lemma {:induction false} RemoveForgetsUpdate(items: seq<StoredItem>, p: ProductId, q: int)
    ensures WithoutProduct(WithQuantity(items, p, q), p) == WithoutProduct(items, p)
  {
    if items != [] {
      var u := WithQuantity(items, p, q);
      assert u[1..] == WithQuantity(items[1..], p, q);
      RemoveForgetsUpdate(items[1..], p, q);
    }
  }

  /** Updating a product's quantity leaves every other product's quantity as it was. */
  lemma {:induction false} UpdateKeepsOtherQuantities(items: seq<StoredItem>, p: ProductId, q: int, other: ProductId)
    requires other != p
    ensures QuantityOf(WithQuantity(items, p, q), other) == QuantityOf(items, other)
  {
    if items != [] {
      var u := WithQuantity(items, p, q);
      assert u[1..] == WithQuantity(items[1..], p, q);
      UpdateKeepsOtherQuantities(items[1..], p, q, other);
    }
  }

  /** The cart page's state: the stored list (absent when local storage has no cart) and the displayed lines. */
  class CartPage {
    var stored: Option<seq<StoredItem>>
    var cart: seq<CartLine>

    constructor (stored: Option<seq<StoredItem>>)
      ensures this.stored == stored && cart == []
    {
      this.stored := stored;
      cart := [];
    }

    /** `loadCart`: show the joined lines; without a stored cart or a query result, the display stays as it was. */
    method LoadCart(catalog: Option<map<ProductId, CatalogRow>>)
      modifies this`cart
      ensures stored.None? || catalog.None? ==> cart == old(cart)
      ensures stored.Some? && catalog.Some? ==> cart == JoinCatalog(stored.value, catalog.value)
    {
      if stored.Some? && catalog.Some? {
        cart := JoinCatalog(stored.value, catalog.value);
      }
    }

    /** `removeItem(p)`: drop every entry of `p` and reload; nothing happens without a stored cart. */
    method RemoveItem(p: ProductId, catalog: Option<map<ProductId, CatalogRow>>)
      modifies this
      ensures old(stored).None? ==> stored == old(stored) && cart == old(cart)
      ensures old(stored).Some? ==> stored == Some(WithoutProduct(old(stored).value, p))
      ensures old(stored).Some? && catalog.None? ==> cart == old(cart)
      ensures old(stored).Some? && catalog.Some? ==> cart == JoinCatalog(WithoutProduct(old(stored).value, p), catalog.value)
    {
      if stored.Some? {
        stored := Some(WithoutProduct(stored.value, p));
        LoadCart(catalog);
      }
    }

    /** `updateQuantity(p, q)`: below one it is `removeItem(p)`; otherwise the entries of `p` get `q`. */
    method UpdateQuantity(p: ProductId, q: int, catalog: Option<map<ProductId, CatalogRow>>)
      modifies this
      ensures old(stored).None? ==> stored == old(stored) && cart == old(cart)
      ensures old(stored).Some? ==>
        stored == Some(if q < 1 then WithoutProduct(old(stored).value, p) else WithQuantity(old(stored).value, p, q))
      ensures old(stored).Some? && catalog.None? ==> cart == old(cart)
      ensures old(stored).Some? && catalog.Some? ==> cart == JoinCatalog(stored.value, catalog.value)
    {
      if q < 1 {
        RemoveItem(p, catalog);
        return;
      }
      if stored.Some? {
        stored := Some(WithQuantity(stored.value, p, q));
        LoadCart(catalog);
      }
    }
  }
}
