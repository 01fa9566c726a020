/**
 * The cart state machine: a map from product id to cart line, changed by
 * "add", "set quantity" and "remove". Each function below is the new cart
 * one of those operations produces from the old one.
 */
module Cart {

  import opened Wrappers
  import opened Records

  /** `Math.min(a, b)`. */
  function Min(a: int, b: int): (m: int)
    ensures m <= a && m <= b && (m == a || m == b)
  {
    if a <= b then a else b
  }

  /**
   * `selectedQty[id] || 1`: the quantity picked for a product, where a missing
   * entry or a 0 (both falsy) stand for 1.
   */
  function RequestedQty(selectedQty: map<int, int>, id: int): (q: int)
    ensures q != 0
    ensures id in selectedQty && selectedQty[id] != 0 ==> q == selectedQty[id]
    ensures id !in selectedQty || selectedQty[id] == 0 ==> q == 1
  {
    if id in selectedQty && selectedQty[id] != 0 then selectedQty[id] else 1
  }

  /**
   * The cart after adding `qty` units of `product`. A product not yet in the
   * cart gets a new line holding a snapshot of the product and `qty`, with no
   * stock check; a product already in the cart keeps its snapshot and gets
   * `min(stock, old quantity + qty)`, with the product's current stock.
   */
  function AddLine(cart: map<int, CartItem>, product: Product, qty: int): (r: map<int, CartItem>)
    ensures r.Keys == cart.Keys + {product.id}
    ensures forall k :: k in cart && k != product.id ==> r[k] == cart[k]
    ensures product.id !in cart ==> r[product.id] == CartItem(product, qty)
    ensures product.id in cart ==>
              && r[product.id].snapshot == cart[product.id].snapshot
              && r[product.id].qty <= product.stock
              && r[product.id].qty <= cart[product.id].qty + qty
              && (r[product.id].qty == product.stock || r[product.id].qty == cart[product.id].qty + qty)
  {
    var id := product.id;
    if id !in cart then cart[id := CartItem(product, qty)]
    else cart[id := cart[id].(qty := Min(product.stock, cart[id].qty + qty))]
  }

  /** The cart without the line for `id`; the same cart when there is none. */
  function RemoveLine(cart: map<int, CartItem>, id: int): (r: map<int, CartItem>)
    ensures r.Keys == cart.Keys - {id}
    ensures forall k :: k in r ==> r[k] == cart[k]
    ensures id !in cart ==> r == cart
  {
    cart - {id}
  }

  /**
   * The cart after asking for `q` units of the line `id`, where `stock` is the
   * product's current stock: no positive quantity removes the line, anything
   * else sets its quantity to `min(q, stock)` and keeps its snapshot.
   */
  function UpdateLine(cart: map<int, CartItem>, id: int, stock: int, q: int): (r: map<int, CartItem>)
    requires q > 0 ==> id in cart
    ensures q <= 0 ==> r == RemoveLine(cart, id)
    ensures q > 0 ==> r.Keys == cart.Keys
    ensures q > 0 ==> r[id].snapshot == cart[id].snapshot
                      && r[id].qty <= q && r[id].qty <= stock
                      && (r[id].qty == q || r[id].qty == stock)
    ensures forall k :: k in cart && k != id ==> k in r && r[k] == cart[k]
  {
    if q <= 0 then RemoveLine(cart, id)
    else cart[id := cart[id].(qty := Min(q, stock))]
  }

  /** Every line holds at least one unit. */
  ghost predicate QuantitiesPositive(cart: map<int, CartItem>)
  {
    forall k :: k in cart ==> cart[k].qty >= 1
  }

  /**
   * Adding `a` units and then `b` units of a product not yet in the cart gives
   * the same cart as adding `a + b` units at once exactly when `a + b` fits in
   * the stock: the first add does not clamp, the second one does.
   */
  lemma AddTwiceVersusOnce(cart: map<int, CartItem>, product: Product, a: int, b: int)
    requires product.id !in cart
    ensures AddLine(AddLine(cart, product, a), product, b) == AddLine(cart, product, a + b)
            <==> a + b <= product.stock
  {
  }

  /** Setting the same quantity twice is the same as setting it once. */
  lemma UpdateIdempotent(cart: map<int, CartItem>, id: int, stock: int, q: int)
    requires q > 0 ==> id in cart
    ensures var once := UpdateLine(cart, id, stock, q);
            UpdateLine(once, id, stock, q) == once
  {
  }

  /** Removing twice is removing once. */
  lemma RemoveIdempotent(cart: map<int, CartItem>, id: int)
    ensures RemoveLine(RemoveLine(cart, id), id) == RemoveLine(cart, id)
  {
  }

  /**
   * The "+" button followed by the "-" button restores the cart, as long as
   * the line was below the stock so that "+" was not clamped.
   */
  lemma IncrementThenDecrement(cart: map<int, CartItem>, id: int, stock: int)
    requires id in cart && 1 <= cart[id].qty < stock
    ensures var n := cart[id].qty;
            UpdateLine(UpdateLine(cart, id, stock, n + 1), id, stock, n) == cart
  {
  }

  /** The "-" button on a line holding one unit removes the line. */
  lemma DecrementLastUnitRemoves(cart: map<int, CartItem>, id: int, stock: int)
    requires id in cart && cart[id].qty == 1
    ensures UpdateLine(cart, id, stock, cart[id].qty - 1) == cart - {id}
  {
  }

  /**
   * Adding at least one unit of a product with stock keeps every line
   * non-empty.
   */
  lemma AddKeepsQuantitiesPositive(cart: map<int, CartItem>, product: Product, qty: int)
    requires QuantitiesPositive(cart) && qty >= 1 && product.stock >= 1
    ensures QuantitiesPositive(AddLine(cart, product, qty))
  {
  }

  /** Setting the quantity of a product with stock keeps every line non-empty. */
  lemma UpdateKeepsQuantitiesPositive(cart: map<int, CartItem>, id: int, stock: int, q: int)
    requires QuantitiesPositive(cart) && stock >= 1 && (q > 0 ==> id in cart)
    ensures QuantitiesPositive(UpdateLine(cart, id, stock, q))
  {
  }

  /** Removing a line keeps every remaining line non-empty. */
  lemma RemoveKeepsQuantitiesPositive(cart: map<int, CartItem>, id: int)
    requires QuantitiesPositive(cart)
    ensures QuantitiesPositive(RemoveLine(cart, id))
  {
  }

  /**
   * A product whose stock has dropped to 0 is not removed from the cart by
   * another add: its line is left holding 0 units.
   */
  lemma AddToSoldOutLeavesEmptyLine(cart: map<int, CartItem>, product: Product, qty: int)
    requires product.id in cart && product.stock == 0
    requires cart[product.id].qty >= 1 && qty >= 1
    ensures product.id in AddLine(cart, product, qty)
    ensures AddLine(cart, product, qty)[product.id].qty == 0
  {
  }

}
