/**
 * The records the storefront works on: catalog products, discount coupons and
 * cart lines, with the field shapes of the `products` and `coupons` tables.
 * Money is an integer number of cents; timestamps are not modelled.
 */
module Records {

  import opened Wrappers

  /** A catalog entry. `price` is in cents; `stock` is the units on hand. */
  datatype Product = Product(
    id: int,
    title: string,
    price: int,
    size: string,
    color: string,
    img: string,
    sku: string,
    stock: int)

  /** `fixed` takes `value` cents off; `percentage` takes value/100 percent. */
  datatype CouponKind = Fixed | Percentage

  /** A discount rule; `active` is an integer flag, 1 meaning active. */
  datatype Coupon = Coupon(
    id: int,
    code: string,
    kind: CouponKind,
    value: int,
    active: int,
    description: Option<string>)

  /**
   * A cart line: the product exactly as it was when first added to the cart
   * (price included), together with the quantity asked for.
   */
  datatype CartItem = CartItem(snapshot: Product, qty: int)

  /** What one line contributes to the subtotal, in cents. */
  function LineAmount(item: CartItem): int
  {
    item.snapshot.price * item.qty
  }

  /** The index of the first element satisfying `matches`, as `Array.prototype.findIndex`. */
  function FirstIndex<T>(s: seq<T>, matches: T -> bool): (r: Option<nat>)
    ensures r.Some? ==> r.value < |s| && matches(s[r.value])
    ensures r.Some? ==> forall j :: 0 <= j < r.value ==> !matches(s[j])
    ensures r.None? <==> forall j :: 0 <= j < |s| ==> !matches(s[j])
  {
    if |s| == 0 then None
    else if matches(s[0]) then Some(0)
    else match FirstIndex(s[1..], matches)
      case None => None
      case Some(i) => Some(i + 1)
  }

  /** The first catalog product with the given id (`dbProducts.find(p => p.id === id)`). */
  function FindProduct(products: seq<Product>, id: int): (r: Option<Product>)
    ensures r.Some? ==> r.value.id == id && r.value in products
    ensures r.Some? ==> exists i :: 0 <= i < |products| && products[i] == r.value
                           && forall j :: 0 <= j < i ==> products[j].id != id
    ensures r.None? <==> forall p :: p in products ==> p.id != id
  {
    match FirstIndex(products, (p: Product) => p.id == id)
    case None => None
    case Some(i) => Some(products[i])
  }

}
