/**
 * The storefront page's cart, pricing and coupon state, as one object: the
 * catalog and coupon lists it was loaded with, the cart, the applied coupon,
 * the text in the coupon field and the quantity picked on each product card.
 * Each handler of the page is a method that changes these fields.
 */
module HomePage {

  import opened Wrappers
  import opened Records
  import opened Text
  import opened Pricing
  import opened Cart
  import opened Coupons

  class Storefront {
    /** The catalog as last fetched (`dbProducts`). */
    var products: seq<Product>
    /** The coupon list as last fetched (`dbCoupons`). */
    var coupons: seq<Coupon>
    /** The cart, keyed by product id. */
    var cart: map<int, CartItem>
    /** The coupon currently applied to the cart, if any. */
    var appliedCoupon: Option<Coupon>
    /** The text in the coupon field. */
    var couponCode: string
    /** The quantity picked on each product card, by product id. */
    var selectedQty: map<int, int>

    /**
     * The page as first rendered: the fetched lists, the cart read back from
     * the browser's storage (`savedCart`), no coupon and nothing picked.
     */
    constructor (catalog: seq<Product>, couponList: seq<Coupon>, savedCart: map<int, CartItem>)
      ensures products == catalog && coupons == couponList && cart == savedCart
      ensures appliedCoupon == None && couponCode == [] && selectedQty == map[]
    {
      products := catalog;
      coupons := couponList;
      cart := savedCart;
      appliedCoupon := None;
      couponCode := [];
      selectedQty := map[];
    }

    /** The quantity `<select>` on a product card: `q` is now picked for `id`. */
    method SelectQty(id: int, q: int)
      modifies this`selectedQty
      ensures selectedQty == old(selectedQty)[id := q]
    {
      selectedQty := selectedQty[id := q];
    }

    /**
     * `addToCart(id)`: nothing happens for an id the catalog does not have;
     * otherwise the picked quantity (1 when none) is added to the product's
     * line and the product's picked quantity goes back to 1.
     */
    method AddToCart(id: int)
      modifies this`cart, this`selectedQty
      ensures FindProduct(products, id).None? ==>
                cart == old(cart) && selectedQty == old(selectedQty)
      ensures FindProduct(products, id).Some? ==>
                && cart == AddLine(old(cart), FindProduct(products, id).value, RequestedQty(old(selectedQty), id))
                && selectedQty == old(selectedQty)[id := 1]
    {
      var found := FindProduct(products, id);
      if found.None? {
        return;
      }
      var product := found.value;
      var qty := RequestedQty(selectedQty, id);
      var newCart := cart;
      if id !in newCart {
        newCart := newCart[id := CartItem(product, qty)];
      } else {
        newCart := newCart[id := newCart[id].(qty := Min(product.stock, newCart[id].qty + qty))];
      }
      cart := newCart;
      selectedQty := selectedQty[id := 1];
    }

    /**
     * `updateQty(id, q)`: nothing happens for an id the catalog does not
     * have; a quantity of 0 or less removes the line; any other quantity is
     * clamped to the product's current stock. A positive quantity is only
     * ever asked for a product that has a line.
     */
    method UpdateQty(id: int, q: int)
      requires q > 0 && FindProduct(products, id).Some? ==> id in cart
      modifies this`cart
      ensures FindProduct(products, id).None? ==> cart == old(cart)
      ensures FindProduct(products, id).Some? ==>
                cart == UpdateLine(old(cart), id, FindProduct(products, id).value.stock, q)
    {
      var found := FindProduct(products, id);
      if found.None? {
        return;
      }
      if q <= 0 {
        RemoveFromCart(id);
      } else {
        cart := cart[id := cart[id].(qty := Min(q, found.value.stock))];
      }
    }

    /** `removeFromCart(id)`: the line for `id` is gone and every other line is as it was. */
    method RemoveFromCart(id: int)
      modifies this`cart
      ensures cart == RemoveLine(old(cart), id)
    {
      var newCart := cart;
      newCart := newCart - {id};
      cart := newCart;
    }

    /** The coupon field's `onChange`: the text is stored upper-cased. */
    method EnterCouponCode(text: string)
      modifies this`couponCode
      ensures couponCode == ToUpper(text)
    {
      couponCode := ToUpper(text);
    }

    /**
     * `applyCoupon()`: the outcome for the text in the coupon field; only a
     * found coupon replaces the applied one, a refusal leaves it as it was.
     */
    method ApplyCoupon() returns (outcome: ApplyOutcome)
      modifies this`appliedCoupon
      ensures outcome == ApplyResult(coupons, couponCode)
      ensures outcome.Applied? ==> appliedCoupon == Some(outcome.coupon)
      ensures !outcome.Applied? ==> appliedCoupon == old(appliedCoupon)
    {
      if IsBlank(couponCode) {
        return BlankCode;
      }
      var coupon := FindCoupon(coupons, ToUpper(couponCode));
      if coupon.None? {
        return InvalidCoupon;
      }
      appliedCoupon := coupon;
      outcome := Applied(coupon.value);
    }

    /** `removeCoupon()`: no coupon is applied and the coupon field is empty. */
    method RemoveCoupon()
      modifies this`appliedCoupon, this`couponCode
      ensures appliedCoupon == None && couponCode == []
    {
      appliedCoupon := None;
      couponCode := [];
    }

    /**
     * `handleToggleCoupon(id, active)` once the store has been updated and the
     * list fetched again: every coupon with that id carries the flipped flag.
     * A coupon already applied to the cart stays applied.
     */
    method ToggleCoupon(id: int, active: int)
      modifies this`coupons
      ensures coupons == WithActive(old(coupons), id, Toggled(active))
    {
      coupons := WithActive(coupons, id, Toggled(active));
    }

    /**
     * The figures the cart shows: the subtotal, the discount of the applied
     * coupon and the amount due, which is never negative. With non-negative
     * prices and quantities and an in-range coupon both the discount and the
     * amount due lie between 0 and the subtotal.
     */
    method Totals() returns (subtotal: int, discount: int, total: int)
      ensures subtotal == Subtotal(cart)
      ensures discount == CalculateDiscount(appliedCoupon, subtotal)
      ensures total == Total(subtotal, discount) && total >= 0
      ensures NonNegativeLines(cart) && InRange(appliedCoupon) ==>
                0 <= discount <= subtotal && 0 <= total <= subtotal
    {
      var items := CartItems(cart);
      subtotal := SumLines(items);
      discount := CalculateDiscount(appliedCoupon, subtotal);
      total := Total(subtotal, discount);
      if NonNegativeLines(cart) && InRange(appliedCoupon) {
        PricingBounds(cart, appliedCoupon);
      }
    }

    /** The cart badge (`cartItems.length`): distinct products, not units. */
    method CartBadge() returns (n: nat)
      ensures n == |cart.Keys|
    {
      n := |CartItems(cart)|;
    }
  }

}
