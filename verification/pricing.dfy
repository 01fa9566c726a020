/**
 * The pricing engine: the cart subtotal, the coupon discount and the total,
 * all in integer cents, recomputed from the cart and the applied coupon on
 * every render.
 */
module Pricing {

  import opened Wrappers
  import opened Records

  /** Percentage coupon values are hundredths of a percent: 10000 is 100%. */
  const PercentScale: int := 10000

  // ---------------------------------------------------------------------------
  // Cart lines in `Object.values` order
  // ---------------------------------------------------------------------------

  lemma MinKeyExists(keys: set<int>)
    requires exists x :: x in keys
    ensures exists k :: k in keys && forall j :: j in keys ==> k <= j
    decreases |keys|
  {
    var x :| x in keys;
    var rest := keys - {x};
    if exists y :: y in rest {
      MinKeyExists(rest);
      var m :| m in rest && forall j :: j in rest ==> m <= j;
      var k := if x < m then x else m;
      assert forall j :: j in keys ==> j == x || j in rest;
      assert k in keys && forall j :: j in keys ==> k <= j;
    } else {
      assert forall j :: j in keys ==> j == x || j in rest;
      assert forall j :: j in keys ==> j == x;
    }
  }

  /** The smallest key of a set that has one. */
  function MinKey(keys: set<int>): (k: int)
    requires exists x :: x in keys
    ensures k in keys && forall j :: j in keys ==> k <= j
  {
    MinKeyExists(keys);
    var k :| k in keys && forall j :: j in keys ==> k <= j;
    k
  }

  /** The keys in ascending order, the order `Object.values` lists integer keys in. */
  function SortedKeys(keys: set<int>): (ks: seq<int>)
    ensures |ks| == |keys|
    ensures forall k :: k in keys <==> k in ks
    ensures forall i, j :: 0 <= i < j < |ks| ==> ks[i] < ks[j]
    decreases |keys|
  {
    if !exists x :: x in keys then
      assert keys == {};
      []
    else
      var k := MinKey(keys);
      [k] + SortedKeys(keys - {k})
  }

  /** `ks` lists every key of `cart` exactly once. */
  ghost predicate ListsKeys(cart: map<int, CartItem>, ks: seq<int>)
  {
    && (forall i, j :: 0 <= i < j < |ks| ==> ks[i] != ks[j])
    && (forall i :: 0 <= i < |ks| ==> ks[i] in cart)
    && (forall k :: k in cart ==> k in ks)
  }

  /** The lines stored under `ks`, in that order. */
  function ValuesAt(cart: map<int, CartItem>, ks: seq<int>): (items: seq<CartItem>)
    requires forall i :: 0 <= i < |ks| ==> ks[i] in cart
    ensures |items| == |ks|
    ensures forall i :: 0 <= i < |ks| ==> items[i] == cart[ks[i]]
  {
    seq(|ks|, i requires 0 <= i < |ks| => cart[ks[i]])
  }

  /** `Object.values(cart)`: one entry per product in the cart. */
  function CartItems(cart: map<int, CartItem>): (items: seq<CartItem>)
    ensures |items| == |cart|
    ensures forall i :: 0 <= i < |items| ==> items[i] == cart[SortedKeys(cart.Keys)[i]]
    ensures forall it :: it in items <==> it in cart.Values
  {
    var ks := SortedKeys(cart.Keys);
    assert |cart.Keys| == |cart|;
    var items := ValuesAt(cart, ks);
    assert forall it :: it in cart.Values ==> it in items by {
      forall it | it in cart.Values ensures it in items {
        var k :| k in cart && cart[k] == it;
        var i :| 0 <= i < |ks| && ks[i] == k;
        assert items[i] == it;
      }
    }
    items
  }

  // ---------------------------------------------------------------------------
  // Subtotal
  // ---------------------------------------------------------------------------

  /**
   * `items.reduce((sum, item) => sum + item.price * item.qty, 0)`, a left fold;
   * never negative when no price or quantity is.
   */
  function SumLines(items: seq<CartItem>): (r: int)
    ensures (forall i :: 0 <= i < |items| ==> items[i].snapshot.price >= 0 && items[i].qty >= 0) ==> r >= 0
  {
    if items == [] then 0
    else SumLines(items[..|items| - 1]) + LineAmount(items[|items| - 1])
  }

  /** The subtotal shown in the cart, in cents: the sum of price × qty over its lines. */
  function Subtotal(cart: map<int, CartItem>): (s: int)
    ensures s == MapSum(cart)
  {
    var ks := SortedKeys(cart.Keys);
    SumLinesAnyOrder(cart, ks);
    assert CartItems(cart) == ValuesAt(cart, ks);
    SumLines(CartItems(cart))
  }

  /** The sum of the line amounts of a cart, taken in no particular order. */
  ghost function MapSum(cart: map<int, CartItem>): int
    decreases |cart|
  {
    if !exists k :: k in cart then 0
    else
      var k :| k in cart;
      assert (cart - {k}).Keys == cart.Keys - {k};
      LineAmount(cart[k]) + MapSum(cart - {k})
  }

  /** Any one line can be split off the unordered sum. */
  lemma {:induction false} MapSumRemove(cart: map<int, CartItem>, k: int)
    requires k in cart
    ensures MapSum(cart) == LineAmount(cart[k]) + MapSum(cart - {k})
    decreases |cart|
  {
    var j :| j in cart && MapSum(cart) == LineAmount(cart[j]) + MapSum(cart - {j});
    if j != k {
      assert (cart - {j}).Keys == cart.Keys - {j};
      assert (cart - {k}).Keys == cart.Keys - {k};
      MapSumRemove(cart - {j}, k);
      MapSumRemove(cart - {k}, j);
      assert cart - {j} - {k} == cart - {k} - {j};
    }
  }

  /** Dropping the last listed key lists the rest of the cart. */
  lemma DropLastKey(cart: map<int, CartItem>, ks: seq<int>)
    requires ListsKeys(cart, ks) && ks != []
    ensures ListsKeys(cart - {ks[|ks| - 1]}, ks[..|ks| - 1])
    ensures ValuesAt(cart, ks)[..|ks| - 1] == ValuesAt(cart - {ks[|ks| - 1]}, ks[..|ks| - 1])
  {
  }

  /**
   * Summing the lines in any order that lists every key once gives the same
   * result: the subtotal does not depend on the order of the cart's entries.
   */
  lemma {:induction false} SumLinesAnyOrder(cart: map<int, CartItem>, ks: seq<int>)
    requires ListsKeys(cart, ks)
    ensures SumLines(ValuesAt(cart, ks)) == MapSum(cart)
    decreases |ks|
  {
    if ks == [] {
      assert forall k :: k in cart ==> k in ks;
    } else {
      var n := |ks| - 1;
      DropLastKey(cart, ks);
      SumLinesAnyOrder(cart - {ks[n]}, ks[..n]);
      MapSumRemove(cart, ks[n]);
    }
  }

  /** Listing the cart in any order gives the subtotal. */
  lemma SubtotalOrderIndependent(cart: map<int, CartItem>, ks: seq<int>)
    requires ListsKeys(cart, ks)
    ensures SumLines(ValuesAt(cart, ks)) == Subtotal(cart)
  {
    SumLinesAnyOrder(cart, ks);
  }

  /** Every line has a non-negative price and quantity. */
  ghost predicate NonNegativeLines(cart: map<int, CartItem>)
  {
    forall k :: k in cart ==> cart[k].snapshot.price >= 0 && cart[k].qty >= 0
  }

  lemma {:induction false} MapSumNonNegative(cart: map<int, CartItem>)
    requires NonNegativeLines(cart)
    ensures MapSum(cart) >= 0
    decreases |cart|
  {
    if exists k :: k in cart {
      var k :| k in cart;
      assert (cart - {k}).Keys == cart.Keys - {k};
      MapSumRemove(cart, k);
      MapSumNonNegative(cart - {k});
    }
  }

  /** With non-negative prices and quantities the subtotal is non-negative. */
  lemma SubtotalNonNegative(cart: map<int, CartItem>)
    requires NonNegativeLines(cart)
    ensures Subtotal(cart) >= 0
  {
    MapSumNonNegative(cart);
  }

  /** Storing a line under `id` changes the subtotal by exactly that line's difference. */
  lemma SubtotalAfterPut(cart: map<int, CartItem>, id: int, item: CartItem)
    ensures Subtotal(cart[id := item])
         == Subtotal(cart) - (if id in cart then LineAmount(cart[id]) else 0) + LineAmount(item)
  {
    var updated := cart[id := item];
    MapSumRemove(updated, id);
    assert updated - {id} == cart - {id};
    MapSumWithout(cart, id);
  }

  /** Removing the line under `id` takes exactly its amount off the subtotal. */
  lemma SubtotalAfterRemove(cart: map<int, CartItem>, id: int)
    ensures Subtotal(cart - {id}) == Subtotal(cart) - (if id in cart then LineAmount(cart[id]) else 0)
  {
    MapSumWithout(cart, id);
  }

  lemma MapSumWithout(cart: map<int, CartItem>, id: int)
    ensures MapSum(cart - {id}) == MapSum(cart) - (if id in cart then LineAmount(cart[id]) else 0)
  {
    if id in cart {
      MapSumRemove(cart, id);
    } else {
      assert cart - {id} == cart;
    }
  }

  // ---------------------------------------------------------------------------
  // Discount and total
  // ---------------------------------------------------------------------------

  /** `Math.round(x / 10000)`: the nearest integer to x/10000, halves rounded up. */
  function RoundedShare(x: int): (r: int)
    ensures PercentScale * r - PercentScale / 2 <= x < PercentScale * r + PercentScale / 2
  {
    (x + PercentScale / 2) / PercentScale
  }

  /** `calculateDiscount(subtotal)` for the coupon currently applied, if any. */
  function CalculateDiscount(applied: Option<Coupon>, subtotal: int): (d: int)
    ensures applied.None? ==> d == 0
    ensures applied.Some? && applied.value.kind == Fixed ==>
              d <= applied.value.value && d <= subtotal
              && (d == applied.value.value || d == subtotal)
    ensures applied.Some? && applied.value.kind == Percentage ==>
              PercentScale * d - PercentScale / 2 <= subtotal * applied.value.value
              < PercentScale * d + PercentScale / 2
  {
    match applied
    case None => 0
    case Some(c) =>
      if c.kind == Percentage then RoundedShare(subtotal * c.value)
      else if c.value <= subtotal then c.value else subtotal
  }

  /** `Math.max(0, subtotal - discount)`. */
  function Total(subtotal: int, discount: int): (t: int)
    ensures t >= 0 && t >= subtotal - discount
    ensures t == 0 || t == subtotal - discount
  {
    if subtotal - discount >= 0 then subtotal - discount else 0
  }

  /** The coupon values for which a discount can never exceed the subtotal. */
  predicate InRange(applied: Option<Coupon>)
  {
    match applied
    case None => true
    case Some(c) =>
      if c.kind == Fixed then c.value >= 0 else 0 <= c.value <= PercentScale
  }

  /** With an in-range coupon and a non-negative subtotal, 0 <= discount <= subtotal. */
  lemma DiscountWithinSubtotal(applied: Option<Coupon>, subtotal: int)
    requires subtotal >= 0 && InRange(applied)
    ensures 0 <= CalculateDiscount(applied, subtotal) <= subtotal
  {
  }

  /** A non-negative discount never raises the total above a non-negative subtotal. */
  lemma TotalAtMostSubtotal(subtotal: int, discount: int)
    requires subtotal >= 0 && discount >= 0
    ensures 0 <= Total(subtotal, discount) <= subtotal
  {
  }

  /** The figures shown in the cart are bounded by the subtotal. */
  lemma PricingBounds(cart: map<int, CartItem>, applied: Option<Coupon>)
    requires NonNegativeLines(cart) && InRange(applied)
    ensures var s := Subtotal(cart);
            var d := CalculateDiscount(applied, s);
            0 <= d <= s && 0 <= Total(s, d) <= s
  {
    SubtotalNonNegative(cart);
    DiscountWithinSubtotal(applied, Subtotal(cart));
  }

  /** A 10% coupon (value 1000) on 10000 cents gives 1000 off and a total of 9000. */
  lemma TenPercentOfTenThousand()
    ensures CalculateDiscount(Some(Coupon(1, "SAVE10", Percentage, 1000, 1, None)), 10000) == 1000
    ensures Total(10000, CalculateDiscount(Some(Coupon(1, "SAVE10", Percentage, 1000, 1, None)), 10000)) == 9000
  {
  }

  /** A fixed coupon of 5000 on 3000 cents is capped at 3000 and the total is 0. */
  lemma FixedCouponCappedAtSubtotal()
    ensures CalculateDiscount(Some(Coupon(1, "OFF50", Fixed, 5000, 1, None)), 3000) == 3000
    ensures Total(3000, CalculateDiscount(Some(Coupon(1, "OFF50", Fixed, 5000, 1, None)), 3000)) == 0
  {
  }

  /**
   * Percentage values above 10000 are not capped: 150% of 10000 cents is a
   * discount of 15000, larger than the subtotal; only the total's clamp keeps
   * the amount due at 0.
   */
  lemma PercentageAboveHundredExceedsSubtotal()
    ensures CalculateDiscount(Some(Coupon(1, "X", Percentage, 15000, 1, None)), 10000) == 15000
    ensures Total(10000, CalculateDiscount(Some(Coupon(1, "X", Percentage, 15000, 1, None)), 10000)) == 0
  {
  }

}
