/**
 * Coupon lookup and the coupon's active flag: resolving the code typed into
 * the cart against the coupon list, and flipping a coupon between active and
 * inactive from the admin panel.
 */
module Coupons {

  import opened Wrappers
  import opened Records
  import opened Text

  /** A coupon answers to `code` when its code is exactly `code` and it is active. */
  predicate Matches(c: Coupon, code: string)
  {
    c.code == code && c.active == 1
  }

  /** `dbCoupons.find(c => c.code === code && c.active === 1)`. */
  function FindCoupon(coupons: seq<Coupon>, code: string): (r: Option<Coupon>)
    ensures r.Some? ==> Matches(r.value, code) && r.value in coupons
    ensures r.Some? ==> exists i :: 0 <= i < |coupons| && coupons[i] == r.value
                           && forall j :: 0 <= j < i ==> !Matches(coupons[j], code)
    ensures r.None? <==> forall c :: c in coupons ==> !Matches(c, code)
  {
    match FirstIndex(coupons, (c: Coupon) => Matches(c, code))
    case None => None
    case Some(i) => Some(coupons[i])
  }

  /** No two coupons share a code (the `unique` constraint of the coupons table). */
  ghost predicate UniqueCodes(coupons: seq<Coupon>)
  {
    forall i, j :: 0 <= i < j < |coupons| ==> coupons[i].code != coupons[j].code
  }

  /** With unique codes, the coupon found is the one active coupon with that code. */
  lemma FindCouponUnique(coupons: seq<Coupon>, code: string, c: Coupon)
    requires UniqueCodes(coupons)
    ensures FindCoupon(coupons, code) == Some(c) <==> c in coupons && Matches(c, code)
  {
  }

  /** What pressing "apply" reports. */
  datatype ApplyOutcome =
    | BlankCode              // the field is empty once trimmed
    | InvalidCoupon          // no active coupon has this code
    | Applied(coupon: Coupon)

  /**
   * `applyCoupon`: a blank entry is refused; otherwise the upper-cased entry
   * is looked up among the active coupons.
   */
  function ApplyResult(coupons: seq<Coupon>, entered: string): (r: ApplyOutcome)
    ensures r == BlankCode <==> IsBlank(entered)
    ensures r.Applied? ==> r.coupon in coupons && r.coupon.active == 1
                           && r.coupon.code == ToUpper(entered)
    ensures r.Applied? ==> FindCoupon(coupons, ToUpper(entered)) == Some(r.coupon)
    ensures r == InvalidCoupon <==>
              !IsBlank(entered) && forall c :: c in coupons ==> !Matches(c, ToUpper(entered))
  {
    if IsBlank(entered) then BlankCode
    else match FindCoupon(coupons, ToUpper(entered))
      case None => InvalidCoupon
      case Some(c) => Applied(c)
  }

  /** Lower- or upper-case input makes no difference to applying a code. */
  lemma ApplyIgnoresCase(coupons: seq<Coupon>, entered: string)
    ensures ApplyResult(coupons, ToUpper(entered)) == ApplyResult(coupons, entered)
  {
    ToUpperKeepsBlank(entered);
    ToUpperIdempotent(entered);
  }

  /** "save10" applies an active coupon stored as "SAVE10". */
  lemma LowerCaseCodeApplies(c: Coupon)
    requires c.code == "SAVE10" && c.active == 1
    ensures ApplyResult([c], "save10") == Applied(c)
  {
  }

  /** An inactive coupon is never applied, whatever is typed. */
  lemma InactiveNeverApplied(coupons: seq<Coupon>, entered: string, c: Coupon)
    requires c.active != 1
    ensures ApplyResult(coupons, entered) != Applied(c)
  {
  }

  /** `active === 1 ? 0 : 1`: the flag the toggle button sends. */
  function Toggled(active: int): (r: int)
    ensures r == 0 || r == 1
    ensures r == 0 <==> active == 1
  {
    if active == 1 then 0 else 1
  }

  /**
   * Toggling twice restores a 0/1 flag; any other value ends up as 0, since it
   * first reads as inactive.
   */
  lemma ToggleTwice(active: int)
    ensures Toggled(Toggled(active)) == if active == 1 then 1 else 0
  {
  }

  /** The coupon list after the store sets `active := flag` on the coupons with id `id`. */
  function WithActive(coupons: seq<Coupon>, id: int, flag: int): (r: seq<Coupon>)
    ensures |r| == |coupons|
    ensures forall i :: 0 <= i < |coupons| && coupons[i].id != id ==> r[i] == coupons[i]
    ensures forall i :: 0 <= i < |coupons| && coupons[i].id == id ==> r[i] == coupons[i].(active := flag)
  {
    seq(|coupons|, i requires 0 <= i < |coupons| =>
      if coupons[i].id == id then coupons[i].(active := flag) else coupons[i])
  }

  /** Once a coupon is switched off, no code finds it. */
  lemma DeactivatedNotFound(coupons: seq<Coupon>, id: int, code: string)
    ensures var r := FindCoupon(WithActive(coupons, id, 0), code);
            r.Some? ==> r.value.id != id
  {
  }

  /**
   * Once a coupon is switched on, its own code finds it (codes being unique),
   * and nothing else about it has changed.
   */
  lemma ActivatedFound(coupons: seq<Coupon>, i: nat)
    requires UniqueCodes(coupons) && i < |coupons|
    ensures var after := WithActive(coupons, coupons[i].id, 1);
            FindCoupon(after, coupons[i].code) == Some(coupons[i].(active := 1))
  {
  }

}
