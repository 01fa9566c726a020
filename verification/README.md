# Lustore Boutique storefront: cart, pricing and coupons in Dafny

This project models the business rules of the Lustore Boutique storefront page
(`client/src/pages/Home.tsx`): the shopping cart, the price figures it shows and
the discount coupons. Money is an integer number of cents throughout.

- `records.dfy` (module `Records`): products, coupons and cart lines with the
  fields of the `products` and `coupons` tables, and the catalog lookup by id.
- `text.dfy` (module `Text`): JavaScript's `trim` and `toUpperCase` as the coupon
  field uses them.
- `pricing.dfy` (module `Pricing`): the subtotal (`reduce` over `Object.values`
  of the cart), the discount of the applied coupon, and the amount due.
- `cart.dfy` (module `Cart`): the cart after "add", "set quantity" and "remove",
  as functions of the cart before, with the lemmas that relate them.
- `coupons.dfy` (module `Coupons`): the coupon lookup behind "apply", and the
  active/inactive toggle of the admin panel.
- `storefront.dfy` (module `HomePage`): class `Storefront`, whose fields are the
  page's state (`products`, `coupons`, `cart`, `appliedCoupon`, `couponCode`,
  `selectedQty`) and whose methods are the page's handlers. Each handler states
  its new state as one of the functions above applied to the old state.

Behaviour kept as the code has it:

- The first "add" of a product stores the picked quantity without checking it
  against the stock. Only adding to an existing line clamps to the stock.
  So adding `a` then `b` units equals adding `a + b` at once only when `a + b`
  fits in the stock (`Cart.AddTwiceVersusOnce`).
- The intended rule that every line holds between 1 and `stock` units is not
  kept by the code. Adding to a line whose product has sold out (stock 0)
  leaves a line of 0 units (`Cart.AddToSoldOutLeavesEmptyLine`). The model
  proves the weaker invariant that holds: lines stay non-empty while stock is
  at least 1.
- A percentage coupon is not capped at 100%. A value above 10000 gives a
  discount above the subtotal (`Pricing.PercentageAboveHundredExceedsSubtotal`).
  Only the clamp of the total at 0 keeps the amount due non-negative.
- `updateQty` with a positive quantity rebuilds the line from the existing
  entry. The page only calls it for products in the cart. `UpdateQty` therefore
  requires the line to exist when the quantity is positive and the product is
  in the catalog.
- Toggling a coupon that is applied to the cart does not unapply it.

## Model

| member | source | states |
|---|---|---|
| `Records.FindProduct` | client/src/pages/Home.tsx:321 | the first catalog product with the id; none exactly when no product has it |
| `Text.LeadingWhitespace` | client/src/pages/Home.tsx:284 | counts the whitespace prefix `trim` removes: all whitespace, followed by a non-whitespace character or the end |
| `Text.TrailingWhitespace` | client/src/pages/Home.tsx:284 | counts the whitespace suffix `trim` removes |
| `Text.Trim` | client/src/pages/Home.tsx:284 | the trimmed code is the slice of the input left after removing only whitespace before and after it, and it neither starts nor ends with whitespace |
| `Text.BlankIffAllWhitespace` | client/src/pages/Home.tsx:284 | the code trims to nothing exactly when every character is whitespace |
| `Text.IsBlank` | client/src/pages/Home.tsx:284 | `!code.trim()` holds exactly when every character is whitespace (by `Text.BlankIffAllWhitespace`) |
| `Text.UpperChar` | client/src/pages/Home.tsx:290 | lower-case ASCII letters move to upper case and every other character is kept |
| `Text.ToUpper` | client/src/pages/Home.tsx:290 | `toUpperCase` keeps the length and upper-cases each character |
| `Text.ToUpperIdempotent` | client/src/pages/Home.tsx:882 | upper-casing the already upper-cased field again changes nothing |
| `Text.ToUpperKeepsBlank` | client/src/pages/Home.tsx:284 | a code is blank after upper-casing exactly when it was blank before |
| `Pricing.SortedKeys` | client/src/pages/Home.tsx:364 | `Object.values` visits every product id once, in ascending order |
| `Pricing.CartItems` | client/src/pages/Home.tsx:364 | one cart item per product id: position i holds the line of the i-th smallest id |
| `Pricing.SumLinesAnyOrder` | client/src/pages/Home.tsx:365 | folding the line amounts in any order that lists each id once gives the unordered sum |
| `Pricing.SumLines` | client/src/pages/Home.tsx:365 | the `reduce` of price × qty over a list of lines, never negative when no price or quantity is; folding in any order gives the unordered sum (by `Pricing.SumLinesAnyOrder`) |
| `Pricing.Subtotal` | client/src/pages/Home.tsx:364-365 | the reduce over `Object.values(cart)` equals the order-free sum of price × qty over the cart's lines |
| `Pricing.SubtotalOrderIndependent` | client/src/pages/Home.tsx:365 | the subtotal does not depend on the order of the cart's entries |
| `Pricing.SubtotalNonNegative` | client/src/pages/Home.tsx:365 | non-negative prices and quantities give a non-negative subtotal |
| `Pricing.SubtotalAfterPut` | client/src/pages/Home.tsx:365 | replacing or adding one line changes the subtotal by exactly that line's difference |
| `Pricing.SubtotalAfterRemove` | client/src/pages/Home.tsx:365 | removing a line takes exactly its price × qty off the subtotal; an absent id changes nothing |
| `Pricing.RoundedShare` | client/src/pages/Home.tsx:313 | `Math.round(x / 10000)` is the integer nearest x/10000, halves rounded up |
| `Pricing.CalculateDiscount` | client/src/pages/Home.tsx:309-317 | no coupon gives 0; a fixed coupon gives the smaller of its value and the subtotal; a percentage coupon gives subtotal × value / 10000 rounded to the nearest cent |
| `Pricing.Total` | client/src/pages/Home.tsx:367 | the amount due is subtotal − discount, clamped at 0, and never negative |
| `Pricing.DiscountWithinSubtotal` | client/src/pages/Home.tsx:309-316 | a fixed coupon of non-negative value or a percentage coupon of 0 to 10000 gives a discount between 0 and the subtotal |
| `Pricing.TotalAtMostSubtotal` | client/src/pages/Home.tsx:367 | a non-negative discount never makes the amount due exceed the subtotal |
| `Pricing.PricingBounds` | client/src/pages/Home.tsx:364-367 | for well-formed lines and an in-range coupon, 0 ≤ discount ≤ subtotal and 0 ≤ total ≤ subtotal |
| `Pricing.TenPercentOfTenThousand` | client/src/pages/Home.tsx:312-313 | a 10% coupon (value 1000) on 10000 cents gives 1000 off and 9000 due |
| `Pricing.FixedCouponCappedAtSubtotal` | client/src/pages/Home.tsx:314-316 | a fixed coupon of 5000 on 3000 cents gives 3000 off and 0 due |
| `Pricing.PercentageAboveHundredExceedsSubtotal` | client/src/pages/Home.tsx:312-313 | a 150% coupon gives a discount larger than the subtotal, and 0 due |
| `Cart.RequestedQty` | client/src/pages/Home.tsx:324 | the picked quantity, with a missing or 0 entry standing for 1 |
| `Cart.AddLine` | client/src/pages/Home.tsx:325-333 | a new line is a snapshot of the product with the quantity, unclamped; an existing line keeps its snapshot and gets min(stock, old + qty); other lines are untouched |
| `Cart.RemoveLine` | client/src/pages/Home.tsx:356-360 | exactly key `id` is gone, every other line is kept, and an absent id leaves the cart as it was |
| `Cart.UpdateLine` | client/src/pages/Home.tsx:344-351 | q ≤ 0 is the same as removing the line; otherwise the line keeps its snapshot and gets min(q, stock); other lines are untouched |
| `Cart.AddTwiceVersusOnce` | client/src/pages/Home.tsx:327-331 | adding a then b units to an absent line equals adding a + b at once exactly when a + b ≤ stock |
| `Cart.UpdateIdempotent` | client/src/pages/Home.tsx:347-350 | setting the same quantity twice is setting it once |
| `Cart.RemoveIdempotent` | client/src/pages/Home.tsx:355-361 | removing twice is removing once |
| `Cart.IncrementThenDecrement` | client/src/pages/Home.tsx:829-840 | "+" then "−" on a line below its stock restores the cart |
| `Cart.DecrementLastUnitRemoves` | client/src/pages/Home.tsx:344-345 | "−" on a line of one unit removes the line |
| `Cart.AddKeepsQuantitiesPositive` | client/src/pages/Home.tsx:324-331 | adding at least one unit of an in-stock product keeps every line at one unit or more |
| `Cart.UpdateKeepsQuantitiesPositive` | client/src/pages/Home.tsx:344-350 | setting a quantity of an in-stock product keeps every line at one unit or more |
| `Cart.RemoveKeepsQuantitiesPositive` | client/src/pages/Home.tsx:355-361 | removing a line keeps every remaining line at one unit or more |
| `Cart.AddToSoldOutLeavesEmptyLine` | client/src/pages/Home.tsx:330 | adding to a line whose product has stock 0 leaves a line of 0 units in the cart |
| `Coupons.FindCoupon` | client/src/pages/Home.tsx:289-291 | the first coupon in list order with exactly this code and `active == 1`; none exactly when there is no such coupon |
| `Coupons.FindCouponUnique` | client/src/pages/Home.tsx:289-291 | with unique codes, the coupon found is exactly the active coupon with that code |
| `Coupons.ApplyResult` | client/src/pages/Home.tsx:283-299 | a blank code is refused; otherwise the result is an active coupon whose code is the upper-cased input, or a refusal exactly when there is none |
| `Coupons.ApplyIgnoresCase` | client/src/pages/Home.tsx:290 | applying the upper-cased input has the same outcome as applying the input |
| `Coupons.LowerCaseCodeApplies` | client/src/pages/Home.tsx:289-291 | "save10" applies the active coupon stored as "SAVE10" |
| `Coupons.InactiveNeverApplied` | client/src/pages/Home.tsx:290 | a coupon whose flag is not 1 is never applied |
| `Coupons.Toggled` | client/src/pages/Home.tsx:269 | the toggle sends 0 for an active coupon and 1 for any other flag |
| `Coupons.ToggleTwice` | client/src/pages/Home.tsx:266-271 | toggling twice restores a 0/1 flag; any other flag ends as 0 |
| `Coupons.WithActive` | server/db.ts:162-171 | the update by id sets the flag on every coupon with that id and leaves the others unchanged |
| `Coupons.DeactivatedNotFound` | client/src/pages/Home.tsx:266-271 | no code finds a coupon once it has been switched off |
| `Coupons.ActivatedFound` | client/src/pages/Home.tsx:266-271 | once a coupon is switched on, its own code finds it, with its other fields unchanged |
| `HomePage.Storefront.constructor` | client/src/pages/Home.tsx:42-50 | the page starts from the fetched lists, the saved cart, no coupon, an empty coupon field and nothing picked |
| `HomePage.Storefront.SelectQty` | client/src/pages/Home.tsx:787-792 | the quantity picked on a card is stored for that product only |
| `HomePage.Storefront.AddToCart` | client/src/pages/Home.tsx:320-337 | an unknown id changes nothing; otherwise the cart becomes `AddLine` of the picked quantity and the pick resets to 1 |
| `HomePage.Storefront.UpdateQty` | client/src/pages/Home.tsx:340-352 | an unknown id changes nothing; otherwise the cart becomes `UpdateLine` with the product's current stock |
| `HomePage.Storefront.RemoveFromCart` | client/src/pages/Home.tsx:355-361 | the cart becomes `RemoveLine` of the old cart |
| `HomePage.Storefront.EnterCouponCode` | client/src/pages/Home.tsx:882 | the coupon field holds the upper-cased text |
| `HomePage.Storefront.ApplyCoupon` | client/src/pages/Home.tsx:283-300 | returns `ApplyResult` of the field; only a found coupon replaces the applied one |
| `HomePage.Storefront.RemoveCoupon` | client/src/pages/Home.tsx:303-306 | no coupon is applied and the coupon field is empty |
| `HomePage.Storefront.ToggleCoupon` | client/src/pages/Home.tsx:266-271 | the coupon list becomes `WithActive` with the flipped flag; the applied coupon is not touched |
| `HomePage.Storefront.Totals` | client/src/pages/Home.tsx:364-367 | subtotal, discount and amount due of the current cart and coupon; the amount due is never negative, and all three are bounded by the subtotal for well-formed lines and an in-range coupon |
| `HomePage.Storefront.CartBadge` | client/src/pages/Home.tsx:462 | the badge counts distinct products in the cart, not units |

## Left out

- Loading and saving the cart, the WhatsApp number and the admin flag in browser storage (Home.tsx:123-143): I/O. The cart read back at start-up is the constructor's `savedCart` parameter.
- `formatBRL` and the WhatsApp message (Home.tsx:37-38, 370-384): locale formatting and URL encoding from the platform library.
- The admin product and coupon forms, their `parseFloat(...) * 100` conversions, and coupon create, edit and delete (Home.tsx:158-263): floating-point input parsing and calls to the server.
- Image upload through `FileReader` (Home.tsx:146-155) and the password login and logout (Home.tsx:387-405): browser I/O and an authentication gate with no contract to keep.
- The server layer (`server/db.ts`, `server/routers.ts`) and the table declarations (`drizzle/schema.ts`): connections, queries and input schemas. The one server operation the toggle depends on, the coupon update by id (server/db.ts:162-171), is modelled as `Coupons.WithActive`. The tables supply the record fields, without the timestamps.
- `alert` messages, loading states and rendering. For "apply", the messages are the `ApplyOutcome` cases.
- HomePage.Storefront.ToggleCoupon: the server update and the re-fetch are one step here. A failed update, which leaves the list unchanged, is not modelled.
- Text.ToUpper: only ASCII letters change case. JavaScript also upper-cases other letters, and "ß" becomes "SS".
- Text.UpperChar: the same gap, character by character: non-ASCII letters are kept as they are.
- HomePage.Storefront.EnterCouponCode: the same gap, since the field is upper-cased through `Text.ToUpper`.
- Pricing.SortedKeys: this is the `Object.values` order for ids that are array indices (0 to 2³²−2). Ids outside that range come in insertion order in JavaScript, and the model does not cover them. The subtotal does not depend on the order.
- Number width: the page computes with IEEE doubles. The model uses exact integers, which agree with the page while every amount stays below 2⁵³.
- Pricing.RoundedShare: `Math.round` of the exact quotient. Rounding of the floating-point division itself is not modelled.
- HomePage.Storefront.AddToCart: the existing line's `qty` is changed in place, on an object that the previous cart state shares. This aliasing is not modelled, because cart lines here are values. Under a development-mode double call of the state updater, the shared object would be increased twice.
