# Order, cart and review bookkeeping — a Dafny model

This project models the service layer of an e-commerce backend: placing an
order (`createOrder`), moving it through its statuses (`updateOrderStatus`),
the cart mutations, the per-variant review statistics, and the request
schemas that guard the order endpoints. The enums `OrderStatus`,
`PaymentMethod` and `PaymentStatus` are datatypes shared by all of it.

The backend keeps every record twice, in a document store and in a search
index. The model keeps one store, `Models.Db`, a class whose fields are the
collections: carts keyed by user, variants, coupons keyed by code, users,
orders, and a sequence of reviews. Each service operation is a method on that
store. Where an operation reads from the search index rather than the store,
the index's view is passed in as a parameter:

- `createOrder` reads carts, variants and coupons through `OrderService.IndexView`;
- the add and set-quantity cart operations read variants through `catalog`;
- `removeItemFromCart` reads carts through `index`.

Money is exact: amounts are `real`, and `Math.floor`, `Math.round` and
`Math.ceil` are written out in `JsMath`.

`createOrder` is split into two phases:

- **Checks.** `RunChecks` is proved to give the result of the pure function `OrderService.Prepare`. Its only write is the price-change abort's: the signed-in user's stored cart gets the corrected lines. Its per-line validation loop is `ValidateItems`.
- **Writes.** `Commit` signs up a guest, creates the order, and decrements stock line by line (`DecrementStock`, specified by `Drain`). It deletes the order again on the first decrement that fails. Otherwise it finishes by deleting the cart, rewriting the loyalty balance and redeeming the coupon. It returns the order with every line projected without `original_price` (`Respond`).

`CreateOrder` runs `RunChecks` and then `Commit`. Its contract gives the complete new store for every way the call can end.

Where the code and the behaviour described for the system differ, the model
follows the code:

- The loyalty deduction is the points' value capped at `floor(total/2)`. It is not `points_used * 1000`. `OrderPricing.DeductionExceedsPointsCharged` exhibits the gap.
- The amount due can be negative. Only the coupon is checked against the total; the loyalty deduction is not (`OrderPricing.TotalMayBeNegative`).
- 'Cart is empty' is raised only when the user has no cart document. A cart with no lines fails with 'Products not found' instead (`OrderService.NoLinesNotFound`).
- The loyalty rewrite starts from the balance read before the checks, which is 0 unless a signed-in user redeems points. `Commit` writes it as the code does (`OrderService.Credited`, with `OrderPricing.Rewrite` from the points read); the stored balance this loses is the finding below, and the corrected rewrite is `OrderPricing.Rewrite` from the stored balance.

## Model

| member | source | states |
|---|---|---|
| Constants.ParseOrderStatus | src/constants/index.ts:1-6 | a status string is accepted only as the name of the status it parses to |
| Constants.ParsePaymentMethod | src/constants/index.ts:8-11 | a payment-method string is accepted only as the name of the method it parses to |
| Constants.ParsePaymentStatus | src/constants/index.ts:13-17 | a payment-status string is accepted only as the name of the status it parses to |
| Constants.EnumNamesRoundTrip | src/constants/index.ts:1-17 | every enum value parses back from its own string: naming and parsing are inverse |
| JsMath.Floor | src/services/order.service.ts:248-250 | Math.floor gives the largest integer not above x |
| JsMath.Round | src/services/order.service.ts:255 | Math.round gives an integer within half of x, halves rounding up |
| JsMath.Ceil | src/services/order.service.ts:513 | Math.ceil gives the smallest integer not below x |
| CartService.Project | src/services/cart.service.ts:223-226 | the response lists every cart line, in order, each projected without original_price |
| CartService.ProjectionHidesOnlyOriginalPrice | src/services/cart.service.ts:223-226 | two lines project alike if and only if they differ at most in original_price |
| CartService.FirstImage | src/services/cart.service.ts:242 | the line's image is the variant's first image, and there is one exactly when the variant has images |
| CartService.NewItem | src/services/cart.service.ts:234-243 | the appended line has the requested variant and quantity, the variant's name and attributes, its live price, discount and original price, and its first image |
| CartService.IncrementItem | src/services/cart.service.ts:193-205 | $inc adds the quantity to every line of the variant; other lines are untouched and the length is kept |
| CartService.SetItemQuantity | src/services/cart.service.ts:444-458 | $set gives every line of the variant the new quantity; other lines are untouched |
| CartService.RemoveItem | src/services/cart.service.ts:526-528 | the filter leaves no line of the variant, keeps only lines that were there, and never grows the cart |
| CartService.RemoveItemAppend | src/services/cart.service.ts:526-528 | the filter distributes over concatenation, so the surviving lines keep their order |
| CartService.RemoveItemKeepsOthers | src/services/cart.service.ts:526-528 | each line of another variant survives exactly as many times as it occurred |
| CartService.RemoveAbsentItem | src/services/cart.service.ts:526-528 | removing a variant the cart lacks leaves the lines unchanged, without an error |
| CartService.RemoveItemIdempotent | src/services/cart.service.ts:526-528 | removing the same variant twice is the same as removing it once |
| CartService.RemoveItemKeepsDistinct | src/services/cart.service.ts:526-534 | removal keeps at most one line per variant |
| CartService.IncrementChangesOneLine | src/services/cart.service.ts:193-229 | in a cart with one line per variant, the add changes exactly the variant's line, by exactly the quantity |
| CartService.SetQuantityKeepsDistinct | src/services/cart.service.ts:444-458 | setting a quantity keeps at most one line per variant |
| CartService.AppendNewKeepsDistinct | src/services/cart.service.ts:249-259 | appending a variant the cart lacks keeps one line per variant |
| CartService.AddedKeepsDistinct | src/services/cart.service.ts:193-259 | after an add, every cart still has one line per variant, and the added variant is in the user's cart |
| CartService.Added | src/services/cart.service.ts:193-259 | (no contract of its own) the user's cart after an add: incremented when the variant is already there, else the new line appended to the cart or to an empty one; its properties are AddedKeepsDistinct and IncrementChangesOneLine |
| CartService.AddItemToCart | src/services/cart.service.ts:163-286 | an unknown or inactive variant fails and leaves carts unchanged; otherwise the line is incremented, or appended to a possibly new cart; only that user's cart changes, and one line per variant is kept |
| CartService.UpdateItemQuantity | src/services/cart.service.ts:415-493 | the variant check comes first, then 'Cart not found', then 'Item not found in cart'; otherwise only the matching line's quantity becomes the given value |
| CartService.RemoveItemFromCart | src/services/cart.service.ts:496-559 | no indexed cart gives 'Cart not found'; otherwise the indexed lines, filtered, become the stored cart; nothing else changes |
| CartService.ClearCart | src/services/cart.service.ts:562-595 | no cart gives 'Cart not found'; otherwise exactly the user's cart is deleted |
| OrderPricing.SubtotalAppend | src/services/order.service.ts:219-224 | the subtotal of two runs of lines is the sum of their subtotals |
| OrderPricing.LineAmountNonNegative | src/services/order.service.ts:222 | a line with non-negative quantity and price and a discount of at most 1 costs a non-negative amount |
| OrderPricing.SubtotalNonNegative | src/services/order.service.ts:219-224 | such lines always add up to a non-negative subtotal |
| OrderPricing.LineAmount | src/services/order.service.ts:220-222 | (no contract of its own) one line's quantity times price times one minus its discount; LineAmountNonNegative bounds it |
| OrderPricing.Subtotal | src/services/order.service.ts:219-224 | (no contract of its own) the left-to-right reduce of the line amounts; SubtotalAppend and SubtotalNonNegative state its properties |
| OrderPricing.GrossTotal | src/services/order.service.ts:216-227 | (no contract of its own) subtotal plus the 49 000 fee plus 10% tax; Price states it as the quote's pre-discount total |
| OrderPricing.LoyaltyDiscount | src/services/order.service.ts:237-242 | the loyalty deduction is the lesser of the points' value and half the pre-discount total, rounded down |
| OrderPricing.PointsUsed | src/services/order.service.ts:243-245 | the points charged are the whole thousands in the deduction: n·1000 ≤ deduction < (n+1)·1000 |
| OrderPricing.PointsEarned | src/services/order.service.ts:255 | the points earned are within half a point of a ten-thousandth of the subtotal, and never negative for a non-negative subtotal |
| OrderPricing.PointsUsedIsCapped | src/services/order.service.ts:243-245 | the points charged are the balance or what half the total pays for, whichever is less, and are never negative |
| OrderPricing.Price | src/services/order.service.ts:216-255 | rejected if and only if the pre-discount total minus the coupon is negative; otherwise the quote has subtotal, 10% tax and the 49000 fee, the loyalty deduction the balance and the gross total give (within both caps), the points that deduction charges, the floored amount due, and the points earned |
| OrderPricing.TotalNonNegativeWhenCouponWithinHalf | src/services/order.service.ts:230-250 | when the coupon is at most half the pre-discount total, the amount due is not negative |
| OrderPricing.TotalMayBeNegative | src/services/order.service.ts:230-250 | some accepted order has a negative amount due |
| OrderPricing.SampleOrderTotal | src/services/order.service.ts:216-250 | two units at 100 000 cost 200 000 plus 20 000 tax plus the fee: 269 000 |
| OrderPricing.DeductionExceedsPointsCharged | src/services/order.service.ts:237-245 | 200 points on a 269 000 order deduct 134 500 but are charged as 134 points |
| OrderPricing.OptOutBalanceAsWritten | src/services/order.service.ts:207-253 | with no points read, the rewrite leaves just the points earned, which differs from the rewrite from the stored balance |
| OrderPricing.Rewrite | src/services/order.service.ts:252-255 | the balance `$set` from a base less the points charged plus those earned; it is at least the points earned when no more than the base is charged |
| OrderPricing.NewBalanceKeepsPoints | src/services/order.service.ts:237-255 | redeeming from a stored balance charges between 0 and that balance, so the new balance is at least the points earned |
| OrderService.ItemIssue | src/services/order.service.ts:114-143 | a line stops the loop as an unavailable variant exactly when its variant is missing or inactive, as short stock exactly when it is active but holds less than the line's quantity, and passes exactly when it is active with enough stock |
| OrderService.FirstIssue | src/services/order.service.ts:114-143 | the loop's error is always one of the per-line errors |
| OrderService.FirstIssueSticks | src/services/order.service.ts:114-143 | once a prefix of the lines has failed, later lines do not change the error |
| OrderService.FirstIssueIsFirst | src/services/order.service.ts:114-143 | the loop passes if and only if no line has an issue; otherwise the error is that of a line whose predecessors are all clean |
| OrderService.Refresh | src/services/order.service.ts:124-135 | for a listed variant, a corrected line carries the live price, discount and original price; every other field is kept, and an unlisted line is left as it is |
| OrderService.RefreshAll | src/services/order.service.ts:114-143 | every line is corrected, in place and in order |
| OrderService.Stale | src/services/order.service.ts:124-133 | (no contract of its own) a listed line whose cached price or discount differs from the live variant |
| OrderService.AnyStale | src/services/order.service.ts:124-146 | (no contract of its own) the price-change flag: some line is stale; ValidateItems sets its flag exactly to it |
| OrderService.ValidateItems | src/services/order.service.ts:111-143 | the loop's error is the first line's issue; when it passes, the lines are the corrected ones and the change flag is set if and only if some line was stale |
| OrderService.CheckCoupon | src/services/order.service.ts:169-205 | with no code there is no coupon; a code must name an active coupon (else 'Invalid coupon code') under its usage limit (else 'Coupon usage limit has been reached') |
| OrderService.PointsRead | src/services/order.service.ts:207-213 | a signed-in user who redeems (the default) has their stored balance read; for everyone else, and for an unknown user, the points read are 0 |
| OrderService.CouponAmount | src/services/order.service.ts:204 | the deduction is the coupon's flat amount, or 0 without a coupon |
| OrderService.ResolveItems | src/services/order.service.ts:44-72 | (no contract of its own) the signed-in user's indexed cart, 'Cart is empty' when there is none, or else the inline items |
| OrderService.NoneListed | src/services/order.service.ts:75-104 | (no contract of its own) the search for the lines' active variants finds nothing, which is 'Products not found' |
| OrderService.Prepare | src/services/order.service.ts:44-262 | (no contract of its own) every check before the first write, in the code's order; PassedChecks, IssueBeatsPriceChange, StaleLineAborts and NoLinesNotFound state its properties |
| OrderService.PassedChecks | src/services/order.service.ts:44-262 | an order that passes the checks has at least one line, each an active variant at its live price and discount with enough stock; its coupon is active and under its limit; its total covers the coupon |
| OrderService.IssueBeatsPriceChange | src/services/order.service.ts:114-167 | the first unavailable or short line decides the error, even when an earlier line was stale |
| OrderService.StaleLineAborts | src/services/order.service.ts:124-167 | with every line available, any stale price or discount aborts with 'Product information has changed' |
| OrderService.NoLinesNotFound | src/services/order.service.ts:74-104 | an existing but empty cart, or no inline items, fails with 'Products not found' |
| OrderService.CorrectedCarts | src/services/order.service.ts:146-167 | after a price change only the signed-in user's stored cart changes, to its indexed lines corrected |
| OrderService.NewAccount | src/services/order.service.ts:270-280 | a guest's account has the guest's e-mail and name and no loyalty points |
| OrderService.SignedUp | src/services/order.service.ts:259-292 | (no contract of its own) the users after a guest checkout; SignUpKeepsAccounts states its properties |
| OrderService.SignUpKeepsAccounts | src/services/order.service.ts:264-290 | signup adds at most the buyer's account, with no points, and every existing account stays as it was |
| OrderService.ResolveBuyer | src/services/order.service.ts:257-292 | the buyer is the signed-in user, else a user with the guest's email, else a newly signed-up account; only a new account changes the users |
| OrderService.DrainKeepsStockNonNegative | src/services/order.service.ts:334-358 | conditional decrements never make stock negative |
| OrderService.DrainSubtractsOrdered | src/services/order.service.ts:334-358 | when every decrement applies, each variant loses exactly the quantity ordered of it, and nothing else changes |
| OrderService.DrainFailureKeepsEarlier | src/services/order.service.ts:334-358 | on the first decrement that fails, the decrements of the earlier lines stay applied |
| OrderService.Drain | src/services/order.service.ts:334-358 | (no contract of its own) the conditional decrements, one line at a time, up to the first whose filter fails; the three lemmas before it state its properties |
| OrderService.DecrementStock | src/services/order.service.ts:334-358 | the loop leaves the stock and the failing position that the line-by-line decrement gives; nothing else changes |
| OrderService.InitialPaymentStatus | src/services/order.service.ts:299-302 | BANK_TRANSFER is PAID and CASH is PENDING |
| OrderService.NewOrder | src/services/order.service.ts:305-318 | the order is the buyer's, with the request's name, e-mail, coupon code and address, the checked lines, the quoted total, coupon discount and loyalty points used and earned, status PENDING, no tracking yet, and the payment status its method gives |
| OrderService.Respond | src/services/order.service.ts:449-458 | the response shows the order under its id with every field as stored, except that each line is projected without original_price |
| OrderService.Credited | src/services/order.service.ts:378-388 | only the buyer's balance is rewritten, to the points read at the start less those charged plus those earned; every other user is untouched |
| OrderService.RewriteLosesUnreadBalance | src/services/order.service.ts:378-388 | for an opted-out user or a guest matched by e-mail the rewrite leaves earned less charged points, which differs from the corrected balance exactly when the stored balance is not 0 |
| OrderService.Redeem | src/services/order.service.ts:402-413 | redemption raises the coupon's usage count by exactly 1 and appends the order id to its orders; other coupons are untouched |
| OrderService.RedeemKeepsLimit | src/services/order.service.ts:200-202 | a coupon under its limit when checked is at most at its limit after the redemption |
| OrderService.RunChecks | src/services/order.service.ts:44-262 | the checks give exactly what the pure description gives; the only write is the corrected cart after a price change |
| OrderService.Finish | src/services/order.service.ts:371-417 | the signed-in user's cart is deleted, only the buyer's balance is rewritten from the points read at the start, and the coupon is redeemed, or 'Coupon not found' when the store lacks it; stock and orders are untouched |
| OrderService.Commit | src/services/order.service.ts:257-458 | guest signup, then the payment-method check, then the order and the decrements, deleting the order on a failed decrement; then cart deletion, the loyalty rewrite from the points read at the start, and the coupon redemption, or 'Coupon not found'; the response projects the lines |
| OrderService.CreateOrder | src/services/order.service.ts:14-459 | a failed check writes nothing except the corrected cart; afterwards, by case, the complete new store: signup alone, then a kept order and stock, or a deleted order with earlier decrements kept; a placed order is returned with its lines projected |
| OrderService.Transition | src/services/order.service.ts:662-687 | the status is set and one tracking entry is appended; the order is PAID if and only if it was, or it is a cash order marked delivered; nothing else changes |
| OrderService.ReplayAppendsTracking | src/services/order.service.ts:679-684 | after any run of changes, the tracking log is the old log followed by those changes; the status is the last one set, and the lines, total, owner and method never change |
| OrderService.ReplayPaidIff | src/services/order.service.ts:663-666 | the order ends PAID if and only if it was already PAID, or it is a cash order marked DELIVERED at some point |
| OrderService.Replay | src/services/order.service.ts:649-687 | (no contract of its own) a run of status changes applied in turn; ReplayAppendsTracking and ReplayPaidIff state its properties |
| OrderService.UpdateOrderStatus | src/services/order.service.ts:649-706 | an invalid status is rejected first, then an unknown order; otherwise exactly that order becomes its transition, and nothing else changes |
| Paging.PageOffset | src/services/order.service.ts:468 | the page's offset is non-negative for page 1 and up, and the next page starts one limit later |
| Paging.TotalPages | src/services/order.service.ts:513 | the page count is finite if and only if the limit is non-zero |
| Paging.TotalPagesIsLeast | src/services/review.service.ts:312 | with a positive limit, the page count is the least number of pages that holds all hits |
| Paging.Window | src/services/order.service.ts:468-478 | a page holds at most limit hits, and a full page is exactly the hits from the offset on |
| Paging.PagesArePrefix | src/services/order.service.ts:468-478 | the first n pages together are the first n times limit hits |
| Paging.PagesCoverAllHits | src/services/order.service.ts:468-513 | reading pages 1 to the page count yields every hit exactly once, in order |
| ReviewService.ReviewsOf | src/services/review.service.ts:92-94 | a variant's reviews are reviews of that variant, and no more than all of the reviews |
| ReviewService.ReviewsOfAppend | src/services/review.service.ts:92-94 | the reviews of a variant in two runs of reviews are those of each run, in order |
| ReviewService.ReviewsOfMembers | src/services/review.service.ts:92-94 | a review is among a variant's reviews exactly when it is a stored review of that variant |
| ReviewService.CountStars | src/services/review.service.ts:96-102 | a bucket counts no more reviews than there are |
| ReviewService.CountStarsAppend | src/services/review.service.ts:96-102 | a bucket's count over two runs is the sum of its counts over each |
| ReviewService.BucketsWithinReviews | src/services/review.service.ts:104-109 | the five buckets together count at most the number of reviews |
| ReviewService.BucketsOf | src/services/review.service.ts:96-102 | (no contract of its own) the five counts of ratings 1 to 5; BucketsWithinReviews bounds them |
| ReviewService.Average | src/services/review.service.ts:111-117 | (no contract of its own) the star-weighted sum over the rated count, or over 1 with none rated; AverageInRange bounds it |
| ReviewService.AverageInRange | src/services/review.service.ts:111-117 | with no rated review the average is 0; otherwise it lies between 1 and 5 |
| ReviewService.Restat | src/services/review.service.ts:120-124 | only the named variant is updated, and only if it exists, with exactly the given statistics |
| ReviewService.StatsOf | src/services/review.service.ts:90-124 | (no contract of its own) the statistics recomputed from a variant's reviews; StatsInSync compares every variant with them |
| ReviewService.OtherVariantsUnaffected | src/services/review.service.ts:92-94 | adding or removing a review of one variant leaves every other variant's reviews as they were |
| ReviewService.RestatKeepsSync | src/services/review.service.ts:90-136 | recomputing the touched variant after one review is added or removed keeps every variant's statistics equal to its reviews |
| ReviewService.AppendKeepsSync | src/services/review.service.ts:52-58 | appending a review and recomputing its variant keeps every variant's statistics in sync |
| ReviewService.NewReview | src/services/review.service.ts:31-47 | the stored review has a rating if and only if a user is given with a non-zero rating, and the rating is then the rounding of the input |
| ReviewService.Record | src/services/review.service.ts:49-58 | the review is appended and its variant's statistics are recomputed; statistics in sync stay in sync |
| ReviewService.AddReview | src/services/review.service.ts:10-87 | an unknown or inactive variant fails, then a rating without a user fails, both without a write; otherwise the review is appended, its variant is recomputed, and statistics stay in sync |
| ReviewService.FindReview | src/services/review.service.ts:140-143 | finds the position of a review with that id, or none if and only if no review has it |
| ReviewService.DeleteReview | src/services/review.service.ts:138-164 | an unknown review fails without a write; otherwise exactly that review is removed and its variant is recomputed over the rest; statistics stay in sync |
| ReviewService.DeleteLowersCounts | src/services/review.service.ts:145-153 | deleting a review lowers its variant's review count by one, and its bucket by one if it was rated |
| ReviewService.ReviewsSummary | src/services/review.service.ts:177-314 | the listing fails if and only if the variant is inactive or missing; it echoes total, page and limit, reports the stored average, count and distribution, the sum of the stored buckets with missing ones read as 0, and the page count |
| ReviewService.Bucket | src/services/review.service.ts:297-302 | a stored bucket reads as its count, and a missing one as 0 |
| ReviewService.ReviewsWithRating | src/services/review.service.ts:297-302 | (no contract of its own) the five buckets summed, each read through Bucket |
| ReviewService.SummaryAgreesWithReviews | src/services/review.service.ts:289-312 | for a variant in sync, the listing counts as rated exactly the reviews in some bucket, never more than the review count, and reports their average |
| OrderValidation.DecimalString | src/validation/order.validation.ts:97-107 | helper, not in the code: the decimal rendering of a number is a non-empty digit string; used only to exhibit query strings the page check accepts |
| OrderValidation.DecimalRoundTrip | src/validation/order.validation.ts:97-107 | helper, not in the code: reading back a rendered number gives the number |
| OrderValidation.CoerceNumber | src/validation/order.validation.ts:34-45 | numeric coercion keeps numbers, reads digit strings as their value, and rejects objects and arrays |
| OrderValidation.RepeatClassIff | src/validation/order.validation.ts:18 | the fixed-length character-class matcher accepts exactly the strings of that length made of class characters |
| OrderValidation.CouponCodeShape | src/validation/order.validation.ts:16-19 | a coupon code is exactly 5 characters, each A–Z or 0–9 |
| OrderValidation.OrderIdShape | src/validation/order.validation.ts:81-84 | a search order id is exactly 24 hexadecimal characters of either case |
| OrderValidation.ParseItem | src/validation/order.validation.ts:23-49 | a valid item has an integer quantity of at least 1, a non-negative price and a discount in [0, 0.5] that defaults to 0 |
| OrderValidation.ItemValid | src/validation/order.validation.ts:23-49 | (no contract of its own) the item schema: non-empty id and name, string attributes, integer quantity of at least 1, non-negative price, optional discount in [0, 0.5], and an images object with a non-empty url |
| OrderValidation.CreateOrderBodyValid | src/validation/order.validation.ts:6-59 | (no contract of its own) the strict createOrder schema; PaymentMethodFieldIff, CreateOrderRejectsUnknownKey, ParseItem and ValidItemsPriceNonNegative state its properties |
| OrderValidation.ValidItemsPriceNonNegative | src/validation/order.validation.ts:34-45 | validated items always price at a non-negative subtotal |
| OrderValidation.PaymentMethodFieldIff | src/validation/order.validation.ts:51-53 | the payment-method field accepts exactly the names of CASH and BANK_TRANSFER |
| OrderValidation.CreateOrderRejectsUnknownKey | src/validation/order.validation.ts:57 | a createOrder body with a key outside the schema is rejected |
| OrderValidation.UpdateStatusBodyIff | src/validation/order.validation.ts:62-75 | the status body is valid if and only if it is exactly the name of one of the four statuses |
| OrderValidation.UpdateStatusBodyValid | src/validation/order.validation.ts:62-75 | (no contract of its own) the strict status body; UpdateStatusBodyIff characterises it |
| OrderValidation.SearchOrderRejectsUnknownKey | src/validation/order.validation.ts:109 | a search query with a key outside the schema is rejected |
| OrderValidation.SearchOrderQueryValid | src/validation/order.validation.ts:77-111 | (no contract of its own) the strict search query: optional 24-hex order id, enum filters, dates, and coerced page and limit; SearchOrderRejectsUnknownKey and ValidQueryPages state its properties |
| OrderValidation.PageAndLimit | src/validation/order.validation.ts:97-107 | (no contract of its own) the coerced page and limit, with the listings' defaults 1 and 10 when absent |
| OrderValidation.ValidQueryPages | src/validation/order.validation.ts:97-107 | a valid query has page at least 1 and limit in [1, 100], so its offset is non-negative and its page count finite |
| OrderValidation.DecimalPageAccepted | src/validation/order.validation.ts:97-101 | a plain decimal page number of 1 or more is accepted |

## Left out

- Search-index propagation. Every index update, re-index and delete that mirrors a store write is left out; the model has one store.
- Reads from the search index. These are parameters (`IndexView`, `catalog`, `index`) that the model does not keep in step with the store. `clearCart` is the exception: its index lookup is collapsed into the store.
- Search result size limits. A search that could cap its hits (the variant lookup in createOrder, for example) is modelled as returning every match.
- Signup internals. `authService.signup`, the random password and the account e-mail are left out. A guest's new account is `NewAccount` under the fresh id `newUserId`.
- The confirmation and account mail queue. These are notifications only.
- The user lookup that decorates the addReview and review-listing responses. It is a read of user profiles that changes nothing.
- The page of reviews or orders a listing returns. Their search queries are left out; `Paging.Window` models only the from/size slice.
- The query building of searchOrder, searchOrdersByOrderIdOrItemName and the getOrders readers. Only their paging arithmetic is modelled.
- src/services/statistic.service.ts, src/services/upload.service.ts, src/helpers/syncElasticsearch.ts and src/config/. These are aggregation queries, file uploads, index rebuild and startup wiring. They are not part of this model.
- Store failures that cannot happen in a sequential store: 'Failed to create order', 'Error updating order', 'Failed to delete review', 'Failed to clear cart', 'Failed to create or update cart', and the index-delete failure in deleteReview.
- The fallback response of the review listing when its search fails. That is search behaviour.
- Concurrency. Two sagas racing on the same stock or coupon are out of scope. The conditional decrement is a guarded update.
- IEEE floating point. Money is exact `real`.
- Store defaults. In the code, the order's initial status (PENDING) and its empty tracking log are defaults of the order schema, which is not part of this model. `NewOrder` writes them explicitly.
- The store ids. The ids of a new order, a new review and a new user are parameters. The store must not already hold them.
- The decrement's filter. `findByIdAndUpdate` takes an id and wraps it as `{_id: id}`, but the code passes it the whole filter object `{_id, quantity: {$gte: quantity}}` (src/services/order.service.ts:337-341). Whether Mongoose then still applies the `$gte` stock guard is not visible in the code; the model takes the decrement as conditional on that guard, and `OrderService.DrainKeepsStockNonNegative` relies on it.
- OrderValidation.CoerceNumber: does not model JavaScript `Number()` on signed, fractional, exponent, hexadecimal or whitespace-padded strings, or on arrays. Such inputs are rejected here rather than coerced.
- OrderValidation.CreateOrderBodyValid and OrderValidation.SearchOrderQueryValid: the e-mail and calendar-date format checks are library validators, so they are taken as the parameters `isEmail` and `isDate`.
- OrderService.Commit: writes the loyalty balance as the code does, `OrderPricing.Rewrite` from the points read, not from the stored balance, so the saga's contract shows the lost balance described under Findings rather than the evidently intended one.
- ReviewService.CountStars: its own contract only bounds the count; that it counts exactly the reviews with that rating is its definition, used through CountStarsAppend and DeleteLowersCounts.
- OrderService.OrderRequest: it is the service's argument, not the validated body. The `name` key of the body is passed to the service as `user_name`; that routing is not part of this model.

## Findings

`Commit` and `CreateOrder` write the balance as the code does (`OrderService.Credited`). `OrderService.RewriteLosesUnreadBalance` shows, for the saga's own rewrite, the balance that is lost. `OrderPricing.OptOutBalanceAsWritten` shows the same on the bare arithmetic. The corrected rewrite, `OrderPricing.Rewrite` from the stored balance, is proved by `OrderPricing.NewBalanceKeepsPoints` never to charge more than the stored balance and never to lose the points earned.

| source | as written | input that shows it | evidently intended | confidence | as-written member | corrected member |
|---|---|---|---|---|---|---|
| src/services/order.service.ts:207-213, 252-253, 378-388 | the new balance is `currentLoyaltyPoints - used + earned`, but `currentLoyaltyPoints` is read only for a signed-in user using points, and is 0 otherwise | a signed-in user with 500 points orders with `using_loyalty_points: false`, or a guest checks out with the e-mail of a user holding 500 points: the balance becomes just the points earned | the stored balance, less the points charged, plus the points earned | not executed | OrderService.RewriteLosesUnreadBalance | OrderPricing.NewBalanceKeepsPoints |
