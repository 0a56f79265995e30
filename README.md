# Marketplace order, inventory and account rules in Dafny

This project models the rule-bearing core of a small marketplace. It has two halves.

**The Express/Mongoose server.**
- Documents:
  - orders: a status history, pricing, and cancel, return and exchange windows;
  - products: stock, stock status, markdown, one review per user, and the rating summary;
  - users: the login lockout, and token and OTP expiry.
- The order, payment, product and user route handlers.
- The authentication middleware: `protect`, `authorize`, `optionalAuth`, the verification gates and the sensitive-operation rate limiter.

**The React client.**
- The form validators.
- The in-memory order list with its tracking timeline.
- The favourites list.
- The catalogue page's category list, filter and sort.

How the model is built:
- A Mongoose document that a handler loads and changes is a class: `OrderDocument`, `ProductDocument` or `UserDocument`.
  - Its fields are updated in place by methods with `modifies this`.
  - `Value()` reads the document back as the datatype value that `save()` stores.
- The database is the class `Store.Db`, which holds a map of orders and a map of products.
- Each route handler has three parts:
  - a pure function `XSpec(state, inputs)`, which returns the new state and the response;
  - a lemma stating what that response and state are;
  - a method over `Db` whose `ensures` ties its effect to the function.
- Loops in the source are `while` loops with invariants in the model. These are:
  - the per-line stock loop of order creation;
  - the stock restore loop;
  - the reorder availability loop;
  - the client's status update and favourite removal.
- Pure code is functions and lemmas:
  - validators;
  - eligibility predicates;
  - filters and sort orders;
  - the tracking timeline.
- External effects are parameters of the operations that use them. These are:
  - the clock (`now`, in milliseconds);
  - `Math.random`;
  - the JWT check (`verify`);
  - HMAC-SHA256 (`hmac`);
  - SHA-256 (`sha256`);
  - the phone-number check (`isMobilePhone`);
  - Mongo's `$text` match (`textMatch`);
  - the ids the payment gateway returns.
- Money is exact `real` arithmetic. `Math.round` is `Common.Round`, which rounds halves upwards. `Math.ceil` is `Common.Ceil`.
- Mongo `sort` is an insertion sort (`Sorting.SortBy`) under a total preorder. `skip/limit` is `Sorting.Window`.
  - `OrderRoutes.IsPage` says which documents a page holds: the window of the sorted matches from `(page - 1) * limit`.
- String lengths are counted three ways:
  - the model's `|s|` counts Unicode characters;
  - the client's `.length` counts UTF-16 code units (`Text.Utf16Length`), two for a character above U+FFFF;
  - the server's validator.js `isLength` counts characters other than the variation selectors U+FE0E and U+FE0F (`Text.ValidatorLength`).
  - On text with neither, the three agree (`Text.LengthsAgree`). Five emoji are 10 to the client's review form and 5 to the server, so the form accepts a comment the server refuses (`ReviewAgreement.AstralCommentRefusedByServer`).

Two handlers store values outside the schema's enums. The model keeps both as written and shows the gap:
- Reorder stores the payment method `'pending'` (server/routes/orders.js:507). That value is not in the method enum (server/models/Order.js:117).
  - The model stores it as `PaymentMethod.Unselected`.
  - `OrderRoutes.ReorderOutcomeFacts` proves that it lies outside `InMethodEnum`.
- Refund appends the status `'refunded'` (server/routes/payments.js:267). That value is not in the status enum (server/models/Order.js:136).
  - The model stores it as `OrderStatus.Refunded`.
  - `PaymentRoutes.RefundOutcome` proves that it lies outside `InStatusEnum`.
  - `PaymentRoutes.RefundAsWrittenSpec` models the refused save: the gateway refund stands, nothing is stored, and the caller gets a server error. The payment stays 'completed', so the same order can be refunded again (see "Findings").

The Mongoose validators that run on `save()` would reject both documents. For the refund that rejection is modelled as above. For the reorder the missing order number already stops the create (see "Findings").

Some handlers cannot do what they evidently intend. The model keeps each one as written beside the intended version, and the rest of the model uses the intended one (see "Findings"):
- server/routes/payments.js never imports `authorize` (used at line 220) or `Product` (used at line 203).
  - The module throws while loading, so none of the five payment routes is served.
  - With `authorize` imported, a recorded payment failure would still throw at its first item, after saving the failed order and before restoring any stock.
- `orderNumber` is required (server/models/Order.js:37-41), and only the pre-save hook assigns it (lines 236-243).
  - Mongoose runs the validators before that hook, so `Order.create` is refused.
  - Order creation is refused only after the line loop has already taken the stock (server/routes/orders.js:69).
  - Reorder is refused too.

## Model

| member | source | states |
|---|---|---|
| OrderModel.WithStatus | server/models/Order.js:245-255 | one entry (status, now, note, updatedBy) is appended; earlier entries and every other field are unchanged; the status is the last entry's |
| OrderModel.HistoryOnlyGrows | server/models/Order.js:245-255 | any run of `addStatusHistory` calls only extends the history by exactly its entries, and the last one sets the status |
| OrderModel.OrderDocument.AddStatusHistory | server/models/Order.js:245-255 | the document becomes `WithStatus` of its old value |
| OrderModel.OrderDocument.CalculateTotal | server/models/Order.js:257-263 | subtotal becomes the sum of price × quantity; total = subtotal + shipping + tax − discount, which is returned; shipping, tax, discount and every other field are unchanged |
| OrderModel.DaysWithin | server/models/Order.js:271-285 | comparing the fractional day count with n is comparing the elapsed milliseconds with n whole days |
| OrderModel.ReturnWindow | server/models/Order.js:271-277 | `canBeReturned` iff delivered and at most 30 days since delivery (`actualDelivery`, else `createdAt`), inclusive at the boundary |
| OrderModel.ExchangeWindow | server/models/Order.js:279-285 | `canBeExchanged` iff delivered and at most 15 days since delivery, inclusive |
| OrderModel.ExchangeableImpliesReturnable | server/models/Order.js:271-285 | at any instant an exchangeable order is returnable |
| OrderModel.CancelAndReturnExclusive | server/models/Order.js:265-277 | no order is both cancellable (pending, confirmed, processing) and returnable |
| OrderModel.PaddedDigits | server/models/Order.js:238-239 | `(count+1)` padded to four characters is all digits and reads back as the same number |
| OrderModel.OrderNumberSuffix | server/models/Order.js:236-243 | an order number is "ORD-", the timestamp, "-", then `count + 1` padded with zeros to at least four characters |
| OrderModel.OrderNumberInjective | server/models/Order.js:236-243 | two order numbers are equal only when both timestamp and count agree |
| OrderModel.OrderDocument.AssignOrderNumber | server/models/Order.js:236-243 | only a new document without a number gets one, `OrderNumber(now, count)`; nothing else changes |
| Store.StatusCode | server/routes/orders.js:184-212 | every error maps to one HTTP code; 404, 403 and 401 are exactly not-found, not-permitted and not-authenticated |
| Store.RestockAddsReserved | server/routes/orders.js:265-269 | the restore loop adds back exactly what the items hold of each existing product; no product appears or disappears; only stock changes |
| Store.ReservedNonNegative | server/models/Order.js:9-13 | items with quantity at least 1 never hold a negative amount of a product |
| Store.ReservedPositive | server/models/Order.js:9-13 | items with quantity at least 1, one of which names a product, hold at least one unit of it |
| Store.RestockKeepsStockNonNegative | server/routes/payments.js:202-206 | restoring items with positive quantities keeps every stock non-negative |
| ProductModel.AdjustedStock | server/models/Product.js:278-287 | on 'subtract' the result is max(0, stock − q); any other operation adds q |
| ProductModel.StockNeverNegative | server/models/Product.js:278-287 | non-negative stock stays non-negative under any update |
| ProductModel.SubtractThenAddRestores | server/models/Product.js:278-287 | for q ≤ stock, subtracting then adding q restores the stock |
| ProductModel.StockStatusOf | server/models/Product.js:239-244 | out-of-stock iff stock = 0, low-stock iff non-zero and at most the threshold, in-stock otherwise |
| ProductModel.StockStatusBands | server/models/Product.js:239-244 | for non-negative stock the three classes are 0, 1..threshold and above the threshold |
| ProductModel.DiscountPercentage | server/models/Product.js:231-237 | with a markdown over a non-negative price, a whole number within 0..100; without one, `discount` or 0 |
| ProductModel.MarkdownBounds | server/models/Product.js:233 | the rounded markdown percentage lies within 0..100 |
| ProductModel.FindReview | server/models/Product.js:258 | the index of the first review by the user, or none when no review is theirs |
| ProductModel.UpsertReview | server/models/Product.js:256-276 | an existing review of the author is overwritten in place (length kept); otherwise one review is appended; other users' reviews are kept; one review per user is preserved |
| ProductModel.UpsertLeavesOneReview | server/models/Product.js:256-276 | after the upsert the author has exactly one review, holding the new rating, comment and images |
| ProductModel.UpsertKeepsRatingsInRange | server/models/Product.js:9-14 | a rating in 1..5 keeps every stored rating in 1..5 |
| ProductModel.RatingSumBounds | server/models/Product.js:246-254 | ratings in 1..5 sum to between n and 5n |
| ProductModel.RecomputedRating | server/models/Product.js:246-254 | no reviews leave the summary unchanged; otherwise count = number of reviews and average × count = the rating sum |
| ProductModel.Saved | server/models/Product.js:246-254 | saving changes only the rating summary, and changes nothing when there are no reviews |
| ProductModel.SavedIdempotent | server/models/Product.js:246-254 | saving twice is saving once, even with stock changed in between |
| ProductModel.AverageInRange | server/models/Product.js:246-254 | with ratings in 1..5 the average is within 1..5 |
| ProductModel.ProductDocument.UpdateStock | server/models/Product.js:278-287 | stock becomes `AdjustedStock` and the stock timestamp `now`; nothing else changes |
| ProductModel.ProductDocument.IncrementViews | server/models/Product.js:289-292 | exactly one more view; nothing else changes |
| ProductModel.ProductDocument.AddReview | server/models/Product.js:256-276 | reviews become `UpsertReview` of the old reviews; nothing else changes |
| ProductModel.ProductDocument.PreSave | server/models/Product.js:246-254 | the document becomes `Saved` of its old value |
| OrderRoutes.StockUpdateThenSave | server/models/Product.js:278-285 | a stock update, saved again, is still a stock update of the original product |
| OrderRoutes.ReserveLineStep | server/routes/orders.js:41-70 | one pass of the line loop keeps: only stock changed, items follow the lines at their prices, stock went down by exactly what the items hold |
| OrderRoutes.ReserveLinesFacts | server/routes/orders.js:41-70 | completed or stopped, the loop changed only stock, built items for a prefix of the lines at snapshot prices, and took exactly their quantities from stock |
| OrderRoutes.ReserveFailureSticks | server/routes/orders.js:41-70 | the loop returns at the first failing line; later lines are never looked at |
| OrderRoutes.ReserveFailureReason | server/routes/orders.js:43-57 | the failing line's product is missing or inactive, or has less stock than the quantity at that point |
| OrderRoutes.ReserveKeepsStockNonNegative | server/routes/orders.js:51-66 | checked lines never drive stock below zero |
| OrderRoutes.PriceOrder | server/routes/orders.js:72-84 | the pricing satisfies total = subtotal + shipping + tax − discount with the given subtotal and discount |
| OrderRoutes.PricingRule | server/routes/orders.js:72-84 | shipping is 0 exactly from 500 up and 99 otherwise; total = 1.18 × subtotal + shipping − discount |
| OrderRoutes.WorkedExample | server/routes/orders.js:58-84 | two items at 100 and one at 50 give 250 / 99 / 45 / 394 |
| OrderRoutes.FreeShippingExample | server/routes/orders.js:72-84 | 600 ships free with 108 tax, 708 in all |
| OrderRoutes.CreatedOrderShape | server/routes/orders.js:86-113 | a created order is stored under its id, pending with one 'pending' entry, unpaid whatever the method, numbered from the order count, items following the lines, priced by the rule, due in 7 days; stock went down by exactly its items |
| OrderRoutes.CreateFailureKeepsEarlierLines | server/routes/orders.js:41-70 | a failed create stores no order but keeps the stock taken for the lines before the failing one |
| OrderRoutes.CreateKeepsValid | server/routes/orders.js:13-143 | creating keeps stock non-negative, quantities positive and every status equal to its last history entry |
| OrderRoutes.CreateKeepsOtherOrders | server/routes/orders.js:87-113 | under a fresh id, every stored order stays as it was, and a created order adds exactly one document |
| OrderRoutes.ReserveOne | server/routes/orders.js:58-69 | one line: the item snapshots the product's price; stock is subtracted and the product saved; orders are untouched |
| OrderRoutes.ReserveStock | server/routes/orders.js:38-70 | the loop's products, items and failure are exactly `ReserveLines`, and the accumulated subtotal is the line total of the items |
| OrderRoutes.CreateOrder | server/routes/orders.js:13-143 | the handler's new database and response are those of `CreateOrderSpec` |
| OrderRoutes.CreateOrderAsWrittenLosesStock | server/routes/orders.js:40-90 | as written, where the intended handler creates an order, no order is stored and the answer is a server error, yet the stock is taken exactly as for the order, so each product a line names ends with less stock |
| OrderRoutes.AccountedStockFalls | server/routes/orders.js:40-70 | stock taken for items of positive quantity is strictly lower for every product an item names |
| OrderRoutes.CreateOrderAsWrittenElsewhereAlike | server/routes/orders.js:13-90 | outside the success path the as-written and the intended create handler answer alike |
| OrderRoutes.PageParam | server/routes/orders.js:150-151 | `parseInt(q) \|\| fallback`: a non-zero value is kept; a missing one or 0 gives the fallback |
| OrderRoutes.Paginate | server/routes/orders.js:150-172 | a page exists iff the skip is non-negative; it is `IsPage`: the window of the sorted matches from `(page - 1) * limit`, at most `limit` of them, with count = the number listed, total = the number of matches and pages = `ceil(total / limit)` |
| OrderRoutes.PagesFollowOn | server/routes/orders.js:152-164 | page `p + 1` starts where page `p` ends: together they are the next `2 * limit` sorted matches, no match is on both, and a short page is followed by an empty one |
| OrderRoutes.PaginateSorted | server/routes/orders.js:160-164 | a page of a list sorted by a total preorder keeps that order |
| OrderRoutes.PagesCoverTotal | server/routes/orders.js:171 | `ceil(total / limit)` is the fewest pages of `limit` that cover every match: they cover it, one fewer would not, and no matches means 0 pages |
| OrderRoutes.UserOrders | server/routes/orders.js:153-158 | exactly the caller's orders of the given status, when one is asked for: no other order, and every matching order as often as it is stored |
| OrderRoutes.ListOrders | server/routes/orders.js:148-180 | refused iff the skip is negative; otherwise the page is `IsPage` of the caller's matching orders sorted newest first, with page and limit from the query (1 and 10 by default); every listed order is the caller's and has the asked status |
| OrderRoutes.ListOrdersNewestFirst | server/routes/orders.js:162 | orders are listed newest first |
| OrderRoutes.ViewOrder | server/routes/orders.js:184-213 | found iff it exists and the caller owns it or is an admin; otherwise 404 for a missing order, else 403 |
| OrderRoutes.TrackOrder | server/routes/orders.js:529-562 | answered exactly when viewing is, with the same error otherwise; reports the order number, status, history and delivery dates, and the `tracking` sub-document's number, carrier and scan history |
| OrderRoutes.CreatedOrderUntracked | server/models/Order.js:151-163 | a just-created order, tracked by its owner or an admin, has no tracking number, no carrier, no scans, and one 'pending' history entry |
| OrderRoutes.CancelOutcome | server/routes/orders.js:217-296 | 404, 403 and 400 in that order, changing nothing; success iff the owner cancels a cancellable order; then the order is cancelled with one more entry and the refund pending, and every product's stock grows by what the order holds of it |
| OrderRoutes.CancelKeepsValid | server/routes/orders.js:217-296 | cancelling keeps the database invariant |
| OrderRoutes.CreateThenCancelRestoresStock | server/routes/orders.js:13-296 | creating an order and cancelling it puts every product's stock back where it was |
| OrderRoutes.RestoreStock | server/routes/orders.js:265-269 | the loop leaves products equal to `Restock` of the old products and orders untouched |
| OrderRoutes.CancelOrder | server/routes/orders.js:217-296 | the handler's effect and response are those of `CancelOrderSpec` |
| OrderRoutes.ReturnOutcome | server/routes/orders.js:300-353 | succeeds iff the owner asks within 30 days of delivery with a reason; records a 'requested' return and the 'returned' status; stock never changes |
| OrderRoutes.ReturnOrder | server/routes/orders.js:300-353 | the handler's effect and response are those of `ReturnOrderSpec` |
| OrderRoutes.ExchangeOutcome | server/routes/orders.js:357-425 | succeeds iff the owner asks within 15 days of delivery for an active product; price difference = new price − subtotal; status 'exchanged' |
| OrderRoutes.ExchangeAllowedImpliesReturnAllowed | server/routes/orders.js:300-425 | a request that may exchange may also return |
| OrderRoutes.ExchangeOrder | server/routes/orders.js:357-425 | the handler's effect and response are those of `ExchangeOrderSpec` |
| OrderRoutes.PartitionFacts | server/routes/orders.js:452-477 | each old item lands in exactly one list; available items are orderable, at today's price, one per orderable item |
| OrderRoutes.SplitAvailable | server/routes/orders.js:452-477 | the loop's two lists are exactly `Partition` of the old items |
| OrderRoutes.ReorderOutcomeFacts | server/routes/orders.js:429-525 | stock never changes; for the owner it fails iff nothing is orderable; the new order holds the orderable items at today's prices, priced with no discount, pending, with the method outside the enum |
| OrderRoutes.ReorderKeepsValid | server/routes/orders.js:429-525 | reordering keeps the database invariant |
| OrderRoutes.ReorderKeepsOriginal | server/routes/orders.js:494-507 | under a fresh id, the copied order and every other stored order stay as they were, and a successful reorder adds exactly one document |
| OrderRoutes.Reorder | server/routes/orders.js:429-525 | the handler's effect and response are those of `ReorderSpec` |
| OrderRoutes.ReorderAsWrittenNeverCreates | server/routes/orders.js:493-511 | as written, a reorder never changes the store and never succeeds; it answers with a server error exactly where the intended one succeeds, and like it otherwise |
| PaymentRoutes.CreatePaymentOrderOutcome | server/routes/payments.js:21-71 | only the owner gets a gateway order (404 otherwise); the amount is the rounded paise; the receipt is the order number; only the gateway order id is stored |
| PaymentRoutes.CreatePaymentOrder | server/routes/payments.js:21-71 | the handler's effect and response are those of `CreatePaymentOrderSpec` |
| PaymentRoutes.SignedPayload | server/routes/payments.js:99-103 | the signed string is the gateway order id, '\|', then the payment id |
| PaymentRoutes.ForgedSignatureChangesNothing | server/routes/payments.js:99-110 | a signature that does not match is refused and nothing changes, whatever is stored |
| PaymentRoutes.VerifiedPaymentOutcome | server/routes/payments.js:113-160 | a verified payment is completed with its id, signature and time; 'confirmed' is appended; items and pricing are kept; an invoice is recorded only when one was made |
| PaymentRoutes.VerifyPayment | server/routes/payments.js:75-170 | the handler's effect and response are those of `VerifyPaymentSpec` |
| PaymentRoutes.LoadRouterFacts | server/routes/payments.js:21-331 | a router module loads iff every name its route declarations evaluate is bound, and then serves every declared path in order; otherwise it stops at an unbound name some declaration uses |
| PaymentRoutes.RouterAsWrittenFailsToLoad | server/routes/payments.js:220 | as written, loading stops with a ReferenceError on `authorize`, so no payment route is served |
| PaymentRoutes.CorrectedRouterLoads | server/routes/payments.js:220 | with `authorize` imported, the module serves /create-order, /verify, /failure, /refund and /history |
| PaymentRoutes.PaymentFailureOutcome | server/routes/payments.js:174-216 | with `Product` imported: recorded iff an error is given for an owned order; payment failed, status back to pending with one more entry, stock restored by the order's items |
| PaymentRoutes.PaymentFailureAsWrittenSkipsRestock | server/routes/payments.js:198-213 | as written, the failed order is saved as intended, no stock changes, and an order with items gets a server error instead of the success answer; other requests are answered alike |
| PaymentRoutes.PaymentFailureAsWrittenLosesStock | server/routes/payments.js:198-206 | on a well-formed store, a product an order item names keeps its old stock as written, while the intended handler raises it |
| PaymentRoutes.PaymentFailureKeepsValid | server/routes/payments.js:174-216 | recording a failure keeps the database invariant |
| PaymentRoutes.RecordPaymentFailure | server/routes/payments.js:174-216 | the handler with `Product` imported: its effect and response are those of `PaymentFailureSpec` |
| PaymentRoutes.RefundOutcome | server/routes/payments.js:220-294 | with `authorize` imported: admin only; needs a completed payment; full iff the amount reaches the total, else partial; refund id, amount and reason recorded; status 'refunded' lies outside the enum |
| PaymentRoutes.RefundOnlyOnce | server/routes/payments.js:245-267 | with 'refunded' accepted by the save: a refunded order can never be refunded again |
| PaymentRoutes.RefundAsWrittenRepeats | server/routes/payments.js:245-267 | as written, the save of 'refunded' is refused after the gateway refund: nothing is stored, the answer is 500, and a second request for the same order is refunded by the gateway again, where the intended handler answers 400 |
| PaymentRoutes.Refund | server/routes/payments.js:220-294 | the handler with `authorize` imported: its effect and response are those of `RefundSpec` |
| PaymentRoutes.PaidNoEarlierIsPreorder | server/routes/payments.js:309 | the paidAt-descending order is a total preorder |
| PaymentRoutes.SettledOrders | server/routes/payments.js:303-306 | exactly the caller's orders whose payment is completed or (partially) refunded: no other order, and every such order as often as it is stored |
| PaymentRoutes.PaymentHistory | server/routes/payments.js:298-330 | refused iff the skip is negative; otherwise the page is `IsPage` of the caller's settled orders sorted by latest payment, with page and limit from the query (1 and 10 by default); every listed order is the caller's and settled |
| PaymentRoutes.PaymentHistoryLatestFirst | server/routes/payments.js:309 | the history lists later payments first |
| ProductRoutes.BuildFilter | server/routes/products.js:33-68 | the filter always requires an active product |
| ProductRoutes.FilterConditions | server/routes/products.js:33-68 | with no parameters exactly the active products match; a match honours each supplied price bound and `inStock=true` |
| ProductRoutes.TagsFilter | server/routes/products.js:65-68 | the tags parameter is split on ',' and a match carries at least one of the tags |
| ProductRoutes.SortKeyOf | server/routes/products.js:71-90 | each of the five sort names maps to its own key; anything else is featured-then-newest |
| ProductRoutes.BeforeIsTotalPreorder | server/routes/products.js:71-90 | every sort record orders all products consistently |
| ProductRoutes.MatchingProducts | server/routes/products.js:92 | only documents the filter admits, and each admitted document as often as the collection holds it |
| ProductRoutes.MatchingAppend | server/routes/products.js:92 | the matches keep collection order: those of two runs of documents are the first run's, then the second's |
| ProductRoutes.ListProductsFacts | server/routes/products.js:11-112 | invalid queries are a 400; a valid one lists at most `limit` (20 by default, at most 100) active matching products in sort order, with the total and a page count that covers it |
| ProductRoutes.ListProductsPage | server/routes/products.js:92-106 | a valid query's page is `IsPage` of the matching products in the requested order, and its page count is the fewest pages that hold every match |
| ProductRoutes.GetProductCountsView | server/routes/products.js:117-140 | only an active product is shown; showing it counts exactly one view and otherwise changes only the saved rating |
| ProductRoutes.GetProduct | server/routes/products.js:117-140 | the handler's effect and response are those of `GetProductSpec` |
| ProductRoutes.CreateProductFacts | server/routes/products.js:145-188 | refused to customers and for a SKU already stored; otherwise stores one active, review-free product sold by the caller |
| ProductRoutes.CreateProductKeepsOthers | server/routes/products.js:174-178 | under a fresh id, every stored product stays as it was, and a created product adds exactly one document |
| ProductRoutes.SecondCreateWithSameSkuRefused | server/routes/products.js:166-177 | once a SKU is stored another product with it is refused |
| ProductRoutes.CreateProduct | server/routes/products.js:145-188 | the handler's effect and response are those of `CreateProductSpec` |
| ProductRoutes.ApplyPatchIdempotent | server/routes/products.js:211-214 | applying an update twice is applying it once; an empty body changes nothing; SKU, seller and reviews change only when the body supplies them; the creation time never changes |
| ProductRoutes.CatalogueKeepsSkusUnique | server/models/Product.js:84-88 | create, update and delete each keep every stored product's SKU distinct from every other's |
| ProductRoutes.SellerHandOverLocksOutFormerSeller | server/routes/products.js:204-214 | an update whose body names another seller leaves the former seller, unless an admin, refused on the next update or delete |
| ProductRoutes.ManageGate | server/routes/products.js:195-210 | 404 for an unknown id, else 403 unless the seller or an admin |
| ProductRoutes.ManageOwnerOrAdmin | server/routes/products.js:193-260 | only the seller or an admin changes or deletes; anyone else changes nothing; an update to a SKU another product holds is refused by the unique index; otherwise an update stores the patched product; a delete keeps the product, clearing `isActive` (and saving its rating summary) |
| ProductRoutes.DeletedProductHidden | server/routes/products.js:117-260 | a deleted product is a 404 on read and never listed, but its SKU still blocks a new product |
| ProductRoutes.UpdateProduct | server/routes/products.js:193-225 | the handler's effect and response are those of `UpdateProductSpec` |
| ProductRoutes.DeleteProduct | server/routes/products.js:230-260 | the handler's effect and response are those of `DeleteProductSpec` |
| ProductRoutes.AddReviewSummarises | server/routes/products.js:265-298 | accepted iff the rating is a whole number in 1..5 and the trimmed comment has 10..500 characters as `isLength` counts them; the author then has exactly one review, holding that rating, and the saved summary counts every review with an average in 1..5 |
| ProductRoutes.AddReview | server/routes/products.js:265-298 | the handler's effect and response are those of `AddReviewSpec` |
| UserModel.FailedLoginCounts | server/models/User.js:126-149 | after an expired lock a failure restarts at one attempt, unlocked; otherwise the count grows by one |
| UserModel.FailedLoginLocks | server/models/User.js:139-149 | the failure that reaches five on an unlocked account locks it for exactly two hours; a lock in force is never extended |
| UserModel.FailuresBelowLimit | server/models/User.js:126-149 | four failures from a clean account leave four attempts and no lock |
| UserModel.FifthFailureLocks | server/models/User.js:126-149 | the fifth failure locks the account for two hours from that instant |
| UserModel.OtpValue | server/models/User.js:185 | the OTP number lies within 100000..999999 |
| UserModel.OtpIsSixDigits | server/models/User.js:185 | the OTP text is six digits without a leading zero |
| UserModel.UserDocument.IncLoginAttempts | server/models/User.js:126-149 | the counter and lock become `FailedLogin` of their old values; nothing else changes |
| UserModel.UserDocument.ResetLoginAttempts | server/models/User.js:152-159 | both the counter and the lock are cleared; nothing else changes |
| UserModel.UserDocument.GenerateEmailVerificationToken | server/models/User.js:162-170 | stores the token's hash, valid for 24 hours, and returns the token |
| UserModel.UserDocument.GeneratePasswordResetToken | server/models/User.js:173-181 | stores the token's hash, valid for 10 minutes, and returns the token |
| UserModel.UserDocument.GeneratePhoneOTP | server/models/User.js:184-191 | stores the six-digit OTP, valid for 5 minutes, and returns it |
| AuthMiddleware.DenialStatus | server/middleware/auth.js:5-169 | each denial answers 401, 403 or 429 as its kind says |
| AuthMiddleware.BearerToken | server/middleware/auth.js:10-12 | a token exists only for a header starting with "Bearer", and is non-empty and free of spaces |
| AuthMiddleware.BearerTokenOfHeader | server/middleware/auth.js:10-12 | "Bearer " followed by a space-free token yields that token |
| AuthMiddleware.ProtectDecides | server/middleware/auth.js:5-70 | passes exactly an active, unlocked user named by a valid token, and attaches that user; otherwise 401, reporting a missing token exactly when there is none and a lock only for an active account |
| AuthMiddleware.OptionalAuthAgreesWithProtect | server/middleware/auth.js:94-116 | attaches a user exactly when `protect` would pass with that user, and never answers |
| AuthMiddleware.Authorize | server/middleware/auth.js:73-91 | 401 without a user, 403 for a role outside the list, else passes with the user |
| AuthMiddleware.RequireEmailVerification | server/middleware/auth.js:119-128 | 403 exactly when the e-mail is unverified |
| AuthMiddleware.RequirePhoneVerification | server/middleware/auth.js:131-140 | 403 exactly when the phone is unverified |
| AuthMiddleware.Recent | server/middleware/auth.js:155-156 | the kept timestamps are exactly those less than 15 minutes old, never more than were stored |
| AuthMiddleware.LimitFacts | server/middleware/auth.js:143-169 | a refusal leaves the store unchanged; an allowance stores at most five in-window timestamps ending with `now`; other users are untouched |
| AuthMiddleware.CountFromRange | server/middleware/auth.js:156 | the count of timestamps at or after a time is at most their number; it is all of them iff each is that late, none iff each is earlier |
| AuthMiddleware.AtMostFivePerWindow | server/middleware/auth.js:143-169 | within any 15-minute span at most five operations of one user are allowed |
| AuthMiddleware.SensitiveOperations.Check | server/middleware/auth.js:143-169 | the map and the verdict become those of `Limit` |
| UserRoutes.ClearDefaults | server/routes/users.js:94 | same addresses with every default flag cleared |
| UserRoutes.FindAddress | server/routes/users.js:125-126 | the first address with the id, or none when no address has it |
| UserRoutes.AddAddressDefaults | server/routes/users.js:93-105 | one address appended; with `isDefault` it is the only default; otherwise existing flags stay and it is the default iff the book was empty |
| UserRoutes.UpdateAddressDefaults | server/routes/users.js:125-146 | only that address changes, only in its non-empty supplied fields; with `isDefault` it becomes the only default |
| UserRoutes.DeleteAddressKeepsOthers | server/routes/users.js:166-176 | exactly that address is removed, the others keep their order, and at most one default remains |
| UserRoutes.ProfileUpdateRule | server/routes/users.js:49-53 | a new phone clears the phone's verified flag; the name changes only when supplied; nothing else changes |
| UserRoutes.PreferencesMerge | server/routes/users.js:196-200 | a notification switch changes only when supplied; language and currency only when supplied non-empty |
| UserRoutes.ClearDefaultFlags | server/routes/users.js:94 | the document's addresses become `ClearDefaults` of the old ones |
| UserRoutes.AddAddress | server/routes/users.js:71-117 | an unverified e-mail is a 403; an input with a missing field, a phone that is not a mobile number or a pincode that `isLength` does not count as six characters changes nothing; otherwise the book becomes `AddedAddresses` |
| UserRoutes.UpdateAddress | server/routes/users.js:122-158 | 404 for an unknown id; otherwise the book becomes `UpdatedAddresses` at the address found |
| UserRoutes.DeleteAddress | server/routes/users.js:163-186 | 404 for an unknown id; otherwise the book loses exactly that address |
| UserRoutes.UpdateProfile | server/routes/users.js:26-66 | a name that does not trim to 2..50 characters as `isLength` counts them, or a phone that is not a mobile number, is refused and changes nothing; otherwise the user becomes `UpdatedProfile` with the trimmed name |
| UserRoutes.UpdatePreferences | server/routes/users.js:191-212 | the preferences become `UpdatedPreferences` of the old ones |
| Validation.ValidateEmail | src/utils/validation.ts:14-26 | an error for field "email"; accepted iff non-empty and of the form plain+ '@' plain+ '.' plain+ |
| Validation.AcceptedEmailShape | src/utils/validation.ts:14-26 | an accepted address has exactly one '@', a non-empty local part, no whitespace, and a '.' inside the domain |
| Validation.ValidatePassword | src/utils/validation.ts:29-51 | any error is for field "password" |
| Validation.PasswordRules | src/utils/validation.ts:29-51 | accepted iff at least six UTF-16 code units with a lower-case letter, an upper-case letter and a digit; otherwise the first broken rule in source order is reported |
| Validation.ValidateName | src/utils/validation.ts:54-72 | accepted iff it trims to 2..50 UTF-16 code units and has only letters and whitespace |
| Validation.ValidateAddress | src/utils/validation.ts:95-109 | accepted iff it trims to 10..200 UTF-16 code units |
| Validation.ValidateCity | src/utils/validation.ts:112-126 | accepted iff it trims to 2 or more UTF-16 code units and has only letters and whitespace |
| Validation.ValidateState | src/utils/validation.ts:129-139 | accepted iff it trims to 2 or more UTF-16 code units |
| Validation.BlankFieldsRejected | src/utils/validation.ts:54-139 | whitespace alone is never a valid name, address, city or state |
| Validation.StripPhone | src/utils/validation.ts:81 | the cleaned number has no space, dash or bracket, and keeps every other character |
| Validation.StripPhoneIdempotent | src/utils/validation.ts:81 | cleaning twice is cleaning once |
| Validation.ValidatePhone | src/utils/validation.ts:75-92 | any error is for field "phone" |
| Validation.PhoneRules | src/utils/validation.ts:75-92 | accepted iff the cleaned number has 10..15 characters: an optional '+', then digits whose first is not zero |
| Validation.PhoneFormattingIgnored | src/utils/validation.ts:75-92 | formatting characters never change the verdict on a number with other characters |
| Validation.ValidatePincode | src/utils/validation.ts:142-154 | accepted iff six digits with a non-zero first digit |
| Validation.PincodesAreSixDigitNumbers | src/utils/validation.ts:142-154 | the accepted PIN codes are exactly the numerals of 100000..999999 |
| Validation.Present | src/utils/validation.ts:208-240 | the errors collected, in check order |
| Validation.FailedAt | src/utils/validation.ts:208-240 | the positions of the failed checks, increasing, each giving its collected error |
| Validation.Outcome | src/utils/validation.ts:166-169 | `isValid` iff no error was collected |
| Validation.FormErrors | src/utils/validation.ts:174-240 | a form of labelled checks is valid iff every check passes, reports errors in field order, at most one per field, and a field has an error iff its check failed |
| Validation.LoginRules | src/utils/validation.ts:157-171 | login is valid iff the e-mail is accepted and the password is non-empty; the password rules are not applied |
| Validation.RegistrationRules | src/utils/validation.ts:174-205 | a confirmPassword error iff the passwords differ; the phone is checked only when entered; valid iff every check passes |
| Validation.ShippingErrors | src/utils/validation.ts:208-240 | valid iff every field is; at most one error per field, in the order name, phone, address, city, state, pincode |
| Validation.RatingCheck | src/utils/validation.ts:246-248 | accepted iff the rating is within 1..5, fractions included |
| Validation.CommentCheck | src/utils/validation.ts:250-256 | accepted iff the trimmed comment has 10..500 UTF-16 code units |
| Validation.ReviewFormRules | src/utils/validation.ts:243-262 | the review form is valid iff the rating lies within 1..5 and the trimmed comment has 10..500 UTF-16 code units |
| ReviewAgreement.ReviewFormMatchesServer | src/utils/validation.ts:243-262 | on an existing product, a whole-number rating and a comment with no character above U+FFFF and no variation selector, the form is valid iff the server's `AddReviewSpec` stores the review; a fractional rating is always refused by the server |
| ReviewAgreement.HalfStarRefusedByServer | server/routes/products.js:265-266 | with a comment the form accepts, the form accepts a rating of 4.5 and the server refuses it |
| ReviewAgreement.AstralCommentRefusedByServer | server/routes/products.js:267 | a comment of five to nine characters above U+FFFF (five emoji) passes the form's 10..500 `.length` check and fails the server's `isLength` |
| Validation.GetFieldError | src/utils/validation.ts:265-268 | the message of the first error for the field, or none when no error is for it |
| Validation.HasFieldErrorIffMessage | src/utils/validation.ts:265-273 | `hasFieldError` iff `getFieldError` finds a message |
| Storefront.FindProduct | src/contexts/FavoritesContext.tsx:57-58 | the first catalogue product with the id, or none iff none has it |
| OrderContext.NewOrder | src/contexts/OrderContext.tsx:36-46 | id "ORD-" + now, created and updated at now, delivery due 7 days later, tracking number "TRK" + the random code; the caller's user, items, total, status, shipping address, payment status and payment method kept |
| OrderContext.FindOrder | src/contexts/OrderContext.tsx:56-58 | the first order with the id, or none iff none has it |
| OrderContext.AddedOrderFound | src/contexts/OrderContext.tsx:36-58 | a just-added order is the one its id finds |
| OrderContext.StatusChangeFound | src/contexts/OrderContext.tsx:48-58 | after a status change the id finds the same order with the new status; other ids find what they found before |
| OrderContext.StatusChanged | src/contexts/OrderContext.tsx:48-54 | the list keeps its length |
| OrderContext.TrackingTimeline | src/contexts/OrderContext.tsx:60-115 | an unknown id has no timeline; otherwise it starts with "order placed" at creation, has 1..5 entries by status, stage k at creation plus its offset, strictly forward in time |
| OrderContext.CancelledShowsPlacedOnly | src/contexts/OrderContext.tsx:48-115 | a cancelled order shows only that it was placed |
| OrderContext.OrderList.AddOrder | src/contexts/OrderContext.tsx:36-46 | the new order goes first and the older ones follow unchanged |
| OrderContext.OrderList.UpdateOrderStatus | src/contexts/OrderContext.tsx:48-54 | orders with the id get the new status and `updatedAt`; all others and the length are unchanged |
| Favorites.NewFavorite | src/contexts/FavoritesContext.tsx:37-45 | the entry is for the pair and stamped now |
| Favorites.Without | src/contexts/FavoritesContext.tsx:47-49 | exactly the entries of other pairs remain |
| Favorites.AddedIsFavorite | src/contexts/FavoritesContext.tsx:37-53 | after an add the pair is a favourite, and no other pair's answer changes |
| Favorites.RemovedIsNotFavorite | src/contexts/FavoritesContext.tsx:47-53 | after a remove the pair is no favourite, and no other pair's answer changes |
| Favorites.WithoutAppend | src/contexts/FavoritesContext.tsx:47-49 | removal works entry by entry, so the kept entries stay in order |
| Favorites.RemoveAbsent | src/contexts/FavoritesContext.tsx:47-49 | removing a pair that is not a favourite changes nothing |
| Favorites.OfUser | src/contexts/FavoritesContext.tsx:56 | the user's entries and no other |
| Favorites.OfUserCounts | src/contexts/FavoritesContext.tsx:56 | each of the user's entries is kept as often as the list holds it, and no other entry is kept |
| Favorites.OfUserAppend | src/contexts/FavoritesContext.tsx:56 | selection keeps list order: the user's entries of two runs are the first run's, then the second's |
| Favorites.Resolve | src/contexts/FavoritesContext.tsx:57-59 | only catalogue products, each found for one of the entries |
| Favorites.FavoriteProductsOfUser | src/contexts/FavoritesContext.tsx:55-60 | the user's favourite products are catalogue products for the user's own favourites, and every catalogued favourite is included |
| Favorites.AddedProductLast | src/contexts/FavoritesContext.tsx:37-60 | adding a catalogued favourite puts its product last in the user's list |
| Favorites.FavoritesList.AddToFavorites | src/contexts/FavoritesContext.tsx:37-45 | one entry is appended, even for a pair already present |
| Favorites.FavoritesList.RemoveFromFavorites | src/contexts/FavoritesContext.tsx:47-49 | the list becomes `Without` the pair |
| CatalogPage.Distinct | src/pages/EcommercePage.tsx:56 | the same values, each once |
| CatalogPage.CategoriesOffered | src/pages/EcommercePage.tsx:56 | "All Categories" first, then every product category, nothing else, none twice |
| CatalogPage.Filter | src/pages/EcommercePage.tsx:58-77 | the kept products are exactly those the test admits, never more copies than given |
| CatalogPage.FilterCounts | src/pages/EcommercePage.tsx:63 | each admitted product is kept as often as the list holds it |
| CatalogPage.FilterAppend | src/pages/EcommercePage.tsx:63 | filtering keeps list order: the kept products of two runs are the first run's, then the second's |
| CatalogPage.FilterFilter | src/pages/EcommercePage.tsx:63-77 | filtering by one test and then another is filtering once by both |
| CatalogPage.FilterProductsInOrder | src/pages/EcommercePage.tsx:58-77 | the page's three filters are one filter by `Shown`: catalogue order kept, and every copy of a shown product kept |
| CatalogPage.EmptySearchMatchesAll | src/pages/EcommercePage.tsx:67-74 | an empty search matches every product |
| CatalogPage.FilterProductsExact | src/pages/EcommercePage.tsx:58-77 | exactly the products in the category, matching the lower-cased search in name, description, a tag or shop, within the price range inclusive |
| CatalogPage.OrderIsTotalPreorder | src/pages/EcommercePage.tsx:79-99 | every sort choice orders all products consistently |
| CatalogPage.FilteredProductsSorted | src/pages/EcommercePage.tsx:79-99 | a permutation of the filtered products, by price up or down, by rating down, by name; for any other choice the filtered list itself, which is the catalogue filtered by `Shown` in catalogue order |
| Common.Round | server/models/Product.js:233 | `Math.round`: the nearest integer, halves upwards |
| Common.Ceil | server/routes/products.js:106 | `Math.ceil`: the least integer not below |
| Decimal.ParseNatToString | server/models/User.js:185 | a number's decimal text reads back as the number |
| Decimal.NatToStringInjective | server/models/Order.js:239 | distinct numbers have distinct decimal texts |
| Decimal.PadStart | server/models/Order.js:239 | `padStart`: at least the width, the text kept at the end |
| Text.Utf16LengthOfBmp | src/utils/validation.ts:34 | `.length` equals the character count iff no character lies above U+FFFF |
| Text.ValidatorLength | server/routes/products.js:267 | `isLength`'s count: at most the character count and at most `.length` |
| Text.LengthsAgree | server/routes/products.js:267 | on text within U+0000..U+FFFF without variation selectors, `.length`, `isLength` and the character count agree |
| Text.AstralCountsTwice | src/utils/validation.ts:252 | on text above U+FFFF, `.length` is twice `isLength`'s count |
| Text.Trim | src/utils/validation.ts:59 | `trim()`: a piece of the text, no longer than it, with no white space at either end |
| Text.Includes | src/pages/EcommercePage.tsx:68-73 | `includes`: true iff the piece occurs |
| Text.JoinSplit | server/routes/products.js:66 | `split(',')` loses nothing: joining the pieces gives the text back |
| Sorting.SortBySorted | src/pages/EcommercePage.tsx:80-96 | under a total preorder the sort is ordered and a permutation |

## Left out

- E-mail, SMS and invoice PDF rendering, socket.io emits and `localStorage` persistence are I/O. An invoice appears only as the URL the generator returns, or none.
- Cryptography and randomness are parameters. These are the HMAC-SHA256 digest, SHA-256, JWT verification, `crypto.randomBytes` tokens and `Math.random`. Password hashing and `comparePassword` are not modelled.
- Razorpay `orders.create` and `payments.refund` are the ids they return. Gateway failures are not modelled.
- Mongoose validators-on-save and `runValidators` are not modelled, apart from the required order number and the refund's 'refunded' status (both in "Findings") and the SKU unique index. The reorder's out-of-enum payment method would be refused as well, but the missing order number stops that create first. `populate` and `.select` projections are not modelled either.
- Express-validator's `isMongoId` is not modelled. Ids are opaque values.
- The id of a new document is a parameter of `CreateOrderSpec`, `ReorderSpec` and `CreateProductSpec` (and of their methods), and these do not require it to be fresh. Mongo's generated ObjectIds never collide, so the model does not capture id generation. For a reused id these specs would overwrite the stored document, which the program cannot do. `OrderRoutes.CreateKeepsOtherOrders`, `OrderRoutes.ReorderKeepsOriginal` and `ProductRoutes.CreateProductKeepsOthers` state, under a fresh id, that nothing stored is overwritten. `OrderRoutes.CreateKeepsValid` also takes a fresh id.
- `Product.create` spreads the whole request body (`...req.body`). The model takes the declared input fields only. `findByIdAndUpdate` may set every stored field except `createdAt`; keys outside the schema are dropped by Mongoose and not modelled.
- Mongo `$text` search is the `textMatch` parameter.
- Among documents with equal sort keys a page follows `Sorting.SortBy`'s order, which MongoDB does not promise. No lemma states the order of ties.
- Text holding an unpaired UTF-16 surrogate cannot be written as Dafny characters, so its `.length` and `isLength` are not modelled.
- Concurrency is not modelled. Requests run one at a time, so the stock check-then-decrement race is not captured.
- Each request reads the clock once (`now`).
- Floating-point arithmetic is not modelled. Money and the day count are exact reals, so `subtotal * 0.18` has no IEEE rounding.
- The catch-all path (`next(error)`) is modelled as `ServerError` (500) only for the causes in "Findings" and the SKU unique index. Other thrown errors, such as a database failure or a malformed id, are not modelled. The server's error middleware is not part of this model.
- `GET /api/users/profile`, the `meta/categories` and `meta/brands` routes, and `publishedAt` are read-only or unrelated to the rules modelled.
- Order creation's `sameAsShipping` billing copy is taken as the addresses the caller supplies.
- Text.Trim: states that the result is a white-space-free-ended piece of the text, not that it is the longest such piece.
- Text.ToLower: lower-cases ASCII letters only, because full Unicode case mapping is not modelled.
- Text.LexLe: stands for `localeCompare` as code-point order, because locale collation is not modelled. Code-point order is not `<`'s UTF-16 code-unit order either: the two differ between U+E000..U+FFFF and characters above U+FFFF.
- Client `Product` fields that none of the modelled code reads are omitted. The client types are src/types/index.ts.
- Favorites.FavoriteProductsOfUser: states membership and completeness of the user's favourite products. It does not state their order in general. Favorites.AddedProductLast covers the order for one add.
- PaymentFailureOutcome: states the handler with `Product` imported. As written the payment router does not load, and the handler would throw after saving; the as-written members are in "Findings".
- RecordPaymentFailure: equals the handler with `Product` imported, for the same reason as PaymentFailureOutcome.
- RefundOutcome: states the handler with `authorize` imported and the 'refunded' save accepted. As written the payment router does not load, so no refund route exists (PaymentRoutes.RouterAsWrittenFailsToLoad). With `authorize` imported, the save is refused after the gateway refund (PaymentRoutes.RefundAsWrittenRepeats).
- Refund: equals the handler with `authorize` imported and the 'refunded' save accepted, for the same reason as RefundOutcome.
- PaymentRoutes.RefundOnlyOnce: holds of the intended handler only. With the status enum as written the payment stays 'completed', so a refunded order is refunded again (PaymentRoutes.RefundAsWrittenRepeats, in "Findings").
- CreatePaymentOrder, VerifyPayment and PaymentHistory are modelled as served, although the router as written does not load.
- CreatedOrderShape: states creation with the order number assigned before validation. As written `Order.create` is refused (OrderRoutes.CreateOrderAsWrittenLosesStock).
- CreateOrder: equals the handler with the order number assigned before validation, for the same reason as CreatedOrderShape.
- ReorderOutcomeFacts: states reorder with the order number assigned before validation. As written it is refused (OrderRoutes.ReorderAsWrittenNeverCreates).
- Reorder: equals the handler with the order number assigned before validation, for the same reason as ReorderOutcomeFacts.
- The `tracking` sub-document is stored and reported, but no modelled handler writes it; carrier integration is not part of this model.
- The presentation components, the chat widgets, the checkout form and the payment modal's simulated success are UI. The service wrappers and the mock data are not part of this model.

## Findings

| source | as written | input that shows it | evidently intended | confidence | as-written member | corrected member |
|---|---|---|---|---|---|---|
| server/routes/payments.js:220 | `authorize('admin')` runs while the router is built, but line 6 imports only `protect`: a ReferenceError, so the module exports no router | loading the module, i.e. any request under /api/payments | import `authorize` with `protect` from the auth middleware | not executed; high | PaymentRoutes.RouterAsWrittenFailsToLoad | PaymentRoutes.CorrectedRouterLoads |
| server/routes/payments.js:203 | `Product` is never imported: the failed order is saved, then the restore loop throws on its first item, no stock comes back and the caller gets a server error | POST /api/payments/failure with an error object, for an owned order with one item of a stored product | import the Product model and give each item's quantity back | not executed; high | PaymentRoutes.PaymentFailureAsWrittenLosesStock | PaymentRoutes.PaymentFailureOutcome |
| server/models/Order.js:236-243 | `orderNumber` is required but only the pre-save hook sets it, and Mongoose validates first: `Order.create` (server/routes/orders.js:87) is refused after the line loop has taken the stock | POST /api/orders with one valid line for an active product in stock | assign the number before validation, e.g. in a pre-validate hook | not executed; medium, as it rests on Mongoose running validation before user pre-save hooks | OrderRoutes.CreateOrderAsWrittenLosesStock | OrderRoutes.CreatedOrderShape |
| server/routes/orders.js:494 | the same refusal for the reorder's `Order.create` | POST /api/orders/:id/reorder on an owned order with one orderable item | as in the previous row | not executed; medium, as in the previous row | OrderRoutes.ReorderAsWrittenNeverCreates | OrderRoutes.ReorderOutcomeFacts |
| server/routes/payments.js:262-267 | `addStatusHistory('refunded')` saves a status that the status enum (server/models/Order.js:134-136) does not list. The save is refused after the gateway refund at line 253: nothing is stored, the payment stays 'completed', and a repeat request passes line 245 and is refunded again | two admin POST /api/payments/refund requests, with `authorize` imported, for one order whose payment is completed | store a status the enum lists, or add 'refunded' to it, so that the refund is recorded and the payment leaves 'completed' | not executed; high | PaymentRoutes.RefundAsWrittenRepeats | PaymentRoutes.RefundOnlyOnce |
