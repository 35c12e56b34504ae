# eshop-admin: order reconciliation, order actions and form schemas

This project is a Dafny model of the business rules of an e-commerce admin dashboard, together with proofs about them. The dashboard itself is a web UI over a hosted database. The model covers four parts of it.

- **The orders admin page** (`OrdersPage`). Each order item is expanded into single-unit instances, and each instance is flagged out of stock or not. The page's totals are sums over those instances. The out-of-stock toggle and the status change update the page's state, a `PageState` object.
- **The server actions on orders** (`OrderActions`).
  - `updateFinancials` is four database requests in a row, any of which may throw, with no rollback. It is modelled as a `Backend` object holding the `order` and `profile` tables, and proved against the specification function `Financials`.
  - `updateOrderStatus` writes the status and then checks the session.
  - `getMonthlyOrders` counts orders per month in a counter object. It is a loop proved against `MonthlyCounts`.
- **The form schemas** (`Validation`, `CategorySchemas`, `ProductSchemas`). Each schema is a parse function that returns either the parsed value or the list of issues, in the way zod reports them. It is paired with an acceptance predicate.
- **Supporting modules.** `Wrappers` holds `Option` and JavaScript's `x || 0`. `Rows` holds the row shapes of the `order`, `order_item`, `product` and `profile` tables. `Tally` holds occurrence counts and the first-seen order of keys, which is the order `Object.keys` gives for a counter object.

Prices, refunds and balances are integers (cents). Issue messages follow zod 3.23 and later: a missing required value is reported as "Required", and an enum with a custom message reports that message for a missing value too. Database answers, service errors, the session and the result of URL checks are parameters of the model.

## Model

| member | source | states |
|---|---|---|
| Wrappers.OrZero | src/actions/orders.ts:71 | `x \|\| 0` is defined by JavaScript's rule (a falsy NULL or 0 gives 0, any other number is kept); for the caller this is exactly "an absent value counts as 0, a present one is kept" |
| OrdersPage.ItemInstances | src/app/admin/orders/page-component.tsx:206-218 | an item with quantity q > 0 gives exactly q instances, quantity 0 gives 1 (`quantity \|\| 1`), a negative quantity gives none; every instance has quantity 1, carries the item's id, order id and product, and is numbered by its position; its flag holds iff the item id is in the out-of-stock set or the product is marked out of stock |
| OrdersPage.InstancesShape | src/app/admin/orders/page-component.tsx:206-218 | the flattened instances of an order number as many as its units; each is a single unit of one of the order's items, with the flag rule above |
| OrdersPage.Instances | src/app/admin/orders/page-component.tsx:206-218 | the `flatMap` over the items gives one instance per unit of the order, each a single unit of that order |
| OrdersPage.TotalPrice | src/app/admin/orders/page-component.tsx:220-224 | with nothing out of stock the full price of the instances is charged; with everything out of stock nothing is |
| OrdersPage.RefundedAmount | src/app/admin/orders/page-component.tsx:226-230 | with nothing out of stock nothing is refunded; with everything out of stock the full price is |
| OrdersPage.InstancesOfOneItemAgree | src/app/admin/orders/page-component.tsx:212-214 | when the items have distinct ids, all instances of one item share one flag, and two instances of one item have different `unique_instance_id` indices (line 286) |
| OrdersPage.TotalsPartitionPrice | src/app/admin/orders/page-component.tsx:220-230 | `totalPrice` (in-stock prices) plus `refunded_amount` (out-of-stock prices) is the price of all instances |
| OrdersPage.ExpandedTotals | src/app/admin/orders/page-component.tsx:206-230 | the reducers over the expanded instances equal the item-by-item sums: price times units of each in-stock item, and of each out-of-stock item |
| OrdersPage.SingleUnitCounts | src/app/admin/orders/page-component.tsx:301-315 | on single-unit instances `remainingProducts` is the number of in-stock instances and `refundedFunds` equals `refunded_amount` |
| OrdersPage.RemainingProducts | src/app/admin/orders/page-component.tsx:301-305 | nothing remains when every instance is out of stock; every instance remains when all are single in-stock units |
| OrdersPage.RefundedFunds | src/app/admin/orders/page-component.tsx:308-315 | nothing is refunded when every instance is in stock; the full price is when all are single out-of-stock units |
| OrdersPage.RecomputeTotals | src/app/admin/orders/page-component.tsx:204-248 | the recomputed order keeps its items and every row field except `totalPrice` and `refunded_amount`, which become the item-by-item charged price and refund |
| OrdersPage.WithRecomputedTotals | src/app/admin/orders/page-component.tsx:203-249 | the recomputation keeps the list's length and order and does the above to every order |
| OrdersPage.Toggled | src/app/admin/orders/page-component.tsx:167-180 | on a non-pending order the set is unchanged; on a pending one exactly the toggled item's membership flips, and every other id keeps its membership |
| OrdersPage.ToggleTwice | src/app/admin/orders/page-component.tsx:167-180 | toggling the same item twice restores the set |
| OrdersPage.ChangeStatus | src/app/admin/orders/page-component.tsx:190-194 | the list keeps its length and order; only orders with the matching id get the new status, and every other field and order is unchanged |
| OrdersPage.PageState.FetchOutOfStockInstances | src/app/admin/orders/page-component.tsx:71-87 | a failed query leaves the set unchanged; otherwise the set holds exactly the returned ids |
| OrdersPage.PageState.FetchOrdersFromDB | src/app/admin/orders/page-component.tsx:90-107 | a failed query leaves the orders unchanged; otherwise they are the returned orders |
| OrdersPage.PageState.HandleOutOfStockToggle | src/app/admin/orders/page-component.tsx:154-184 | the new set is `Toggled` of the old one; on a pending order it returns the item's new flag and the product's new `Status` text, "out of stock" when the item is now out of stock and "in stock" otherwise (`ProductStatus`); on any other order it writes nothing |
| OrdersPage.PageState.HandleStatusChange | src/app/admin/orders/page-component.tsx:187-198 | the database ends in the state `updateOrderStatus` leaves; a notification is sent iff that action did not throw, which (with `sendNotification` and `revalidatePath` assumed not to throw) is iff the status write succeeded and a user is logged in; the page's list changes as `ChangeStatus` only then |
| OrdersPage.PageState.UpdateOrderTotals | src/app/admin/orders/page-component.tsx:200-254 | the page's orders become their recomputed totals under the current out-of-stock set |
| OrderActions.Financials | src/actions/orders.ts:54-101 | each step throws exactly when every earlier step succeeded and its own request errs (or `.single()` finds no row: no order with the id, no profile for its owner); an order-fetch or order-update failure writes nothing; after a profile-fetch or wallet failure, or on success, the totals written are exactly the arguments; no other order is touched; profiles change only on success, which happens iff the order and its owner's profile exist and no request errs; the new balance is `(balance \|\| 0) + (newRefund - (oldRefund \|\| 0))` |
| OrderActions.FinancialsIdempotent | src/actions/orders.ts:70-98 | after a successful call, a second successful call with the same refund leaves every wallet unchanged, whatever total price it writes, since the refund difference is then 0; with the same total price too, the whole store is unchanged |
| OrderActions.RetryAfterWalletFailureLosesCredit | src/actions/orders.ts:74-100 | after a failed wallet write, a retry succeeds but leaves the owner's balance at what it was before: there is no rollback, so the credit is lost |
| OrderActions.Backend.UpdateFinancials | src/actions/orders.ts:54-101 | the four requests with their early throws have exactly the effect and outcome of `Financials` |
| OrderActions.LoggedIn | src/actions/orders.ts:42 | definition: a session counts as logged in when it has a user id that is not empty, as `!session?.user?.id` treats the empty string as falsy; its effect is stated by `StatusUpdate` |
| OrderActions.StatusUpdate | src/actions/orders.ts:29-48 | a failed status write throws and changes nothing; otherwise exactly the order with that id gets the status, and the call throws "not logged in" iff the session has no user id |
| OrderActions.Backend.UpdateOrderStatus | src/actions/orders.ts:29-48 | the effect and outcome are those of `StatusUpdate`; the user of the session is notified with the status message exactly when the action succeeds; the message is the status followed by a space and a rocket (`StatusMessage`) |
| OrderActions.MonthKey | src/actions/orders.ts:126-127 | an order gets the key "undefined" exactly when its date does not parse, so no real month shares that key |
| OrderActions.MonthKeyInjective | src/actions/orders.ts:109-127 | two orders get the same key iff they are in the same month (or both have no date), so counting keys counts months |
| OrderActions.MonthlyCounts | src/actions/orders.ts:124-140 | the result has at most one entry per order, each named after the month of some order, with no month twice |
| OrderActions.OccurrencesAreOrdersIn | src/actions/orders.ts:124-133 | the number of times a month's key occurs is the number of orders in that month |
| OrderActions.MonthlyCountsAreOrdersIn | src/actions/orders.ts:124-140 | each listed month carries the number of orders in it, which is positive |
| OrderActions.MonthlyCountsCover | src/actions/orders.ts:124-140 | the month of every order is listed |
| OrderActions.MonthlyCountsCorrect | src/actions/orders.ts:124-140 | only months with orders are listed, each once, with their order counts, in order of first occurrence; the counts add up to the number of orders |
| OrderActions.CountOrder | src/actions/orders.ts:125-133 | the reducer callback keeps the counter object exact: its keys are the months seen, created in order of first occurrence, each with its count |
| OrderActions.ListingIsMonthlyCounts | src/actions/orders.ts:124-140 | listing the keys of an exact counter object in creation order, each with its count (`Object.keys(...).map`, the member `Listing`), gives `MonthlyCounts` |
| OrderActions.GetMonthlyOrders | src/actions/orders.ts:103-141 | a failed select throws; otherwise the fold and the key listing return exactly `MonthlyCounts` of the orders' months |
| Tally.FirstSeenMembers | src/actions/orders.ts:129 | the keys a counter object creates are exactly the values seen |
| Tally.FirstSeenDistinct | src/actions/orders.ts:129 | a counter object creates each key once |
| Tally.FirstSeenOrder | src/actions/orders.ts:129-137 | the keys are listed in increasing order of first occurrence |
| Tally.FirstSeenCountsAll | src/actions/orders.ts:124-135 | the counts of the keys add up to the number of values counted |
| Validation.ParseIntent | src/app/admin/categories/create-category.schema.ts:9-12 | a present intent parses iff it is "create" or "update" |
| Validation.IntentRoundTrip | src/app/admin/categories/create-category.schema.ts:9-12 | an intent's name parses back to it, and only its name does |
| Validation.MinLength | src/app/admin/categories/create-category.schema.ts:6-8 | `z.string().min(n)`: no issue iff the string is present and at least n long; a missing value is "Required", a short one gets the field's message |
| Validation.Positive | src/app/admin/products/schema.ts:30-31 | `z.number().positive()`: no issue iff the number is present and above 0; a missing value is "Required", otherwise the field's message |
| Validation.IntentField | src/app/admin/categories/create-category.schema.ts:9-13 | the intent enum: no issue iff it is absent and optional, or present and known; any issue carries the enum's message |
| Validation.UrlElements | src/app/admin/products/schema.ts:34 | an array of URL strings has no issue iff every element is a URL; exactly the elements that are not are reported, each at its index |
| CategorySchemas.ParseCreateCategory | src/app/admin/categories/create-category.schema.ts:3-16 | the client form parses iff it has exactly one image file, a name of at least 2 characters and no intent or a known one; slug is optional; it then returns the fields; the image message appears iff the file count is not 1, the name message iff the name is present but short, "Required" iff the name is missing, the intent message iff a present intent is unknown |
| CategorySchemas.ParseCreateCategoryServer | src/app/admin/categories/create-category.schema.ts:19-25 | the server input parses iff `imageUrl` is non-empty and the name has at least 2 characters; "image is required" appears iff `imageUrl` is empty, the name message iff the name is present but short, and "Required" at a field iff that field is missing |
| CategorySchemas.ParseUpdateCategory | src/app/admin/categories/create-category.schema.ts:30-41 | the update form parses iff `ImageUrl` is non-empty, the name has at least 2 characters, intent is present and known, and slug is non-empty; a missing intent gets the enum's message, an empty slug "slug is required" and a missing slug "Required" |
| ProductSchemas.ImagesArray | src/app/admin/products/schema.ts:15 | the transform makes an array of the chosen files, same length and order; absent files give the empty array |
| ProductSchemas.TextFieldIssues | src/app/admin/products/schema.ts:4-7 | no issue iff title, price, category and description are all non-empty; issues are only about those four fields |
| ProductSchemas.ParseProductForm | src/app/admin/products/schema.ts:3-22 | the client form parses iff the four text fields are non-empty, exactly one hero image is given, the images are a non-empty `FileList`, and the intent is absent or known; it then returns the fields with the images as an array; the hero image, images and intent issues appear exactly when those fields fail |
| ProductSchemas.ServerFieldIssues | src/app/admin/products/schema.ts:29-33 | no issue iff title and description are non-empty, price and category are positive numbers and the hero image is a URL; a present price that is not positive is reported with "Price is required" |
| ProductSchemas.HeroImageUrlIssues | src/app/admin/products/schema.ts:33 | the hero image has no issue iff it is a URL; a missing one is "Required", one that is not a URL gets "Hero image is required" |
| ProductSchemas.ImageUrlIssues | src/app/admin/products/schema.ts:34 | no issue iff the array is present and every element is a URL, so an empty array is accepted; a missing array is "Required"; exactly the non-URL elements are reported, each at its index |
| ProductSchemas.ParseProductServer | src/app/admin/products/schema.ts:28-35 | the server input parses iff all fields are acceptable, and then returns them; the images and price issues are as above |

## Left out

- All database requests (selects, updates, the auth session) are foreign I/O. Their answers are parameters: a response that may be absent, a `ServiceErrors` record, the session's user id. The notification and the toggle's database writes are returned rather than sent.
- `sendNotification` and `revalidatePath` are assumed not to throw. A throw from either would make `updateOrderStatus` fail after the status write, and the page's list would then stay unchanged.
- The React state and effect scheduling, and the race between the out-of-stock state update and the database writes, are not modelled. Each handler is one atomic method on `PageState`.
- The `HEAD` side of the unresolved merge conflict in `src/app/admin/orders/page-component.tsx` (lines 115-138, 292-299, 318-373, 439-459) is not modelled. It is keyed by product id and uses state the file never declares. The model follows the other side, which is keyed by `order_item` id.
- The select of `getMonthlyOrders` is a parameter that is either the orders' months or an error, which the method reports as `None`; the error's message is not modelled.
- Dates are not parsed and `date-fns` formatting is left out. The model takes each order's UTC month index as input, with `None` for a date that does not parse; such an order is counted under the key "undefined".
- Prices are integer cents, not floating-point numbers, and `toFixed` formatting is left out.
- The branch where `order.order_items` is not an array (it gives no instances) is not modelled. Items are always a sequence.
- A `null` or `undefined` value for the `image` field of the category form and the `heroImage` field of the product form is not modelled: their `file.length` refinement would throw on it, so those two inputs are always present. The product form's `images` may be `null` (`None`), which its refinement rejects. Whether a value is a `FileList` is a flag the model does not interpret.
- Whether a string is a well-formed URL is the parameter `isUrl`.
- zod's type errors for values of the wrong type (a number given for a string, say) are left out. Fields are either absent or of the right type.
- Profiles are looked up by `user_id` as a map, which assumes `user_id` is unique in the `profile` table.
- The generated row type of `order_item` in `src/supabase/types.ts` has no `is_out_of_stock` column, although the page reads and writes one. The model gives order items the page's view: a flag on the product, with the admin's choice held in the out-of-stock set.
- `getOrdersWithProducts` and `updateOrderItemStatus` in `src/actions/orders.ts` are single pass-through requests and are not modelled. The page's `updateOrderItemStatus` and `updateProductStatus` writes appear only as the `ToggleWrites` that `HandleOutOfStockToggle` returns.
- OrderActions.StatusMessage: the rocket is one character in the model. In JavaScript it is two UTF-16 code units.
- Validation.MinLength: lengths count characters, whereas JavaScript counts UTF-16 code units. The two differ for characters outside the Basic Multilingual Plane.
