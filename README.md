# Ecommerce API shop core in Dafny

This project models the business rules of a Django shop backend and proves
properties about them. The shop has a catalogue of products and variants
with stock, carts of lines keyed by (product, variant), coupons, orders with
frozen order items, and order status notifications.

The model covers:

- **Cart endpoints.** `get_or_create_cart`, `add_item` (merge on add),
  `update_item` (a quantity of zero or less deletes the line), `remove_item`
  and `clear`. They are methods of a `Shop` class whose fields are the
  catalogue, the coupon table, the carts, the orders and id counters.
- **Checkout and cancellation.** `OrderViewSet.create` prices the cart
  (10% tax, 10.00 shipping under 100, a capped coupon discount). It then
  counts the coupon use, saves the order, writes one item per line while
  deducting stock in a loop, and empties the cart. `OrderViewSet.cancel`
  refuses terminal statuses and restores stock in a loop.
- **`Order.save` and its signal receivers.** A save draws an order number
  only when none is set, reads the stored status first, and decides the
  notification event. `update_status` writes any known status.
- **Derived values and validators.** Cart totals, line prices,
  `Coupon.is_valid`, `is_on_sale` and `discount_percentage`. The
  `validate_coupon` quote. The product and account serializer validators.
  The product and category queryset filters, as filters over sequences.

Money is Python `Decimal`, modelled exactly as `real`; the one amount that
is not a Decimal, `validate_coupon`'s `order_amount`, is a JSON integer or
float (`Pricing.Amount`). Stock is an unbounded
`int`. Times and dates are integers: seconds for coupon windows, day numbers
for dates of birth. Primary keys are natural numbers.

Modules:

- `Basics`: `Option` and `Result`.
- `Models`: the entities and their properties, from `product/models.py`.
- `Inventory`: the stock fold that checkout and cancel share.
- `Pricing`: coupon discount, `validate_coupon` and checkout totals.
- `Filters`: `product/filters.py`.
- `Serializers`: `product/serializers.py`.
- `Accounts`: `accounts/serializers.py`.
- `Signals`: `notifications/signals.py`.
- `Views`: the cart and order endpoints of `product/views.py`, as class `Shop`.
- `NotificationViews`: `notifications/views.py`.

### Behaviour of the code worth knowing

- `add_item` compares only the requested quantity with stock, never what
  the cart already holds (`Serializers.StockCheckIgnoresCart`,
  `Views.Shop.AddFullStockTwice`).
- `CartItem.unit_price` is read live from the variant or product, so a
  price change reaches every cart, and checkout copies the price of the
  moment (`Models.CartPriceFollowsCatalog`).
- The discount cap applies only when the maximum is set and non-zero.
- `update_status` writes any of the seven statuses; there is no
  transition table (`NotificationViews.DeliveredBackToPending`). A
  cancelled order can be reopened as pending and cancelled again, which
  restores its stock a second time (`NotificationViews.ReopenAndCancelAgain`).
- `CartItemSerializer` declares no `quantity` field, so the field is
  generated from `CartItem.quantity`, a `PositiveIntegerField`: it refuses
  negative quantities and quantities above 2147483647 with its own
  messages before `validate_quantity` runs (`Serializers.QuantityField`).
- `ProfileSerializer.Meta.fields` names fields such as `bio`,
  `date_of_birth` and `gender` that `Profile` (accounts/models.py) does
  not have. Building the serializer therefore raises `ImproperlyConfigured`,
  and `ProfileView` never reaches `validate_phone` or
  `validate_date_of_birth`. `Accounts` models the two validators on their
  own.
- The order total is not clamped at zero
  (`Pricing.FixedCouponCanMakeTotalNegative`).
- `validate_coupon` takes `order_amount` from the JSON body as it comes; a
  fractional number arrives as a float, and a percentage coupon then
  multiplies a float by a Decimal, which raises a TypeError
  (`Pricing.FractionalAmountFailsPercentage`).

## Model

| member | source | states |
|---|---|---|
| Models.RoundHalfEven | ecommerce_api/product/models.py:126 | Python's `round` on a Decimal: the result is within 0.5 of the argument, integers map to themselves, and exact halves go to the even neighbour |
| Models.IsOnSale | ecommerce_api/product/models.py:119-121 | on sale iff the compare price is set, non-zero, and above the price |
| Models.DiscountPercentage | ecommerce_api/product/models.py:123-127 | 0 when the product is not on sale; otherwise within 0.005 of the exact markdown `(compare - price) / compare * 100`, i.e. that markdown rounded to two places |
| Models.DiscountPercentageInRange | ecommerce_api/product/models.py:119-127 | for a non-negative price the discount percentage lies between 0 and 100 |
| Models.CouponUseNeverRevalidates | ecommerce_api/product/models.py:360-366 | counting one more use never makes an invalid coupon valid, and a limited coupon whose count reaches its limit is invalid |
| Models.CouponIsValid | ecommerce_api/product/models.py:360-366 | valid iff active, inside its validity window, and either unlimited or used fewer times than its limit |
| Models.CartTotalItems | ecommerce_api/product/models.py:204-206 | the item count of an empty cart is 0 |
| Models.CartTotalPrice | ecommerce_api/product/models.py:208-210 | the total price of an empty cart is 0 |
| Models.UnitPrice | ecommerce_api/product/models.py:228-230 | the variant's price when the line has a variant, else the product's |
| Models.LineTotal | ecommerce_api/product/models.py:232-234 | the unit price times the quantity |
| Models.TotalItemsConcat | ecommerce_api/product/models.py:204-206 | the item count adds up over any split of the lines |
| Models.TotalItemsSetQuantity | ecommerce_api/product/models.py:204-206 | setting one line's quantity to q changes the count by q minus the old quantity |
| Models.TotalItemsRemove | ecommerce_api/product/models.py:204-206 | deleting a line takes exactly its quantity off the count |
| Models.TotalItemsAppend | ecommerce_api/product/models.py:204-206 | appending a line adds its quantity to the count |
| Models.CartPriceFollowsCatalog | ecommerce_api/product/models.py:228-234 | a variant-less line's total is the product's current price times its quantity, so repricing the product reprices the cart |
| Models.TwoPhonesExample | ecommerce_api/product/tests.py:128-144 | two units at 999.99 make 2 items costing 1999.98 |
| Models.VisitorNeverOwnsCustomerCart | ecommerce_api/product/models.py:196-197 | a cart with an empty session key, as a customer's cart has, belongs to no visitor, since session keys are never empty |
| Models.ParseStatusRoundTrip | ecommerce_api/product/models.py:238-246 | the seven status keys and the seven statuses correspond one to one |
| Models.AssignOrderNumber | ecommerce_api/product/models.py:291-297 | an existing number is kept; an empty one is replaced by the draw, which has the shape of ten characters from A-Z and 0-9 |
| Models.OrderNumberStable | ecommerce_api/product/models.py:291-297 | a second save never changes the number the first save assigned |
| Inventory.LineMoves | ecommerce_api/product/views.py:511-530 | one stock move per cart line |
| Inventory.ItemMoves | ecommerce_api/product/views.py:561-567 | one stock move per order item |
| Inventory.Step | ecommerce_api/product/views.py:524-530 | one line's stock update: the variant's stock moves by the quantity whatever `track_inventory` says; without a variant the product's stock moves only if it tracks inventory (the cancel loop at views.py:561-567 is the same step with the sign reversed) |
| Inventory.Shift | ecommerce_api/product/views.py:525-530 | stock moves never add or remove product or variant rows |
| Inventory.ShiftProductAt | ecommerce_api/product/views.py:525-530 | after the moves, a product's stock has moved by the total quantity of its variant-less lines if it tracks inventory, and has not moved otherwise |
| Inventory.ShiftVariantAt | ecommerce_api/product/views.py:525-527 | after the moves, a variant's stock has moved by the total quantity of its lines, whatever `track_inventory` says |
| Inventory.ShiftAt | ecommerce_api/product/views.py:524-530 | the two statements above for every row at once, so no other stock changes |
| Inventory.ShiftRoundTrip | ecommerce_api/product/views.py:560-567 | restoring the moves that were deducted gives back the catalogue exactly |
| Pricing.CouponDiscount | ecommerce_api/product/views.py:429-436 | the percentage or fixed discount, capped at a non-zero maximum: never above the raw discount or the cap, and equal to one of them |
| Pricing.ValidateCoupon | ecommerce_api/product/views.py:409-442 | not found iff the code names no active coupon; not valid iff the active coupon is not valid now; below the minimum iff it is valid and the amount is under a non-zero minimum; a type error iff it passed those and a float amount meets a percentage coupon; otherwise the quote is the capped discount of the amount |
| Pricing.FractionalAmountFailsPercentage | ecommerce_api/product/views.py:412-431 | a valid percentage coupon without minimum quotes the integer amount 60 but fails on the float amount 59.99 |
| Pricing.CappedPercentageExample | ecommerce_api/product/views.py:430-436 | 20% of 50 capped at 5 gives 5 |
| Pricing.CheckoutTotals | ecommerce_api/product/views.py:476-495 | tax is 10% of the subtotal; shipping is 10 below 100 and 0 otherwise; the discount is 0 without a coupon and the capped discount with one; total = subtotal + tax + shipping - discount |
| Pricing.CheckoutIgnoresMinimum | ecommerce_api/product/views.py:482-493 | for a valid coupon and an amount under its minimum, validation answers below-minimum while checkout still applies the capped discount |
| Pricing.CheckoutMatchesValidation | ecommerce_api/product/views.py:482-493 | whatever amount validation accepts, checkout on that subtotal discounts by exactly the quoted amount |
| Pricing.PercentageCouponKeepsTotalNonNegative | ecommerce_api/product/views.py:484-495 | a percentage coupon of at most 100% keeps the total of a non-negative subtotal non-negative |
| Pricing.FixedCouponCanMakeTotalNegative | ecommerce_api/product/views.py:486-495 | a fixed 500 coupon on a 20 subtotal gives a total of -468; no floor is applied |
| Pricing.PhoneOrderExample | ecommerce_api/product/views.py:476-495 | a 999.99 subtotal ships free, with tax 99.999 and total 1099.989 |
| Filters.Keep | ecommerce_api/product/filters.py:57-107 | a filtered queryset holds exactly the rows that satisfy the condition, and no row more often than the input |
| Filters.KeepSplits | ecommerce_api/product/filters.py:102-107 | filtering by a condition and by its negation together give back every row exactly once |
| Filters.LowerIdempotent | ecommerce_api/product/filters.py:75-85 | lower-casing twice is lower-casing once |
| Filters.FilterInStock | ecommerce_api/product/filters.py:57-64 | with true, keeps exactly the products that are untracked or have stock left and are not marked out of stock; with false, returns the input |
| Filters.FilterOnSale | ecommerce_api/product/filters.py:66-73 | with true, keeps exactly the products with a compare price above the price; with false, returns the input |
| Filters.OnSaleFilterAgreesWithProperty | ecommerce_api/product/filters.py:66-72 | every product `is_on_sale` calls on sale passes the filter; for non-negative prices the two agree exactly |
| Filters.FilterSearch | ecommerce_api/product/filters.py:75-86 | a non-empty value keeps exactly the products where it occurs, ignoring case, in the name, description, short description, SKU, category name or brand name; an empty value returns the input |
| Filters.SearchIgnoresCase | ecommerce_api/product/filters.py:79-84 | a search value and its lower-case form match the same products |
| Filters.FilterHasParent | ecommerce_api/product/filters.py:102-107 | keeps exactly the categories whose having a parent equals the value |
| Filters.HasParentSplits | ecommerce_api/product/filters.py:102-107 | the true and false answers split the categories between them |
| Serializers.QuantityField | ecommerce_api/product/models.py:217 | the generated field accepts a quantity unchanged iff 0 <= q <= 2147483647; below 0 it answers the min_value error, above the max_value error |
| Serializers.ValidateQuantity | ecommerce_api/product/serializers.py:145-148 | a quantity is accepted unchanged iff it is positive |
| Serializers.ValidateCartItem | ecommerce_api/product/serializers.py:145-175 | each error iff its condition, in the order field minimum, field maximum, zero quantity, product, variant, variant stock, product stock; accepted data has 0 < q <= 2147483647, is returned unchanged and names existing rows |
| Serializers.UntrackedAlwaysPasses | ecommerce_api/product/serializers.py:171-173 | a product that does not track inventory accepts a quantity without a variant iff the quantity field admits it and it is positive, whatever its stock |
| Serializers.FieldBoundsComeFirst | ecommerce_api/product/models.py:217 | a negative or over-range quantity is refused with the field's own error, before validate_quantity or any catalogue lookup |
| Serializers.StockCheckIgnoresCart | ecommerce_api/product/serializers.py:167-175 | a request for all the remaining stock of a tracked product is accepted; the check reads no cart |
| Serializers.ValidateCartId | ecommerce_api/product/serializers.py:229-246 | accepted iff the cart exists, belongs to the customer or session, and has lines; each of the four errors iff its condition |
| Serializers.KeylessVisitorRejected | ecommerce_api/product/serializers.py:236-239 | a visitor whose session has no key owns no cart |
| Serializers.ValidateCouponCode | ecommerce_api/product/serializers.py:248-257 | accepted unchanged iff empty or naming a coupon valid now; not found and not valid iff their conditions |
| Serializers.ValidateOrderRequest | ecommerce_api/product/serializers.py:217-257 | the request passes iff the cart check passes and the coupon check, when the field is present, passes; otherwise both fields' errors are reported together |
| Accounts.ValidateRegister | ecommerce_api/accounts/serializers.py:19-22 | accepted unchanged iff the passwords match; otherwise the error is keyed `password` |
| Accounts.ValidatePhone | ecommerce_api/accounts/serializers.py:69-72 | accepted unchanged iff empty or starting with `+` |
| Accounts.ValidateDateOfBirth | ecommerce_api/accounts/serializers.py:74-81 | accepted unchanged iff absent or at least 18 * 365 days before today; a future date and a too-recent date get their own messages |
| Accounts.AgeCheckIgnoresLeapDays | ecommerce_api/accounts/serializers.py:79-80 | a birth 6570 days back passes and one 6569 days back fails: the threshold is 18 * 365 days, though eighteen calendar years span at least 6574 |
| Signals.StoredStatus | ecommerce_api/notifications/signals.py:10-19 | the stored status iff the order has a key and a stored row; nothing otherwise |
| Signals.StatusMessage | ecommerce_api/notifications/signals.py:35-44 | the default message is used exactly for a status the table does not list (pending) |
| Signals.StatusMessagesDistinct | ecommerce_api/notifications/signals.py:35-44 | different statuses get different messages |
| Signals.Decimal | ecommerce_api/notifications/signals.py:32 | `str` of a user id is a non-empty string of digits |
| Signals.DecimalRoundTrip | ecommerce_api/notifications/signals.py:32 | the digits read back as the number |
| Signals.OrdersGroup | ecommerce_api/notifications/signals.py:32 | the group name starts with `user_` and ends with `_orders` |
| Signals.OrdersGroupInjective | ecommerce_api/notifications/signals.py:32 | distinct users never share a group (the consumer joins the same name) |
| Signals.OnOrderSaved | ecommerce_api/notifications/signals.py:21-57 | an event iff the order is not new and a prior status is known and differs; its group, type, id, number, old and new status and message are those of the save |
| Signals.UnchangedStatusIsSilent | ecommerce_api/notifications/signals.py:28-29 | saving a stored order with its current status sends nothing |
| Views.FindLine | ecommerce_api/product/views.py:274-279 | the index of the line for (product, variant), or none when no line has that key |
| Views.FindItem | ecommerce_api/product/views.py:301 | the index of the line with the item id, or none when no line has it |
| Views.KeyQtyOfLine | ecommerce_api/product/models.py:222 | with one line per key, a key's quantity is that line's quantity |
| Views.KeyQtySetQuantity | ecommerce_api/product/views.py:306-307 | setting a line's quantity changes only its own key's quantity |
| Views.MergeLine | ecommerce_api/product/views.py:274-284 | `get_or_create` on (cart, product, variant): the existing line's quantity goes up by q, or a line with quantity q is appended under the next id (its effect is stated by Views.MergeLineQuantities) |
| Views.MergeLineQuantities | ecommerce_api/product/views.py:274-284 | merge on add: the added key gains the requested quantity and every other key keeps its quantity |
| Views.MergeLineTotalItems | ecommerce_api/product/views.py:274-284 | merging adds exactly the requested quantity to the cart's item count |
| Views.MergeLineOk | ecommerce_api/product/models.py:222 | merging keeps one line per (product, variant) key, distinct ids and positive quantities; the id counter moves only when a line is created |
| Views.SetQuantityOk | ecommerce_api/product/views.py:305-307 | setting a positive quantity keeps the cart well formed |
| Views.RemoveLineOk | ecommerce_api/product/views.py:302-303 | deleting a line keeps the cart well formed |
| Views.CartOkSameKeys | ecommerce_api/product/views.py:524-530 | stock changes leave every cart well formed |
| Views.CartsOkSameKeys | ecommerce_api/product/views.py:524-530 | the same for the whole cart table |
| Views.CartsOkUpdate | ecommerce_api/product/views.py:263-336 | replacing one cart's lines by well-formed lines keeps the table well formed |
| Views.Resolve | ecommerce_api/product/views.py:246-250 | a visitor without a session key gets a new key; any other requester is kept |
| Views.NewCart | ecommerce_api/product/views.py:243-253 | a created cart is empty and belongs to its owner |
| Views.Snapshots | ecommerce_api/product/views.py:511-522 | one order item per cart line |
| Views.Snapshot | ecommerce_api/product/views.py:512-522 | the order item for a line: product, variant, quantity, the live unit and total price, the product's name and SKU, and the variant's name or the empty string |
| Views.SnapshotsFaithful | ecommerce_api/product/views.py:511-522 | item k copies line k; the item totals add up to the cart's total price; the items' stock moves are the lines' moves |
| Views.ShiftKeepsSnapshot | ecommerce_api/product/views.py:511-530 | deducting stock changes no price, name or SKU, so writing an item after earlier deductions copies the same values |
| Views.CheckoutCoupon | ecommerce_api/product/views.py:482-483 | `if coupon_code:` an absent or empty code applies no coupon; otherwise the coupon of that code |
| Views.UseCoupon | ecommerce_api/product/views.py:492-493 | the applied coupon's use count goes up by one (stated by Views.UseCouponCounts) |
| Views.UseCouponCounts | ecommerce_api/product/views.py:482-493 | only the applied coupon changes, and only its use count, by exactly one; with no coupon nothing changes |
| Views.PlacedOrder | ecommerce_api/product/views.py:498-508 | a new order has no number yet, belongs to the customer, is pending, and its items are the cart's snapshots |
| Views.PlacedOrderTotals | ecommerce_api/product/views.py:476-508 | a placed order is pending and unpaid; its subtotal is the cart total, with 10% tax, shipping under 100, the coupon's capped discount, and total = subtotal + tax + shipping - discount |
| Views.PlacedOrderItems | ecommerce_api/product/views.py:511-522 | one item per line copying product, variant, quantity and the live unit price, with total = unit price * quantity; the item totals add up to the subtotal |
| Views.CreateThenCancelRestoresStock | ecommerce_api/product/views.py:524-567 | cancelling an order restores exactly the stock its checkout deducted |
| Views.Shop.ApplyMove | ecommerce_api/product/views.py:525-530 | one line's stock update; rows and everything else are unchanged |
| Views.Shop.SaveOrder | ecommerce_api/product/models.py:291-297 | `Order.save` with its receivers: the stored row gets the order with its number assigned, and the event is the one decided from the status read before the save |
| Views.Shop.GetOrCreateCart | ecommerce_api/product/views.py:240-254 | returns the owner's existing cart, or a new empty one under the next id when the owner has none |
| Views.Shop.MergeIntoCart | ecommerce_api/product/views.py:274-284 | the cart's lines become the merge of the request; the returned line has the key and the old quantity plus the request |
| Views.Shop.AddItem | ecommerce_api/product/views.py:263-291 | rejects exactly what the validator rejects, leaving the lines alone; otherwise merges the request, returns the merged line, and moves the item id counter only when a line was created |
| Views.Shop.AddFullStockTwice | ecommerce_api/product/views.py:263-291 | a customer without a cart who adds a product's whole stock twice has both adds accepted and ends with one line holding twice the stock (for stock small enough that twice it fits the quantity column) |
| Views.Shop.UpdateItem | ecommerce_api/product/views.py:293-313 | not found and no change when no line has the id; otherwise deletes the line for a quantity of zero or less and sets the quantity for a positive one |
| Views.Shop.RemoveItem | ecommerce_api/product/views.py:315-329 | not found and no change when no line has the id; otherwise deletes exactly that line |
| Views.Shop.Clear | ecommerce_api/product/views.py:331-336 | the picked cart keeps existing with no lines; its item count is 0 |
| Views.Shop.WriteOrderItems | ecommerce_api/product/views.py:510-530 | the loop writes every line's snapshot, taken at the prices before it, and deducts every line's stock |
| Views.Shop.RedeemCoupon | ecommerce_api/product/views.py:482-493 | the coupon table becomes the one with the applied coupon's use counted |
| Views.Shop.RecordOrder | ecommerce_api/product/views.py:498-530 | stores the new order with its drawn number, then writes its items and deducts stock |
| Views.Shop.PlaceOrder | ecommerce_api/product/views.py:473-533 | the order, stock, coupon and cart afterwards are the placed order, the shifted catalogue, the used coupon and the emptied cart |
| Views.Shop.CreateOrder | ecommerce_api/product/views.py:464-544 | succeeds iff the request's fields validate, and then has exactly the effects of placing the order; on an error nothing changes |
| Views.Shop.CancelOrder | ecommerce_api/product/views.py:546-569 | not found for another customer's order; rejected for delivered, cancelled or refunded, with nothing changed; otherwise the order is cancelled, every item's stock restored, the event sent, and coupons untouched |
| Views.Shop.CheckoutThenCancel | ecommerce_api/product/views.py:464-569 | cancelling a fresh order gives back the catalogue from before checkout and announces pending to cancelled |
| NotificationViews.UpdateStatus | ecommerce_api/notifications/views.py:15-34 | not found for another customer's order; an absent or unknown status is rejected with nothing changed; accepted iff the order is the customer's and the status is known, and then written, echoed, and announced iff it differs from the old one |
| NotificationViews.DeliveredBackToPending | ecommerce_api/notifications/views.py:21-23 | a delivered order can be set back to pending, and that change is announced with the default message |
| NotificationViews.ReopenAndCancelAgain | ecommerce_api/notifications/views.py:21-23 | a cancelled order set back to pending is accepted for cancellation again, and the second cancel restores the order's stock once more |

## Left out

- HTTP and DRF plumbing: responses, status codes, permissions, pagination, routing and querysets. Results are `Result` values and error datatypes.
- The `@transaction.atomic` boundary and concurrency. Each endpoint is one method over one in-memory store, and races on stock are not modelled.
- Database column constraints. Stock and stored line quantities are unbounded `int`s, so the database rejecting negative stock, a merged line quantity above 2147483647 in `add_item`, or an out-of-range quantity written by `update_item` is not modelled; only the serializer's generated bounds on a requested quantity are. The upper bound is the one Django gives `PositiveIntegerField`. Money is exact: neither the two-decimal rounding of stored `DecimalField` values nor the `Decimal` context precision is modelled.
- Randomness: the order number is a parameter (`draw`) of the right shape. A draw equal to an existing order's number, which the unique column refuses with an IntegrityError inside the atomic checkout, is not modelled. Session creation: the new session key is a parameter (`newKey`).
- Primary keys: uuid4 and auto-increment ids are modelled as counters.
- `get_or_create`: when several carts match, the model picks one. `MultipleObjectsReturned` is not modelled.
- `slugify`, caching, the websocket transport and consumer, the `group_send` call and the event's timestamp. The event to send is returned as a value.
- Admin, account views and models, `RegisterSerializer.create` and password hashing are not part of this model. Neither are the email uniqueness and password strength checks of the registration fields.
- DRF's `allow_blank=False` on `coupon_code`, which rejects an empty string before `validate_coupon_code` runs. The model passes `""` through, as the validator itself does. The field's default `trim_whitespace`, which strips surrounding blanks from the code before it is validated and looked up, is not modelled either: codes are looked up exactly as given.
- Malformed request bodies:
  - a missing `quantity` in `add_item`;
  - a missing `item_id` or `quantity` in `update_item` and `remove_item`;
  - a non-numeric `order_amount` in `validate_coupon`;
  - `variant_id` 0.
  Ids and quantities are typed values.
- `icontains` folds only ASCII letters. Unicode case folding is not modelled.
- Billing and shipping addresses are opaque strings, not JSON.
- Dates of birth are day numbers and coupon windows are integer times. Calendar and time-zone arithmetic are not modelled.
- Inventory.Step: a move naming a product or variant row that does not exist leaves the catalogue unchanged. Foreign keys rule that case out in the source.
- Views.Shop.CreateOrder: covers only a logged-in customer, because the endpoint requires authentication; the anonymous-session branch of `validate_cart_id` is modelled in `Serializers.ValidateCartId`. The `Cart.DoesNotExist` branch at checkout is unreachable after validation.
- Pricing.ValidateCoupon: a float `order_amount` is taken as its exact value; binary floating-point rounding of the comparison with the minimum is not modelled.
- Models.DiscountPercentage: states the result only to within 0.005 of the exact markdown (two-place rounding). The exact half-even choice is stated by `Models.RoundHalfEven`.
