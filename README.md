# A verified model of an e-commerce REST backend

This project models the core of a Django REST e-commerce backend in Dafny:
- the shopping cart;
- checkout of the cart into an order;
- order listing and the staff status change;
- payment processing through Stripe;
- shipping rates, delivery scheduling and delivery status through Shippo;
- the owner-or-admin permission on payments;
- registration of an account with its profile.

The database is a set of tables (`Tables.Table`). Each table holds rows keyed by an auto-increment primary key, plus the key the next created row receives. Queries without `order_by` are read as listing rows in key order. Money is in integer cents.

Each view is modelled twice:

- **As a function** of the database (`CartViews`, `OrderViews`, `PaymentViews`, `ShippingViews`, `Users`, and `Carts.AddItem`). It returns an `Outcome`: the reply (a success code and value, or a failure and its HTTP status) and the database the view leaves behind. The view's promises are lemmas about these functions:
  - which refusal comes first;
  - what each successful request writes, and what it leaves alone;
  - that a consistent database stays consistent. Consistency means that every foreign key names an existing row and that the one-to-one and unique columns hold (`Models.Consistent`).
- **As a method** of the class `Shop.Store`. Its fields are the tables, and its bodies follow the view's code step by step, including the loops:
  - the total over the cart lines;
  - one order item per line;
  - the payment-platform choices;
  - the rate list.

  Each state-changing method ensures that its reply and new state are exactly those of the view's function.

Adding an item looks up the line for the (cart, product) pair with get-or-create. A pair with several lines, which edits can create (`CartViews.EditMayDuplicateLines`), is refused as MultipleObjectsReturned (500), and the lines are left as they were.

Registration first trims the surrounding whitespace (Python's `str.strip`) from every text field of the request, as the serializer's fields do by default. It validates and saves the trimmed form (`Users.SaveRegistration`). It checks the username only against its declared length of 10: the serializer declares it as a plain `CharField`, and `save` builds the `User` directly. A used username therefore surfaces as the database's unique constraint (500).

The framework runs no request in a transaction, so rows written before a failure stay written. For example, a cart created by an add whose quantity is missing stays in the database. The model keeps these partial writes.

Stripe and Shippo are oracles. What they answer is a parameter of the view: a `StripeOutcome`, a shipment (or `None` when a carrier call raised) and a label transaction. The requests sent to them are recorded in `Shop.Store.gatewayCalls`.

## Model

| member | source | states |
|---|---|---|
| Models.OrderStatusName | orders_app/models.py:8-14 | the stored word of every status but `completed` is one of the five declared order choices |
| Models.ParseOrderStatus | orders_app/models.py:8-14 | a word is accepted exactly when it is one of the five choices, and it then names a status other than `completed` |
| Models.OrderStatusRoundTrip | orders_app/models.py:8-14 | writing a status and validating it back gives the same status exactly for the five declared ones; `completed` does not survive |
| Models.ParseDeliveryStatus | shipping_app/models.py:14-20 | a word is accepted exactly when it is one of the five delivery choices, and the status names it back |
| Models.DeliveryStatusRoundTrip | shipping_app/models.py:14-20 | every delivery status survives a write and a validation |
| Carts.CartOf | cart_app/models.py:7-8 | the key found is a cart of the user; none is found only when no cart belongs to the user |
| Carts.CartOfUnique | cart_app/models.py:8 | with the one-to-one cart field, a cart's user finds exactly that cart |
| Carts.WithCart | cart_app/api/views.py:24 | get-or-create gives the user a cart; an existing cart is kept and the table is unchanged; otherwise exactly one cart is created; one cart per user is preserved |
| Carts.LinesOf | cart_app/models.py:12-13 | the cart's lines are exactly the rows of the line table whose cart is that cart, in key order; the list is empty exactly when no line names the cart |
| Carts.LinesOfUser | orders_app/api/serializers.py:16-19 | the join lists exactly the lines in a cart of the user, in key order; it is empty exactly when no line is in one of the user's carts |
| Carts.DropUserLines | orders_app/api/serializers.py:39 | exactly the lines in a cart of the user are deleted; every other line keeps its key and fields |
| Carts.DropCartLines | cart_app/api/views.py:109-110 | exactly the lines of the cart are deleted; every other line keeps its key and fields |
| Carts.UserLinesAreCartLines | orders_app/api/serializers.py:16 | with one cart per user, the lines joined through the user are the lines of their cart |
| Carts.Matching | cart_app/api/views.py:48 | the lines get-or-create looks at are exactly those with the cart and product; empty exactly when there is none |
| Carts.PutOnlyLine | cart_app/api/views.py:50-55 | saving the only matching line leaves it the only match, with the new quantity; other lines are unchanged |
| Carts.AddKeepsLinesUnique | cart_app/api/views.py:48 | creating a line for a pair that has none never duplicates a (cart, product) pair |
| Carts.UpdateKeepsLinesUnique | cart_app/api/views.py:50-55 | re-saving the only line of a pair never duplicates a pair |
| Carts.AddLineRefusals | cart_app/api/views.py:48-55 | two lines for the pair raise MultipleObjectsReturned with nothing written; a missing quantity fails the int conversion; a total below zero fails the positive-integer column; a new line that fails stays with the default quantity 1 |
| Carts.MergeExisting | cart_app/api/views.py:50-51 | re-saving the existing line leaves exactly one line for the pair with the new quantity, other lines unchanged, no duplicates made |
| Carts.InsertNewLine | cart_app/api/views.py:48 | creating the missing line gives exactly one line for the pair with the default quantity, other lines unchanged, no duplicates made |
| Carts.MergeNew | cart_app/api/views.py:52-55 | a created line saved with q units is the only line of the pair, holding q units (not 1 + q) |
| Carts.AddLineMerges | cart_app/api/views.py:48-55 | a successful write leaves exactly one line for the pair, holding `quantity` more units than the pair held before (0 for a new line); no other line changes |
| Carts.AddLineKeepsLinesUnique | cart_app/api/views.py:48-55 | writing the line never creates a second line for a (cart, product) pair |
| Carts.AddItemEffect | cart_app/api/views.py:37-58 | an unknown product answers 404 with no cart or line written; otherwise the user has a cart (their existing one if any), one cart per user is kept, and lines stay unique; a success answers 200 with the cart's lines, exactly one line for the product holding `quantity` more units, and other lines unchanged |
| CartViews.ShowCartLists | cart_app/api/views.py:19-27 | answers 200 with the user's cart, created when missing (the existing cart otherwise, with nothing written), and exactly that cart's lines in key order; when every line names an existing cart, a freshly created cart has no lines |
| CartViews.ShowCartConsistent | cart_app/api/views.py:24 | showing the cart, which may create it, keeps a consistent database consistent |
| CartViews.EditItemEffect | cart_app/api/views.py:68-79 | 404 for an unknown line and 400 for a form the serializer refuses (a missing cart or product included), both writing nothing; a success answers 200 and rewrites that line alone with the form's cart, product and quantity (the stored quantity when it is omitted); there is no ownership check |
| CartViews.EditMayDuplicateLines | cart_app/api/views.py:72-76 | there is a consistent database with unique lines where an accepted edit makes two lines for one (cart, product) pair |
| CartViews.EditItemConsistent | cart_app/api/views.py:72-76 | an edit keeps a consistent database consistent |
| CartViews.DeleteItemEffect | cart_app/api/views.py:88-94 | 200 exactly for an existing line, and then only that line is gone; 404 otherwise, with nothing written |
| CartViews.DeleteItemConsistent | cart_app/api/views.py:92-93 | a delete keeps a consistent database consistent |
| CartViews.ClearItemsEmpties | cart_app/api/views.py:103-111 | answers 204; the requester has a cart, the cart has no lines, and every line of other carts is kept |
| CartViews.ClearItemsConsistent | cart_app/api/views.py:107-110 | clearing keeps a consistent database consistent |
| Integrity.WithCartConsistent | cart_app/models.py:8 | get-or-create of an existing user's cart keeps the foreign keys and the one-to-one cart field |
| Integrity.AddItemConsistent | cart_app/api/views.py:45-55 | the cart an add may create and every line it writes keep a consistent database consistent |
| Integrity.NewDeliveryConsistent | shipping_app/models.py:22-23 | a new shipping method with a delivery using it keeps the one-to-one delivery-to-method field and the foreign keys |
| Integrity.NewAccountConsistent | users_app/models.py:7 | a new account with an unused username, then its profile, keeps unique usernames and the one-to-one profile field |
| Orders.CartTotal | orders_app/api/serializers.py:21-23 | the accumulation loop computes Σ price × quantity over the lines |
| Orders.ItemsFor | orders_app/api/serializers.py:31-37 | one order item per line, in order, each with the order, the line's product and quantity, and the product's current price |
| Orders.ItemsTotalIsLinesTotal | orders_app/api/serializers.py:21-37 | the created items' Σ price × quantity equals the order's total |
| OrderViews.CheckoutRefusals | orders_app/api/views.py:49-61 | 404 unless the cart is the requester's; 400 unless a declared status is sent; 400 "cart is empty" when the requester has no lines; 500 when their total is negative, since prices have no lower bound and the total column is a positive integer; an order is created exactly when all four checks pass; a refused checkout writes nothing |
| OrderViews.CreateOrderTotal | orders_app/api/serializers.py:21-29 | 201 with a new order row under a fresh key, other orders unchanged; the order is the requester's, `pending` whatever status was sent, and holds Σ price × quantity over their lines; the items add up to that total |
| OrderViews.CreateOrderItems | orders_app/api/serializers.py:31-37 | the order-item table afterwards is the items for the requester's lines (`Orders.ItemsFor`) created one after another for the new order: they take the next keys, one per line, and earlier items stay |
| Orders.ItemsStored | orders_app/api/serializers.py:31-37 | creating those items stores, under the j-th new key, the j-th line's product and quantity at the product's current price |
| OrderViews.CreateOrderEmptiesCart | orders_app/api/serializers.py:16-39 | afterwards the requester has no lines; every line of other users is kept unchanged |
| OrderViews.CheckoutUsesCart | orders_app/api/views.py:51-57 | with one cart per user, the lines checked out are exactly those of the cart named in the request |
| OrderViews.InsertItemsConsistent | orders_app/api/serializers.py:31-37 | creating the items for existing lines, one after another, keeps the database consistent |
| OrderViews.CheckoutConsistent | orders_app/api/serializers.py:13-41 | checkout keeps a consistent database consistent |
| OrderViews.SetOrderStatusEffect | orders_app/api/views.py:63-73 | 403 for non-staff; 404 for a missing order; 400 for a status outside the five choices (the empty word included); an omitted status is a 200 no-op; a valid status replaces any prior one with no transition guard, changes only that order's status, and is never `completed` |
| OrderViews.SetOrderStatusConsistent | orders_app/api/views.py:66-70 | a status change keeps a consistent database consistent |
| Shop.Store.ViewOrders | orders_app/api/views.py:21-30 | 200 with exactly the requester's orders, in key order |
| Shop.Store.RetrieveOrder | orders_app/api/views.py:40-47 | 200 with the order exactly when it exists and is the requester's; 404 otherwise |
| Payments.PlatformValues | payments_app/api/views.py:36-39 | the loop collects the stored value of each platform choice, in order |
| Payments.OnlyStripe | payments_app/models.py:12-14 | the collected values are exactly the platform choices, that is, `stripe` alone |
| Payments.ChargeStatus | payments_app/process_payment.py:9-24 | the helper reports `completed` exactly when the intent was created, `failed` otherwise, and never `pending` |
| Payments.IsOwnerOrAdmin | payments_app/api/permissions.py:6-15 | staff are always allowed; anyone else exactly when they own the payment's order |
| PaymentViews.PayRefusals | payments_app/api/views.py:30-45 | the guards in order: 404 unless the order is the requester's; 400 unless it is pending; 400 without a platform; 400 for a platform other than `stripe`; the view charges exactly when all pass; a refusal writes nothing |
| PaymentViews.PayRecords | payments_app/api/views.py:47-67 | 201 whatever the charge reports; one new payment for the order's total and one transaction, both with the reported status, under fresh keys; every existing payment and transaction keeps its key and fields; the order is completed exactly when the charge went through; no other order changes, and no other table is written |
| PaymentViews.PayOnce | payments_app/api/views.py:31-65 | after a successful charge, the next payment request for the order, with no status change in between, is refused and writes nothing: 400 for the owner, 404 for anyone else |
| PaymentViews.ReopenAfterPay | orders_app/api/views.py:63-73 | after a successful charge, a staff member who sets the order's status back to `pending` makes it chargeable again by its owner |
| PaymentViews.PayRetry | payments_app/api/views.py:31-65 | after a failed charge the order stays pending, so the same request reaches the charge again |
| PaymentViews.RecordChargeConsistent | payments_app/api/views.py:51-65 | recording a charge keeps a consistent database consistent |
| PaymentViews.PayConsistent | payments_app/api/views.py:26-67 | processing a payment keeps a consistent database consistent |
| Shop.Store.ProcessPayment | payments_app/api/views.py:25-67 | behaves as `PaymentViews.Pay`; Stripe is called once, for the order's total, exactly when the view answers 201 |
| Shop.Store.RetrievePayment | payments_app/api/views.py:74-78 | 404 for a missing payment; 200 with it for staff or the owner of its order; 403 otherwise |
| Shipping.AddressComplete | shipping_app/api/views.py:38 | the address passes exactly when all six values are present and non-empty |
| Shipping.RateList | shipping_app/api/views.py:61-70 | one entry per rate, in the shipment's order, each copying the six fields |
| Shipping.RateOptions | shipping_app/api/views.py:61-72 | the loop builds exactly the rate list |
| ShippingViews.RatesEffect | shipping_app/api/views.py:25-72 | 404 unless the order is the requester's; 400 for an incomplete address, with nothing written; once the carrier is asked, a "shippo" method priced at the order's total has been saved under a fresh key, and stays when the carrier fails (500); every existing shipping method keeps its key and fields and no other table is written; success answers 200 with the rate list |
| ShippingViews.RatesConsistent | shipping_app/api/views.py:41-44 | asking for rates keeps a consistent database consistent |
| ShippingViews.ScheduleEffect | shipping_app/api/views.py:82-120 | 404 unless the order is the requester's; 400 without a rate; 500 when the purchase raises; 400 when it does not succeed; all four write nothing; a success saves one shipping method and one pending delivery with the label's tracking number and URL under fresh keys, and answers 201 with them; every existing method and delivery keeps its key and fields and no other table is written |
| ShippingViews.ScheduleConsistent | shipping_app/api/views.py:101-112 | scheduling keeps a consistent database consistent; no two deliveries share a shipping method |
| ShippingViews.SetDeliveryStatusEffect | shipping_app/api/views.py:130-147 | 403 for non-staff; 404 for a missing delivery; 400 for a missing status or one outside the five choices, with nothing written; a valid one replaces any prior status, changes only that delivery, and answers 200 with it |
| ShippingViews.SetDeliveryStatusConsistent | shipping_app/api/views.py:141-142 | a delivery status change keeps a consistent database consistent |
| Shop.Store.GetShippingRates | shipping_app/api/views.py:23-72 | behaves as `ShippingViews.Rates`; the carrier is asked for a shipment exactly when the order is the requester's and the address is complete |
| Shop.Store.ScheduleDelivery | shipping_app/api/views.py:80-120 | behaves as `ShippingViews.Schedule`; a label is bought exactly when the order is the requester's and a rate is named |
| Shop.Store.CheckDeliveryStatus | shipping_app/api/views.py:155-164 | 403 for non-staff; 404 for a missing delivery; otherwise 200 with the delivery; nothing changes |
| Users.Taken | users_app/api/serializers.py:35-40 | a value (the email for the explicit check, the username for the unique constraint at `save`) is free exactly when no account holds it in that column |
| Users.Trim | users_app/api/serializers.py:21-28 | trimming leaves neither end of the text a whitespace character, and leaves nothing exactly when the text is all whitespace |
| Users.TrimKeepsMiddle | users_app/api/serializers.py:21-28 | trimming removes only whitespace, and only from the two ends: the result is the text between a whitespace prefix and a whitespace suffix |
| Users.TrimIdempotent | users_app/api/serializers.py:21-28 | trimming a trimmed text changes nothing |
| Users.RegisterTrims | users_app/api/serializers.py:21-56 | whitespace around the request's text fields never changes the reply or the database: registering the request is registering its trimmed form |
| Users.ProfileFor | users_app/api/serializers.py:42-54 | the profile is linked to the new user and copies every profile field of the form |
| Users.RegisterEffect | users_app/api/serializers.py:21-56 | for the trimmed form: 400 for an invalid form (a text field that is blank after trimming included), including a username longer than 10; 400 "Email already exists!" for a used email; 500 for a used username; all write nothing; otherwise 201 with the new account's key, one non-staff account with the username and email, and one profile for it, under fresh keys; every existing account and profile keeps its key and fields and no other table is written |
| Users.RegisterKeepsEmailsUnique | users_app/api/serializers.py:35-40 | registration never makes two accounts share an email |
| Users.RegisterConsistent | users_app/api/serializers.py:38-54 | registration keeps a consistent database consistent |
| Shop.Store.GetOrCreateCart | cart_app/api/views.py:24 | leaves the cart table as `Carts.WithCart` does and returns the user's cart, the existing one when there was one |
| Shop.Store.ViewCart | cart_app/api/views.py:19-27 | reply and new state are those of `CartViews.ShowCart` |
| Shop.Store.SaveCartLine | cart_app/api/views.py:50-55 | the line table and failure are those of `Carts.SaveLine` |
| Shop.Store.AddCartLine | cart_app/api/views.py:48-55 | the line table and failure are those of `Carts.AddLine` |
| Shop.Store.AddCartItem | cart_app/api/views.py:37-58 | reply and cart tables are those of `Carts.AddItem` |
| Shop.Store.EditCartItem | cart_app/api/views.py:68-79 | reply and new state are those of `CartViews.EditItem` |
| Shop.Store.DeleteCartItem | cart_app/api/views.py:88-94 | reply and new state are those of `CartViews.DeleteItem` |
| Shop.Store.ClearCart | cart_app/api/views.py:103-111 | reply and new state are those of `CartViews.ClearItems` |
| Shop.Store.CreateOrderItems | orders_app/api/serializers.py:31-37 | the loop creates the items of `Orders.ItemsFor` under consecutive keys |
| Shop.Store.SaveOrder | orders_app/api/serializers.py:13-41 | reply and new state are those of `OrderViews.CreateOrder` |
| Shop.Store.Checkout | orders_app/api/views.py:49-61 | reply and new state are those of `OrderViews.CheckoutCart` |
| Shop.Store.ChangeOrderStatus | orders_app/api/views.py:63-73 | reply and new state are those of `OrderViews.SetOrderStatus` |
| Shop.Store.SavePayment | payments_app/api/views.py:51-65 | reply and new state are those of `PaymentViews.RecordCharge` |
| Shop.Store.ChangeDeliveryStatus | shipping_app/api/views.py:128-147 | reply and new state are those of `ShippingViews.SetDeliveryStatus` |
| Shop.Store.Register | users_app/api/serializers.py:21-56 | reply and new state are those of `Users.RegisterAccount`: the request is trimmed, then saved |
| Shop.Store.SaveAccount | users_app/api/serializers.py:30-56 | reply and new state are those of `Users.SaveRegistration` |

## Left out

- Money is in integer cents, so three Decimal behaviours are not modelled:
  - `amount * 100` in the Stripe helper;
  - a total stored in a `PositiveIntegerField` (`orders_app/models.py:17`), whose `int()` conversion drops the cents;
  - the `max_digits` precision of the price and amount columns.
- OrderViews.CreateOrderTotal: the items add up to the stored total only in integer cents. The source stores the total without its cents, so the Decimal item prices can add up to more than it.
- PaymentViews.PayRecords: the payment and the Stripe charge use the stored total. In integer cents that is the lines' total; in the source it is the total without its cents.
- Shop.Store.ProcessPayment: `Payment.payment_method` is not part of the `Payment` row. The view stores the choice tuple left in its loop variable, not the request's platform.
- The payment test posts `payment_method` while the view reads `payment_platform`; the model follows the view.
- The Stripe and Shippo SDKs, the module-level `delivery_shippo` object that each request mutates, and concurrent requests. Carrier answers are parameters. The rates view's address, parcel and shipment calls are one oracle answer; the label purchase is another.
- The `post_save` receiver on `Cart` (cart_app/signals.py:8-27) is left out. It only loops over the lines of a freshly created cart, and a fresh cart has none, so it never writes. users_app/signals.py is not part of this model.
- cart_app/api/serializers.py is not part of this model. The cart item serializer is taken to be a model serializer over cart, product and quantity. Its quantity is optional (the column has a default) and must not be negative (`FormValid`). The cart view answers the cart key and its lines.
- A non-numeric `product_id` or a non-integer `quantity` string. Requests carry an optional number, and an absent quantity is the conversion failure.
- The capitalised choices of the order-status migration; the choices in `orders_app/models.py:8-14` are used.
- Transaction status choices (`success`, `failed`) that the view does not use: a transaction stores the payment status word, as the view writes it.
- Product, brand, category and review CRUD, the admin order list and admin order retrieval, and URL routing.
- Authentication and anonymous requests: every request comes from an existing account. The staff flag is the account's `isStaff`.
- Password hashing, email and phone-number format checks, and `auto_now` timestamps. A registration form needs a non-empty email, password and phone number, and its field lengths and postal-code range are checked.
- An explicit JSON `null` for a field. The edit form's cart and product, the cart-item quantity and the order status are modelled as absent or holding a value; a missing cart or product is refused (400) as the serializer refuses a `null` one. A `null` status in the order-status PATCH (orders_app/api/views.py:67) or a `null` quantity in the cart-item PUT (cart_app/api/views.py:74) is refused with 400 by the serializer, while the model's absent field answers 200.
