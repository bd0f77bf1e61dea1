# Shop checkout and payment flow, modelled in Dafny

This project models the core of a Django REST shop: the per-user cart, checkout into an
order, order creation from an item list, and reconciliation with the payment provider
(Paystack). Initialize records a pending payment and asks the provider for a checkout page.
Verify and the signed webhook then apply the provider's outcome to the payment and its order.
It also models the schema constraints of the Payment rows and the field merges of the user
serializer.

The store is one value `Storage.Db`:

- products;
- carts, as user ↦ lines;
- orders;
- payments, as reference ↦ payment;
- the webhook log;
- the two auto-increment counters.

`Storage.Store` is a class with the same tables as fields. Each view is modelled twice:

- a pure function `…Spec(db, request…)` that returns the reply and the new store;
- a method on the `Store` that updates the fields in place, as the view does. Its `ensures`
  says that its reply and new state equal the function's.

The function's `ensures`, or the lemmas beside it, state three things:

- every error reply, in the order the view tests for it, as an if-and-only-if;
- that errors leave the store as it was (or with only the lazily created cart);
- what a success changes, and that nothing else changes.

Two errors do change the store, as the code does:

- A signed `charge.success` webhook whose `data` is not an object answers 500, but keeps the
  log record it appended first (`PaymentViews.WebhookLogs`).
- The as-written order creation raises after it has inserted the order row
  (`OrderSerializers.CreateAsWritten`).

Lemmas next to each view prove the properties that span several calls, such as idempotence,
merging and agreement between verify and the webhook. They also prove that the store
invariant `Storage.Consistent` is preserved. The invariant states that:

- every cart line names an existing product, has a positive quantity and an issued id;
- no product appears twice in a cart;
- every order id is below the counter;
- every payment points to an existing order;
- there is at most one payment per order;
- every amount fits `Decimal(10, 2)`.

Money is an integer number of minor units, so `int(order.total_price * 100)` is the total
itself. An id of 0 is falsy and is treated as not given, as `if not product_id` does.

The model follows the code where the code differs from what its comments or its design say:

- Checkout checks stock but does not decrement it (`OrderViews.CheckoutKeepsStockExample`).
  Only the intended `OrderSerializer.create` (`OrderSerializers.CreateSpec`) would decrement
  stock, and with no lower bound (`OrderSerializers.StockCanGoNegative`). As written, that
  create raises before its first decrement for every item list a request can send, so no path
  of the core changes stock (see Findings).
- `add_item` compares the stock with the amount added, not with the line's new quantity
  (`CartViews.AddCanExceedStock`, `CartViews.AddExceedsStockExample`).
- `verify` clears the cart of the user who calls it, while the webhook clears the cart of the
  payment's owner (`PaymentViews.VerifyClearsCallersCart`). For the owner, the two agree
  (`PaymentViews.VerifyAgreesWithWebhookForOwner`).
- `remove_item` is not idempotent: the second call answers 404 (`CartViews.RemoveTwiceFails`).
- `OrderSerializer.create` loops over the raw request items, whose `product` is a plain id, so it cannot create an item keyed `product` (see Findings).

## Model

| member | source | states |
|---|---|---|
| PaymentModels.NewPayment | Payments/models.py:12-18 | a freshly created payment is pending, has no provider id and no payment method, and has the given user, order and amount |
| PaymentModels.NewWebhookRecord | Payments/models.py:26-30 | a new log record is unprocessed and stores the payload and event it was given |
| PaymentModels.DeleteOrder | Payments/models.py:13 | deleting an order removes exactly that order and the payments pointing at it, keeps every other order and payment, and keeps the payment constraints |
| CartViews.GetOrCreateCartSpec | Cart/views.py:17-20 | the user's cart afterwards holds the lines it held before, or none when it was missing; other carts and tables are unchanged; one cart per user; consistency is kept |
| CartViews.FindByProduct | Cart/views.py:50-54 | finds the position of the line for a product, or None exactly when no line has that product |
| CartViews.FindLine | Cart/views.py:82 | finds the position of the line with an id, or None exactly when no line in the cart has that id |
| CartViews.Merge | Cart/views.py:50-58 | get_or_create plus `+=` touches only the product's line: every existing line keeps its id and product, lines of other products are unchanged, and a line with the fresh id and quantity q is appended iff no line had the product |
| CartViews.MergeFacts | Cart/views.py:50-58 | get_or_create plus `+=` adds q units of the product, changes no other product's quantity, and keeps one valid line per product |
| CartViews.AddItemSpec | Cart/views.py:30-61 | 400 "product required" iff the id is missing or falsy; 404 iff the product does not exist; 400 iff the quantity (default 1) is not positive; 400 iff the stock is below the quantity; success iff all four checks pass; errors leave the store unchanged; success changes only carts and the line counter and answers the user's cart |
| CartViews.AddItemSucceeds | Cart/views.py:49-61 | a successful add raises the product's quantity in the user's cart by exactly q; every existing line keeps its id and product, and lines of other products are unchanged; a new line, if any, is appended with the next line id; other carts are left alone and the store stays consistent |
| CartViews.UpdateItemSpec | Cart/views.py:63-93 | the checks in their order (id or quantity missing or falsy; not a number; not positive; line not in this cart, 404; no stock), each as an iff; success iff all five checks pass; the first three write nothing, the last two leave only the lazily created cart; success changes only carts |
| CartViews.UpdateItemSucceeds | Cart/views.py:79-93 | a successful update sets the named line's quantity to exactly q (replacing it), changes no other line or cart, and keeps consistency |
| CartViews.RemoveItemSpec | Cart/views.py:95-113 | 400 iff no item id; 404 iff no line of the user's cart has the id; success iff an id is given and a line of the user's cart has it; success changes only carts |
| CartViews.RemoveItemSucceeds | Cart/views.py:103-113 | a successful remove deletes exactly the line with the id, keeps every other line and cart, and keeps consistency |
| CartViews.ClearSpec | Cart/views.py:115-122 | clear empties the user's cart (creating it if needed), answers an empty cart, and changes nothing else |
| CartViews.AddTwiceMerges | Cart/views.py:50-58 | adding the same product twice leaves a single line for it, holding both quantities |
| CartViews.AddCanExceedStock | Cart/views.py:46-58 | when the cart already holds some of a product, an add that passes the stock check can leave more in the cart than is in stock |
| CartViews.AddExceedsStockExample | Cart/views.py:46-58 | concrete case: stock 5, 3 in the cart, add 3, giving a line of 6 |
| CartViews.RemoveTwiceFails | Cart/views.py:105-110 | removing the same line a second time answers "Item not found" |
| CartViews.ClearIdempotent | Cart/views.py:118-119 | clearing twice gives the same reply and store as clearing once |
| CartViews.AddItemStatuses | Cart/views.py:36-61 | 404 iff the product does not exist; 200 iff every check passes; 400 iff the id is missing, the quantity is not positive or the stock is short |
| CartViews.UpdateItemStatuses | Cart/views.py:70-93 | 404 iff the request is well formed and the cart has no line with the id; 200 iff every check passes; 400 iff a field is missing, the quantity is bad or the stock is short |
| CartViews.RemoveItemStatuses | Cart/views.py:101-113 | 400 iff no item id; 404 iff no line of the cart has it; 200 iff one does |
| CartViews.ClearStatuses | Cart/views.py:115-122 | clear always answers 200 |
| CartViews.GetOrCreateCart | Cart/views.py:17-20 | the method leaves the store as GetOrCreateCartSpec describes and returns the cart's lines |
| CartViews.MyCart | Cart/views.py:22-27 | answers the user's existing lines (none for a new cart) and leaves the store as get-or-create does |
| CartViews.AddItem | Cart/views.py:30-61 | the in-place view gives exactly the reply and store of AddItemSpec |
| CartViews.UpdateItem | Cart/views.py:63-93 | the in-place view gives exactly the reply and store of UpdateItemSpec |
| CartViews.RemoveItem | Cart/views.py:95-113 | the in-place view gives exactly the reply and store of RemoveItemSpec |
| CartViews.Clear | Cart/views.py:115-122 | the in-place view gives exactly the reply and store of ClearSpec |
| OrderViews.FirstShortLine | Orders/views.py:51-55 | the stock loop stops at the first line whose product has less stock than the line asks for; None iff no line is short |
| OrderViews.CartTotal | Orders/views.py:61 | `cart.total_price`, Σ current price × quantity over the lines; it is not negative when no price or quantity is |
| OrderViews.CartTotalIsItemsTotal | Orders/views.py:58-73 | the total stored at checkout equals Σ price × quantity over the order items created, with prices frozen at that moment |
| OrderViews.CheckoutSpec | Orders/views.py:30-80 | "cart empty" iff there is no cart or it has no lines; "shipping info required" iff the address or phone is missing or empty; "not enough stock" iff some line is short, and it names the product and stock of the first short line; every failure writes nothing |
| OrderViews.CheckoutCreatesOrder | Orders/views.py:57-80 | success adds one order under a fresh id, owned by the caller, pending, with the given address and phone; its total is the cart total and equals its items' total; its items are the cart lines one for one; cart, stock and payments are unchanged; consistency is kept |
| OrderViews.CheckoutKeepsStockExample | Orders/views.py:57-75 | concrete checkout: the order has total 20.00 and one item, and the product's stock is still 5 |
| OrderViews.CheckoutStatuses | Orders/views.py:38-80 | 201 iff the cart is non-empty, both shipping fields are given and no line is short; 400 otherwise |
| OrderViews.VisibleOrders | Orders/views.py:17-21 | staff see every order; anyone else sees exactly the orders they own, unchanged |
| OrderViews.CheckStock | Orders/views.py:51-55 | the stock loop returns exactly FirstShortLine of the cart |
| OrderViews.FreezeItems | Orders/views.py:66-73 | the item loop appends one item per cart line, in order, with the price of that moment (FrozenItems), and changes nothing else |
| OrderViews.Checkout | Orders/views.py:30-80 | the two loops (the stock check, then item creation) give exactly the reply and store of CheckoutSpec |
| OrderSerializers.SubmittedTotal | Orders/serializers.py:25 | the `total_price` create computes, with `get(..., 0)` for missing fields: 0 when every entry lacks a price or a quantity, and not negative when no price or quantity is |
| OrderSerializers.StockAfter | Orders/serializers.py:35-38 | the catalog after the intended item loop, one decrement per entry; it has the same products |
| OrderSerializers.CreateSpec | Orders/serializers.py:23-40 | the intended create: the new order takes the next id, the other orders are unchanged, the catalog keeps its products, and carts, payments and the log are untouched |
| OrderSerializers.StockAfterDecrements | Orders/serializers.py:35-38 | after the intended item loop, each product's stock is reduced by the sum of the quantities of the entries naming it, and nothing else about a product changes |
| OrderSerializers.SubmittedTotalIsItemsTotal | Orders/serializers.py:25-33 | when every entry has a price and a quantity, the computed total equals the total of the created order items |
| OrderSerializers.MissingFieldCountsZero | Orders/serializers.py:25 | an entry without a price or without a quantity contributes nothing to the total |
| OrderSerializers.CreateFacts | Orders/serializers.py:23-40 | the intended create (products resolved) adds one order under a fresh id, owned by the requester whatever the client sends, with the given status (pending by default), address and phone; its total is the submitted total and equals its items' total; one item per entry with that entry's product, quantity and price; stock goes down per entry; carts, payments and the log are untouched; consistency is kept |
| OrderSerializers.CreateAsWritten | Orders/serializers.py:23-40 | as written, create raises in the item loop exactly when the item list is non-empty, after the order row is inserted under the next id; that order belongs to the requester, has the submitted total and no items, and the only other change is the order counter |
| OrderSerializers.CreateAsWrittenLeavesItemlessOrder | Orders/serializers.py:30-33 | as written, a non-empty list leaves the intended order without its items, with the submitted total, and the catalog untouched |
| OrderSerializers.CreateAsWrittenExample | Orders/serializers.py:30-38 | items=[{product 4, quantity 3, price 500}], stock 10: as written, an order of 1500 with no items and stock 10; intended, one item and stock 7 |
| OrderSerializers.CreateEmpty | Orders/serializers.py:24-33 | an empty item list gives a total of 0 and no items, and leaves the catalog unchanged |
| OrderSerializers.StockCanGoNegative | Orders/serializers.py:36-38 | in the intended create, stock 1 with an entry for 3 leaves stock -2: nothing bounds the decrement |
| OrderSerializers.CreateItems | Orders/serializers.py:32-38 | the intended item loop appends one item per entry, in order, to the order and leaves the catalog as StockAfter describes |
| OrderSerializers.CreateOrder | Orders/serializers.py:23-40 | the order-then-items loop gives exactly the id and store of CreateSpec and keeps consistency |
| PaymentViews.MarkPaid | Payments/views.py:138-154 | a successful charge sets the payment to success with the provider's id and channel; its order becomes processing; the given user's cart is emptied; every other payment, order, cart and table is unchanged; consistency is kept |
| PaymentViews.MarkPaidIdempotent | Payments/views.py:138-154 | applying the same successful charge twice gives the same store as applying it once |
| PaymentViews.MarkFailed | Payments/views.py:161-163 | a non-success status marks only that payment failed and changes nothing else |
| PaymentViews.Reserved | Payments/views.py:51-59 | before the provider call, exactly one payment is added under the new reference: pending, the caller's, for the order, with the order's total as amount |
| PaymentViews.SentRequest | Payments/views.py:67-76 | a provider request is sent iff every check passed, and it carries the order total in minor units, the reference, the order id, the user id, the email and the callback URL |
| PaymentViews.InitCheck | Payments/views.py:33-59 | the failures before the payment row exists, in their order, each as an iff: invalid data 400; order missing or not the caller's 404; payment already exists 400; and, standing for the database refusing the Decimal(10, 2) insert at line 54 (an uncaught error, whose occurrence depends on the backend), amount does not fit 500; none fails iff all pass |
| PaymentViews.InitializeSpec | Payments/views.py:30-107 | a failing check is answered with nothing written; success iff every check passes and the provider accepts; anything but success leaves the store exactly as before, including the rollback of the reserved payment |
| PaymentViews.RollbackRestores | Payments/views.py:93-103 | deleting the reserved payment after a provider refusal or exception gives back exactly the store from before initialize |
| PaymentViews.InitializeSucceeds | Payments/views.py:82-91 | success stores exactly the reserved pending payment and answers it with its reference and the provider's authorization URL and access code; a refusal answers "failed" with the provider's message or "Unknown error", and an exception answers its message |
| PaymentViews.InitializeKeepsConsistent | Payments/views.py:46-59 | initialize keeps at most one payment per order and every amount within the column |
| PaymentViews.ReservedKeepsConsistent | Payments/views.py:54-59 | the pending payment created once every check passed keeps the store consistent: the only payment of its order, pointing at it, with an amount that fits |
| PaymentViews.InitializeTwiceRefused | Payments/views.py:46-48 | once an order is initialized, a second initialize answers "Payment already exists" and writes nothing |
| PaymentViews.InitializeStatuses | Payments/views.py:35-107 | 200 iff every check passes and the provider accepts; 404 iff the caller owns no such order; 500 iff the amount does not fit the column or the provider call raises; 400 iff the data is invalid, a payment exists or the provider refuses |
| PaymentViews.Initialize | Payments/views.py:30-107 | the in-place view gives exactly the reply and store of InitializeSpec, and the request it sends of SentRequest |
| PaymentViews.VerifySpec | Payments/views.py:109-180 | 400 iff no reference; 404 iff the reference is unknown; "success" iff the transaction status is success, and then the caller's MarkPaid; a failed verification iff another status, and then MarkFailed; a provider refusal iff the reference is stored and the provider refuses, answered with its message or "Unknown error"; an error iff the provider call raises, answered with the exception's text; refusal and error write nothing; consistency is kept |
| PaymentViews.VerifyIdempotent | Payments/views.py:134-168 | verifying the same transaction twice leaves the store as verifying it once |
| PaymentViews.VerifyStatuses | Payments/views.py:114-180 | 200 iff a stored payment's transaction succeeded; 404 iff the reference is unknown; 500 iff the provider call raises; 400 iff the data is invalid, the transaction has another status or the provider refuses |
| PaymentViews.Verify | Payments/views.py:109-180 | the in-place view gives exactly the reply and store of VerifySpec |
| PaymentViews.ProcessCharge | Payments/views.py:231-261 | raises iff `data` is not an object; with no or empty reference, or an unknown one, changes nothing; otherwise it is MarkPaid for the payment's own user; consistency is kept |
| PaymentViews.WebhookStatuses | Payments/views.py:195-229 | 400 iff no signature; 401 iff it does not match; for a matching signature, 500 iff the body is not an object with an event or a charge.success carries non-object data, and 200 otherwise |
| PaymentViews.ProcessSuccessfulCharge | Payments/views.py:231-261 | the in-place method gives exactly the outcome and store of ProcessCharge |
| PaymentViews.WebhookSpec | Payments/views.py:191-229 | 400 iff the signature is missing or empty; 401 iff the HMAC of the body differs; both write nothing; consistency is kept |
| PaymentViews.WebhookLogs | Payments/views.py:209-226 | with a valid signature and an event, exactly one record is appended; it is processed iff the event is charge.success and processing did not raise; the reply is 200 unless processing raised; other events change nothing but the log |
| PaymentViews.WebhookUnstorable | Payments/views.py:210-229 | a body that is not JSON, not an object, or has no event is answered 500 and logs nothing |
| PaymentViews.WebhookReconciles | Payments/views.py:221-258 | apart from the log, an authentic charge.success delivery answers 200 and is the owner's MarkPaid when its data names a payment, and no change otherwise |
| PaymentViews.WebhookIdempotent | Payments/views.py:191-261 | delivering the same webhook twice gives the same reply and leaves payments, orders, carts and products as one delivery does |
| PaymentViews.VerifyAgreesWithWebhookForOwner | Payments/views.py:138-154 | when the payment's owner verifies, verify and the webhook reconcile a success to the same store |
| PaymentViews.VerifyClearsCallersCart | Payments/views.py:149-154 | when another user verifies, the owner's cart keeps its lines and the caller's is emptied, while the webhook empties the owner's and keeps the caller's |
| PaymentViews.Webhook | Payments/views.py:191-229 | the in-place view (log, process, mark processed) gives exactly the reply and store of WebhookSpec |
| UserSerializers.MergeUser | Users/serializers.py:38-39 | every given user field takes the given value; every field not given keeps its old value |
| UserSerializers.MergeProfile | Users/serializers.py:48-49 | every given profile field takes the given value; every other field keeps its old value |
| UserSerializers.MergeUserIdempotent | Users/serializers.py:38-39 | applying the same user data twice is applying it once |
| UserSerializers.MergeUserTwice | Users/serializers.py:38-39 | two successive merges equal one merge of the combined data; the later value of a field wins |
| UserSerializers.MergeProfileEmpty | Users/serializers.py:46-50 | empty profile data leaves the profile unchanged |
| UserSerializers.PasswordAfterUpdate | Users/serializers.py:41-42 | the stored password changes only when a non-empty password is supplied, and then becomes its hash |
| UserSerializers.User.SetPassword | Users/serializers.py:23 | set_password stores the hash of the raw password and changes no other field |
| UserSerializers.User.SetAll | Users/serializers.py:38-39 | the setattr loop leaves the user record equal to MergeUser of the old record and the data, with the password untouched |
| UserSerializers.Profile.SetAll | Users/serializers.py:48-49 | the setattr loop leaves the profile equal to MergeProfile of the old profile and the data |
| UserSerializers.Create | Users/serializers.py:19-32 | the new user has the given fields, blank elsewhere; the password is only its hash; the profile is the signal's profile merged with the profile data |
| UserSerializers.Update | Users/serializers.py:34-52 | the user becomes MergeUser of the old user, the password follows PasswordAfterUpdate, and the profile becomes MergeProfile of the old profile |

## Findings

| source | as written | input that shows it | evidently intended | confidence | as-written member | corrected member |
|---|---|---|---|---|---|---|
| Orders/serializers.py:24-38 | `items_data` is the raw request list (Orders/views.py:24). For an entry keyed `product`, `OrderItem.objects.create(order=order, **item_data)` gets a plain id for the product foreign key and raises; the order row inserted at line 30 stays, with its total but no items, and no stock changes | POST items=[{"product": 4, "quantity": 3, "price": 5.00}] with product 4 in stock 10 (the price is a JSON number; the model writes it as 500 minor units) | each entry's product resolved to its Product row, one item created per entry and the quantity taken off that product's stock | not executed | OrderSerializers.CreateAsWrittenExample | OrderSerializers.CreateFacts |

## Left out

- HTTP and ORM plumbing: serialization of replies, authentication, permissions, routing and `save()` round-trips. Replies are datatypes. HTTP codes are the `…Status` functions, and the `…Statuses` lemmas state which inputs get each code.
- The provider's HTTP calls: the replies to initialize and verify are parameters (`InitReply`, `VerifyReply`), and the request sent is returned as `ProviderRequest`. Parsing the provider's JSON, and its KeyErrors, count as the exception case.
- HMAC-SHA512 and the secret key: the webhook takes the digest function as the parameter `hmac` and compares its result with the header.
- `json.loads` of the webhook body: the parse result is an input (`ParsedBody`). A payload's `event` that is present but not a string is not modelled.
- `uuid.uuid4()`: initialize takes the new reference as a parameter and requires that it is not already in use. This stands for the UNIQUE constraint, which the random reference meets in practice.
- The ids are taken as integers (`Option<int>`): `product_id` in add_item and `item_id` in update_item and remove_item. A request may send a string instead. `"0"` is truthy, so each view would pass its presence check and answer 404 for it, where the model's `Some(0)` is falsy and answers 400. A non-numeric string such as `"abc"` makes `Product.objects.get(id=…)` or `CartItem.objects.get(id=…)` raise ValueError outside any handler: an uncaught 500 (Cart/views.py:39, 82, 106). Neither case is modelled.
- `int()` on a quantity it cannot convert. In add_item nothing is caught, so any refusal is an uncaught 500; the model takes add_item's quantity as an already integral `Option<int>`. update_item catches only ValueError, the 400 `NotNumeric` case. A JSON list or object there makes `int()` raise TypeError, an uncaught 500 that `RawQuantity` does not express.
- The request validators (EmailField, URLField, IntegerField, CharField whitespace trimming): validation failure is a single "invalid" input (`None`).
- Concurrency: each view is one atomic step. Races between two requests, such as two initializes for one order, are not modelled.
- The Cart and Order model classes and `cart.total_price` are not part of this model. The cart total is taken as Σ current product price × quantity.
- Cart lines are kept in insertion order. The serializer's order of `cart.items.all()` is not modelled further.
- OrderItemViewSet, PaymentViewSet.get_queryset and the plain CRUD endpoints of the model viewsets are left out. Only OrderViewSet.get_queryset is modelled (`VisibleOrders`).
- OrderSerializers.CreateOrder: models create as intended, taking each entry's `product` as the already-resolved Product row. As written, the loop receives the raw request list, so the loop raises for any non-empty list before any stock changes; for entries keyed `product` it leaves an order without items (see Findings, `CreateAsWritten`). The method also requires each entry to carry a quantity and a price and to name an existing product: the intended create would raise without them, and that error path is not modelled. The total's `get(..., 0)` defaults are modelled (`MissingFieldCountsZero`).
- OrderSerializers.CreateAsWritten: models entries keyed `product`. An entry keyed `product_id` passes line 33, which creates its item, and then line 36's `item_data['product']` raises KeyError. That leaves an order with one item, a variant not modelled. Stock is not changed in either case.
- A price or quantity that is not a number (so that `*` or `sum` fails before the order is inserted) is not modelled. Whether the request runs in one database transaction, which would undo the order row when the item loop raises, is a setting outside these files. The model takes it to be off, the Django default.
- The user-profile creation signal is not part of this model: the profile that `UserProfile.objects.get(user=user)` finds is a parameter of `Create`. A missing profile (DoesNotExist) is not modelled.
- Password hashing: a stored password is the symbolic `Hashed(raw)`. Salts and the hash algorithm are not modelled.
- The timestamps (`created_at`, `updated_at`) and the `__str__` methods.
