# Pet shop storefront — a verified model of its rules

This project models the rules at the centre of a small pet-shop web store and proves properties of them. The store has a Next.js front end and an Express/Prisma back end, and it takes PIX payments through the AbacatePay gateway. The modelled parts are:

- the browser shopping cart kept in local storage;
- the payment adapter: the deterministic mock gateway, the gateway-to-internal status map, and the webhook decoder with its optional HMAC signature check;
- the order, payment and admin routes, as transitions on an in-memory database;
- the admin order board: the four-state lifecycle, its successor button, and the labels;
- the shipping-zone calculator, the order-total helpers, and the storefront search and featured slice;
- the idempotent database seed.

Money is integer cents throughout. Strings are `seq<char>`.

Modules, one per source file:

- `Wrappers`: `Option`, `Result` and `Reply`. `Reply` is an HTTP answer: `Ok(body)` or `Fail(code, error)`.
- `Strings`: JavaScript truthiness, ASCII lower-casing, `includes` and `slice(0, n)`.
- `Seqs`: a left fold for each `reduce`, and a filter.
- `Db`: the schema's records, and the `Database` class that the route handlers update.
- `Cart`: `frontend/lib/cart.ts`. A `CartStore` class whose field is the parsed local-storage key.
- `PaymentGateway`: `backend/src/lib/payment-gateway.ts`.
- `PaymentRoutes`, `OrderRoutes`, `AdminRoutes`: the three route files.
  - Each handler is a method that `modifies` the database.
  - The method's contract equates its reply and new order map with a pure step function (or, for the webhook, a step relation).
  - The properties are proved about that step function.
- `AdminOrdersPage`: `frontend/app/admin/pedidos/page.tsx`.
- `Shipping`: `backend/src/routes/shipping.ts`.
- `Utils`: `frontend/lib/utils.ts`.
- `Catalog`: the home page `frontend/app/page.tsx`.
- `Seed`: `backend/prisma/seed.ts`. The product loop is a `while` loop proved against the function `Seeded`.

These are parameters rather than modelled code:

- the environment variables (the `Env` record, with `None` for an unset variable);
- `randomUUID`, the id the database generates, and the creation time;
- the real AbacatePay SDK calls;
- HMAC-SHA256 in hex (section 2 of RFC 2104, over SHA-256);
- bcrypt's compare (the new admin's bcrypt hash is an input);
- JWT signing.

These are passed in as values or as functions.

Order creation does no stock check and no decrement (`backend/src/routes/orders.ts:15-49`); the model has no stock logic.

## Model

| member | source | states |
|---|---|---|
| Cart.FirstIndex | frontend/lib/cart.ts:16 | `find` by product id: -1 exactly when no line has the id, otherwise the first line with it |
| Cart.Added | frontend/lib/cart.ts:15-22 | the cart `addToCart` stores, by definition; its meaning is stated by `Cart.AddExisting`, `Cart.AddNew` and `Cart.AddKeepsIdsUnique` |
| Cart.Removed | frontend/lib/cart.ts:29 | the cart `removeFromCart` stores: the lines whose id differs, by definition; its meaning is stated by `Cart.RemoveDropsOnlyThatId` and `Cart.RemoveKeepsIdsUnique` |
| Cart.Total | frontend/lib/cart.ts:55-57 | `calculateTotal` as a left fold of price times quantity from 0; its properties are stated by `Cart.TotalEmpty`, `Cart.TotalAfterAdd`, `Cart.TotalAfterSetQuantity` and `Cart.TotalNonNegative` |
| Cart.ItemCount | frontend/lib/useCart.ts:11 | the badge count as a fold of the quantities from 0; stated by `Cart.ItemCountAfterAdd` |
| Cart.CartStore.GetCart | frontend/lib/cart.ts:8-12 | the stored lines, or the empty cart when nothing is stored |
| Cart.CartStore.AddToCart | frontend/lib/cart.ts:14-24 | the stored cart becomes `Added(old cart, item)`: an existing line's quantity grows, or the item is appended |
| Cart.CartStore.RemoveFromCart | frontend/lib/cart.ts:28-32 | the stored cart becomes the old cart without the lines of that product |
| Cart.CartStore.UpdateCartItem | frontend/lib/cart.ts:34-48 | unknown id: storage untouched; quantity <= 0: same cart as remove; quantity > 0: only the first matching line's quantity is set |
| Cart.CartStore.ClearCart | frontend/lib/cart.ts:50-53 | the key is removed, so `GetCart` returns the empty cart |
| Cart.AddExisting | frontend/lib/cart.ts:16-19 | adding a present product keeps the length, grows that line's quantity by the added quantity, keeps its price, name and position, and leaves every other line as it was |
| Cart.AddNew | frontend/lib/cart.ts:20-21 | adding a new product appends it as the last line, after the old cart unchanged |
| Cart.AddKeepsIdsUnique | frontend/lib/cart.ts:14-24 | unique product ids stay unique after an add |
| Cart.RemoveDropsOnlyThatId | frontend/lib/cart.ts:29 | after a remove no line has the id; a line is kept iff it was in the cart with another id; the result is a subsequence of the cart, in order |
| Cart.RemoveKeepsIdsUnique | frontend/lib/cart.ts:29 | unique product ids stay unique after a remove |
| Cart.RemoveAbsentKeepsCart | frontend/lib/cart.ts:29 | removing a product that is not in the cart stores the cart as it was |
| Cart.SetQuantityKeepsIdsUnique | frontend/lib/cart.ts:43 | setting a line's quantity keeps unique product ids unique |
| Cart.TotalEmpty | frontend/lib/cart.ts:55-57 | the empty cart totals 0 |
| Cart.TotalAfterAdd | frontend/lib/cart.ts:55-57 | an add raises the total by the added quantity times the price of the line it lands in: the cart's price for a known product, the item's own for a new one |
| Cart.TotalAfterSetQuantity | frontend/lib/cart.ts:43 | setting a quantity changes the total by that line's price times the change in quantity, and no more |
| Cart.TotalNonNegative | frontend/lib/cart.ts:55-57 | non-negative prices and quantities give a non-negative total |
| Cart.ItemCountAfterAdd | frontend/lib/useCart.ts:11 | the badge count grows by exactly the added quantity, in both branches of the add |
| PaymentGateway.ShouldUseMock | backend/src/lib/payment-gateway.ts:11-15 | the mock is used exactly when `USE_MOCK_PAYMENT` is "true" or no API key is set |
| PaymentGateway.LastCharLowered | backend/src/lib/payment-gateway.ts:23 | the empty string for an empty id, otherwise exactly the lowered last character |
| PaymentGateway.MockStatus | backend/src/lib/payment-gateway.ts:17-35 | the mock status is always pending, paid or expired |
| PaymentGateway.ForcedStatusWins | backend/src/lib/payment-gateway.ts:18-21 | a `MOCK_PAYMENT_STATUS` of pending, paid or expired is the status for every payment id |
| PaymentGateway.MockStatusByLastChar | backend/src/lib/payment-gateway.ts:23-34 | otherwise the status follows the lowered last character (0-6 pending, 7-8 paid, 9 and a-f expired, anything else pending), checked against a definition by character ranges; the empty id is pending |
| PaymentGateway.MapStatus | backend/src/lib/payment-gateway.ts:46-55 | PENDING to pending, PAID and REFUNDED to paid, EXPIRED and CANCELLED to expired, any other status lowered |
| PaymentGateway.MapStatusIsLowered | backend/src/lib/payment-gateway.ts:54 | a mapped status never holds an upper-case ASCII letter |
| PaymentGateway.MapStatusIdempotent | backend/src/lib/payment-gateway.ts:46-55 | mapping a mapped status changes nothing |
| PaymentGateway.MockPixKey | backend/src/lib/payment-gateway.ts:69 | the mock PIX key is the fixed head, the first 14 characters of the id, then the fixed tail, each stated as text |
| PaymentGateway.CreatePayment | backend/src/lib/payment-gateway.ts:57-79 | in mock mode: a payment under the generated UUID with the mock status, the mock QR code and PIX key; otherwise the SDK's answer for that amount and description |
| PaymentGateway.GetPayment | backend/src/lib/payment-gateway.ts:112-128 | in mock mode: the id echoed, the mock status, and the QR code (the fixed mock data URL) and PIX key present iff the status is pending; otherwise the SDK's answer |
| PaymentGateway.ProcessWebhook | backend/src/lib/payment-gateway.ts:150-177 | succeeds iff the event is "billing.paid" and, when secret, signature and body are all present, the signature equals the HMAC of the body; success is a paid result for `data.id`; a bad signature fails with "Invalid webhook signature" |
| PaymentGateway.WebhookUncheckedDependsOnEventOnly | backend/src/lib/payment-gateway.ts:158 | with any of secret, signature or body missing, only the event name decides |
| PaymentRoutes.ReplyOf | backend/src/routes/payments.ts:49-57 | the reply JSON, by definition: the gateway's id, status, QR code and PIX key, and `isMock` exactly when the mock is in use (`USE_MOCK_PAYMENT` is "true" or no API key); used by both payment reads and writes |
| PaymentRoutes.CreatePaymentStep | backend/src/routes/payments.ts:8-62 | 404 for an unknown order and 400 for an order with a payment id, both with no change; otherwise the reply is `CreatePayment`'s answer for the item subtotal and `Pedido <first 8 chars>` (in mock mode: the generated UUID and its mock status), a gateway failure is 500 with no change, and success writes only that order's payment id and status, taken from the reply |
| PaymentRoutes.GatewayChargedOrderSubtotal | backend/src/routes/payments.ts:31-39 | the gateway is asked for the sum of price times quantity over the order's items, and the stored payment is the gateway's answer |
| PaymentRoutes.PaymentCreatedAtMostOnce | backend/src/routes/payments.ts:27-29 | once a payment is created, any later create request for that order is refused with 400 and changes nothing |
| PaymentRoutes.CreatePaymentKeepsIdsUnique | backend/src/routes/payments.ts:41-47 | a fresh gateway id keeps payment ids unique across orders |
| PaymentRoutes.CreatePaymentHandler | backend/src/routes/payments.ts:8-62 | the route's reply and new orders are those of `CreatePaymentStep`; products and admins are untouched |
| PaymentRoutes.Reconciled | backend/src/routes/payments.ts:82-89 | the orders after the read route stores the gateway's status, by definition; stated by `PaymentRoutes.ReconcileWritesOnlyOnChange` |
| PaymentRoutes.ReconcileWritesOnlyOnChange | backend/src/routes/payments.ts:82-89 | the orders are unchanged iff the stored payment status already equals the gateway's; otherwise only that order's payment status is written |
| PaymentRoutes.GetPaymentStep | backend/src/routes/payments.ts:64-104 | 404 for an unknown order or an order without a payment, with no change; otherwise the reply is `GetPayment`'s answer for the stored payment id, a gateway failure is 500 with no change, and success stores that status only when it differs; no order's status or payment id ever changes |
| PaymentRoutes.GetPaymentIdempotent | backend/src/routes/payments.ts:80-89 | reading twice against the same gateway leaves the orders as reading once |
| PaymentRoutes.GetPaymentKeepsIdsUnique | backend/src/routes/payments.ts:82-89 | reading a payment keeps payment ids unique across orders |
| PaymentRoutes.GetPaymentHandler | backend/src/routes/payments.ts:64-104 | the route's reply and new orders are those of `GetPaymentStep`; products and admins are untouched |
| PaymentRoutes.Simulated | backend/src/routes/payments.ts:127-133 | a simulated status is stored; `paid` also sets PREPARANDO; no other field changes |
| PaymentRoutes.SimulateStep | backend/src/routes/payments.ts:106-140 | a status outside pending/paid/expired is 400 before any lookup; an unknown order is 404 "Order not found" and an order without a payment is 404 "Payment not found for this order", both with no change; success happens exactly for a whitelisted status on an order with a payment |
| PaymentRoutes.SimulateKeepsIdsUnique | backend/src/routes/payments.ts:127-133 | simulating a status keeps payment ids unique across orders |
| PaymentRoutes.SimulatePaymentHandler | backend/src/routes/payments.ts:106-140 | the route's reply and new orders are those of `SimulateStep`; products and admins are untouched |
| PaymentRoutes.MockReadOverwritesSimulatedPaid | backend/src/routes/payments.ts:80-89 | in mock mode a simulated `paid` on an id the mock calls pending is turned back to pending by the next read, while the order stays PREPARANDO |
| PaymentRoutes.MarkPaid | backend/src/routes/payments.ts:160-166 | the webhook update sets the payment status to paid and the status to PREPARANDO, and nothing else |
| PaymentRoutes.SimulatePaidIsMarkPaid | backend/src/routes/payments.ts:131 | simulating `paid` makes the same update as a paid webhook |
| PaymentRoutes.WebhookStep | backend/src/routes/payments.ts:149-169 | the webhook route's outcome as a relation, by definition: 500 on a decoding failure, 404 when no order holds the payment, otherwise an order holding it is marked paid; stated by the webhook lemmas below |
| PaymentRoutes.PaidWebhookIdempotent | backend/src/routes/payments.ts:159-167 | with unique payment ids, a second paid webhook for the same payment changes nothing |
| PaymentRoutes.WebhookDeliveredTwice | backend/src/routes/payments.ts:142-174 | delivering the same decoded webhook twice gives the same orders and the same reply as delivering it once |
| PaymentRoutes.PaidWebhookDeterministic | backend/src/routes/payments.ts:151-153 | with unique payment ids, the `findFirst` choice does not matter: every outcome of a paid webhook is the same |
| PaymentRoutes.WebhookKeepsIdsUnique | backend/src/routes/payments.ts:159-167 | the webhook keeps payment ids unique across orders |
| PaymentRoutes.WebhookHandler | backend/src/routes/payments.ts:142-174 | the reply and new orders satisfy `WebhookStep`: 500 when decoding fails and 404 when no order holds the payment, both with no change; otherwise an order holding the payment is marked paid |
| OrderRoutes.MissingRequired | backend/src/routes/orders.ts:11 | the required-field guard, by definition: a falsy name, e-mail or phone, no address, no items or an empty item list; its use is stated by `OrderRoutes.CreateOrder` |
| OrderRoutes.ToOrderItems | backend/src/routes/orders.ts:24-28 | one order item per requested line, with the same product, quantity and price, in order |
| OrderRoutes.NewOrder | backend/src/routes/orders.ts:15-40 | a created order is PENDENTE with no payment; the contact fields and address are copied; the shipping value is kept as given; the delivery time is kept only when truthy |
| OrderRoutes.CreateOrder | backend/src/routes/orders.ts:7-56 | a falsy name, e-mail or phone, a missing address, or missing or empty items gives 400 with no change; a taken id gives 500; otherwise exactly the new order is inserted |
| OrderRoutes.GetOrder | backend/src/routes/orders.ts:58-84 | 404 exactly for an unknown id; otherwise the stored order |
| OrderRoutes.CreateOrderKeepsPaymentIdsUnique | backend/src/routes/orders.ts:15-40 | a new order holds no payment, so payment ids stay unique |
| OrderRoutes.CreatedOrderIsFound | backend/src/routes/orders.ts:58-74 | an order just inserted is read back as created |
| Db.ParseStatus | backend/src/routes/admin.ts:68 | a string is accepted only when it is an enum member's name, and yields that member |
| Db.ParseStatusName | backend/src/routes/admin.ts:68-70 | every enum member's name is accepted |
| AdminRoutes.Login | backend/src/routes/admin.ts:10-42 | a falsy e-mail or password gives 400; a token is issued iff the admin exists and the password matches, and it signs that admin's id with `SecretOr(JWT_SECRET)`, which falls back to the fixed "secret"; with both fields given, every failure is 401 "Invalid credentials" |
| AdminRoutes.SecretOr | backend/src/routes/admin.ts:34 | the JWT secret, by definition: `JWT_SECRET` when truthy, otherwise the hard-coded fallback "secret"; `AdminRoutes.Login` signs with it |
| AdminRoutes.LoginDoesNotRevealEmails | backend/src/routes/admin.ts:22-30 | an unknown e-mail and a wrong password get the same answer |
| AdminRoutes.InsertByDate | backend/src/routes/admin.ts:55 | inserting into a newest-first list keeps it newest-first and adds exactly that order |
| AdminRoutes.ListOrders | backend/src/routes/admin.ts:44-62 | every order is listed exactly once, newest first |
| AdminRoutes.ListedOnce | backend/src/routes/admin.ts:46-56 | a newest-first list holding each order of the table once has distinct ids and exactly the table's orders |
| AdminRoutes.UpdateStatusStep | backend/src/routes/admin.ts:64-81 | a non-member status gives 400 with no change; an unknown id gives 500 with no change; otherwise any member replaces only that order's status, whatever it was |
| AdminRoutes.UpdateStatusKeepsPaymentIdsUnique | backend/src/routes/admin.ts:72-75 | a status update keeps payment ids unique across orders |
| AdminRoutes.UpdateOrderStatus | backend/src/routes/admin.ts:64-81 | the route's reply and new orders are those of `UpdateStatusStep`; products and admins are untouched |
| AdminOrdersPage.IndexOf | frontend/app/admin/pedidos/page.tsx:95 | `indexOf`: -1 exactly when absent, otherwise the first position |
| AdminOrdersPage.RequestedStatus | frontend/app/admin/pedidos/page.tsx:94-100 | the first three statuses request their successor; ENTREGUE requests nothing; an unknown status requests PENDENTE |
| AdminOrdersPage.CanUpdateStatus | frontend/app/admin/pedidos/page.tsx:135 | the button is shown for any status but ENTREGUE, by definition; stated by `AdminOrdersPage.ButtonShownIffRequestSent` |
| AdminOrdersPage.ButtonShownIffRequestSent | frontend/app/admin/pedidos/page.tsx:135 | the update button is shown exactly when pressing it sends a request |
| AdminOrdersPage.RequestIsAcceptedSuccessor | frontend/app/admin/pedidos/page.tsx:94-100 | for a stored status, the request the button sends is accepted by the PATCH route, and it names the lifecycle successor; none is sent only for ENTREGUE |
| AdminOrdersPage.LifecycleReachesTerminal | frontend/app/admin/pedidos/page.tsx:47 | three presses go from PENDENTE to ENTREGUE; after that nothing is requested |
| AdminOrdersPage.CardTotal | frontend/app/admin/pedidos/page.tsx:131-134 | the card total is the order subtotal, by definition; stated by `AdminOrdersPage.CardTotalByItems` |
| AdminOrdersPage.CardTotalByItems | frontend/app/admin/pedidos/page.tsx:131-134 | the shown total starts at 0 and grows by price times quantity with each item |
| AdminOrdersPage.StatusLabel | frontend/app/admin/pedidos/page.tsx:40-45 | the four statuses get their labels; any other status is shown as it is |
| AdminOrdersPage.PaymentLabel | frontend/app/admin/pedidos/page.tsx:148-152 | shown only for a truthy payment status: paid reads "Pago", pending reads "Pendente", anything else reads "Expirado" |
| Shipping.Calculate | backend/src/routes/shipping.ts:11-27 | a missing ZIP gives 400; otherwise the zone cost of the first five characters, or 2500 for any other prefix |
| Shipping.ZoneCosts | backend/src/routes/shipping.ts:5-9 | prefixes 01310, 04000 and 10000 cost 1000, 1500 and 2000 cents |
| Shipping.CostDependsOnPrefixOnly | backend/src/routes/shipping.ts:19-20 | two ZIPs with the same first five characters cost the same |
| Shipping.ShortZipCostsDefault | backend/src/routes/shipping.ts:19 | a ZIP shorter than five characters is looked up whole and costs the default |
| Utils.OrderSubtotal | frontend/lib/utils.ts:10-15 | `calculateOrderSubtotal` as a left fold of price times quantity from 0; stated by the `Utils` lemmas below |
| Utils.OrderTotal | frontend/lib/utils.ts:3-8 | `calculateOrderTotal` is the same fold over `order.items`, so it equals `OrderSubtotal(order.items)` by definition (no shipping is added) |
| Utils.SubtotalEmpty | frontend/lib/utils.ts:10-15 | the subtotal of no items is 0 |
| Utils.SubtotalAppend | frontend/lib/utils.ts:11-14 | appending an item raises the subtotal by exactly its price times quantity |
| Utils.SubtotalConcat | frontend/lib/utils.ts:10-15 | the subtotal of two lists together is the sum of their subtotals |
| Utils.TotalNonNegative | frontend/lib/utils.ts:3-8 | non-negative prices and quantities give a non-negative order total |
| Strings.Lower | backend/src/lib/payment-gateway.ts:54 | `toLowerCase` on ASCII: same length, each upper-case letter lowered and every other character kept |
| Strings.Contains | frontend/app/page.tsx:26 | `includes`: a prefix match or a match in the tail; stated against positions by `Strings.ContainsIff` |
| Strings.ContainsIff | frontend/app/page.tsx:26 | `includes` holds iff the query occurs at some position of the text |
| Catalog.Matches | frontend/app/page.tsx:25-27 | the search predicate, by definition: the lowered query in the lowered name, or in the lowered description if present; stated against positions by `Catalog.QueryFilter` |
| Catalog.Filtered | frontend/app/page.tsx:23-29 | `filteredProducts`, by definition; stated by `Catalog.NoQueryKeepsList` and `Catalog.QueryFilter` |
| Catalog.Featured | frontend/app/page.tsx:31 | the first six filtered products, or none while nothing is fetched |
| Catalog.NoQueryKeepsList | frontend/app/page.tsx:23-29 | with no or an empty query the fetched list is kept unchanged |
| Catalog.QueryFilter | frontend/app/page.tsx:24-28 | with a query, a product is kept iff the lowered query occurs in its lowered name or description; the result is a subsequence of the fetched list |
| Catalog.FeaturedIsFirstSix | frontend/app/page.tsx:31 | the featured list is the first min(6, n) filtered products |
| Catalog.FeaturedSectionOnlyWithoutQuery | frontend/app/page.tsx:48 | the featured section appears only with no query and some fetched products, and then shows the first six of them |
| Seed.Seeded | backend/prisma/seed.ts:67-77 | the product table after the loop, by definition; stated by the `Seed` lemmas below and by `Seed.RunSeed` |
| Seed.SeedKeepsExisting | backend/prisma/seed.ts:67-77 | rows already present are never modified or removed: the old table is a prefix of the new one |
| Seed.NamesStayPresent | backend/prisma/seed.ts:67-77 | a name present before seeding is present after |
| Seed.SeedAddsEveryName | backend/prisma/seed.ts:67-77 | after the loop every seed product's name is in the table |
| Seed.SeedInsertsOnlyAbsentNames | backend/prisma/seed.ts:72-76 | each inserted row is a seed product whose name was absent when inserted |
| Seed.SeedOverPresentNames | backend/prisma/seed.ts:68-72 | a seed list whose names are all present inserts nothing |
| Seed.SeedProductsIdempotent | backend/prisma/seed.ts:67-77 | seeding twice leaves the same product table as seeding once |
| Seed.UpsertAdmin | backend/prisma/seed.ts:7-14 | the default admin exists afterwards; an existing one is left unchanged; otherwise it is created with the given hash |
| Seed.UpsertAdminIdempotent | backend/prisma/seed.ts:7-14 | a second upsert, with any id and hash, changes nothing |
| Seed.UpsertAdminKeyed | backend/prisma/seed.ts:8 | the admin table stays keyed by e-mail |
| Seed.RunSeed | backend/prisma/seed.ts:6-80 | the script ends with the admin table upserted and the product table equal to `Seeded(old table, seed list)`; orders are untouched |

## Left out

- The server-side `typeof window` guard and `JSON.parse` of the stored cart. The stored cart is the already-parsed `Option<seq<CartItem>>`, so a malformed stored value is not modelled.
- The `cartUpdated` events, the `useCart`/`useAdminAuth` hooks, react-query, and all JSX rendering. They are UI plumbing; only the item count of `useCart` is stated, as `Cart.ItemCount`.
- JavaScript floating-point money, `Number(...)`, `toFixed`, and `Math.round(value * 100)`. Every price, total and shipping value is an integer number of cents.
- Strings.Lower: only ASCII letters are lowered, not the full Unicode mapping of `toLowerCase`. This is exact for the mock status rule and for the gateway's status names. For search it differs on accented capitals. `slice` counts `char`s, not UTF-16 code units.
- PaymentGateway.MapStatus: a status that names a property inherited by a JavaScript object (such as `constructor`) is not modelled. Such a status would read the inherited value instead of being lowered.
- AdminOrdersPage.StatusLabel: the same holds for `statusLabels[order.status] || order.status`; an inherited property name would show the inherited value instead of the raw status.
- The real AbacatePay SDK branches (`backend/src/lib/payment-gateway.ts:81-109`, `130-147`). They are parameters that return a `Result`.
- Thrown errors of Prisma and of `JSON.parse`: these 500 answers are not modelled. They are "Failed to login" (`backend/src/routes/admin.ts:39-41`), "Failed to fetch orders" (`backend/src/routes/admin.ts:59-61`), "Failed to fetch order" (`backend/src/routes/orders.ts:81-83`), "Failed to simulate payment" (`backend/src/routes/payments.ts:136-139`), a webhook body that is not JSON (`backend/src/routes/payments.ts:144`), and an order update that fails after the gateway has charged (`backend/src/routes/payments.ts:41-47`). Only a gateway failure (the `Failure` of the SDK parameter), a failure of `processWebhook` (a bad signature or an unhandled event), a taken order id and an unknown id in the status update reach a 500 in the model.
- PaymentRoutes.WebhookHandler: `data.id` is taken to be a string. An event with no `data.id` would reach `findFirst` with an undefined filter, which Prisma treats as no filter.
- HMAC-SHA256, bcrypt and JWT. They are function parameters, and `backend/src/middleware/auth.ts`, which guards the admin list and PATCH routes, is not part of this model.
- The order in which `findFirst` picks among several orders holding one payment id. The webhook is a relation over every possible choice, and its idempotence is proved under unique payment ids.
- Concurrency between requests. Each handler is one atomic step on the database.
- Product ids, foreign keys and the product route. Order items carry a product id string, and the seed's product rows have no id.
- Stock checking and decrement. The code does neither.
- Console logging and the `Router` mounting. The shipping route is not mounted by the server; it is modelled as the function `Shipping.Calculate`.
