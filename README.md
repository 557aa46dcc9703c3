# MERN e-commerce: the commerce core in Dafny

This project models the commerce logic of a MERN shop (MongoDB, Express,
React, Node). The backend keeps three collections: the product catalog,
one cart per user and the order ledger. Here each collection is an
in-memory map keyed by id, held in a class (`Catalog`, `CartStore`,
`OrderLedger`). Each Express handler becomes one method that runs as a
single sequential step over those maps. The method returns a
`Reply` datatype: a status with a body, an error `Message` carrying its
status, or no reply at all.

Modelled parts:

- **Middleware.** `protect` parses the Bearer header, with JWT
  verification as an uninterpreted function parameter. `admin` is the
  admin gate.
- **Product handlers.** Get by id, create with its required-field check,
  update with its truthy-field merge, and delete.
- **Cart handlers.** Get with an empty-cart default. Add-or-update *sets*
  an existing line's quantity or appends a snapshot line. Remove filters
  out every line for a product.
- **Order placement.** Reject an empty list; check every line before any
  write; save the order; decrement stock line by line; delete the buyer's
  cart.
- **Order reads and status changes.** My orders, all orders, view by id
  with the owner-or-admin rule, pay and deliver.
- **Schemas.** Their defaults and required fields.
- **`server.js` CORS check.** The origin callback and its deployment
  regex.
- **Inline cart POST in `server.js`.** It diverges from the router: the
  cart is never saved and nothing is answered.

On the client side, each Redux slice (cart, order, auth, products) is a
class. Its fields are the slice state and each reducer case is a method.
`calculateCartTotals` is a pure fold. The token-guarded thunks are
`Thunks.Guarded`.

`server.js` repeats the router files' handlers inline. On every request
whose caller exists they are the same logic and are modelled once, from
the router files. The inline cart POST diverges on every request and has
its own member (`Server.AddToCartUnsaved`). The two copies also differ
when the caller's user has been deleted; "## Left out" says how.

Placement takes its lines from the request body's `orderItems`, not from
the stored cart, so `OrderRoutes.OrderLedger.Place` takes the request's
lines.

Pay and deliver can be called again on the same order. Each call
overwrites the flag's timestamp (`OrderRoutes.PayAgainOverwrites`).

The placement model exposes one gap. Each line is checked alone against
the product's full stock, but the decrements add up. So an order that
repeats a product id can pass the check and still drive stock below
zero. `OrderRoutes.StockAccounting` gives the exact accounting,
`OrderRoutes.DistinctLinesNeverOverdraw` shows the safe case, and
`OrderRoutes.RepeatedLinesOverdraw` gives a concrete witness.

## Model

| member | source | states |
|---|---|---|
| ProductModel.NewProduct | backend/models/product.js:5-50 | the document is well formed iff name, description, image, brand and category are non-empty; price, countInStock, rating and numReviews default to 0 when undefined; given fields and the owner are kept |
| CartModel.NewCartItem | backend/models/Cart.js:5-26 | a cart line keeps its product, name, image and price; an undefined qty defaults to 1 |
| OrderModel.Order.SchemaValid | backend/server.js:14-32 | the strings the order schema marks `required` (each line's name and image, the four address fields, the payment method) are non-empty, as Mongoose's `required` check on a String demands |
| OrderModel.NewOrder | backend/server.js:22-43 | a new order is unpaid and undelivered, with no paidAt, deliveredAt or payment result; undefined tax, shipping and total prices default to 0; owner, lines, address and payment method are kept |
| AuthMiddleware.Split | backend/middleware/authMiddleware.js:12 | `split(' ')` always yields at least one field; no field holds a space, and the fields joined with single spaces give back the header |
| AuthMiddleware.TokenOf | backend/middleware/authMiddleware.js:12 | the second field exists iff the header holds a space, and a token found this way never holds a space |
| AuthMiddleware.SplitWithoutSpace | backend/middleware/authMiddleware.js:12 | a string without spaces splits into itself alone |
| AuthMiddleware.SplitAtFirstSpace | backend/middleware/authMiddleware.js:12 | splitting `a + " " + b` (a space-free) yields a followed by the fields of b |
| AuthMiddleware.BearerHeaderToken | backend/middleware/authMiddleware.js:9-12 | the header "Bearer t" passes the Bearer test and its token is exactly t |
| AuthMiddleware.BareBearerHasNoToken | backend/middleware/authMiddleware.js:9-30 | a bare "Bearer" header passes the Bearer test but has no token, so the "token failed" branch answers and the "no token" branch then tries to answer too |
| AuthMiddleware.Protect | backend/middleware/authMiddleware.js:5-31 | no header or a non-Bearer header answers "no token"; a verified token attaches the looked-up user (absent if deleted) and passes on; a failed verification answers "token failed"; a falsy token after "Bearer" answers "token failed", and the later "no token" send fails because a reply was already sent; at most one answer reaches the client; the request passes on iff the header is Bearer and its token verifies |
| AuthMiddleware.AdminGate | backend/middleware/authMiddleware.js:34-40 | passes on iff a user is attached and is an admin, otherwise "not authorized as an admin" (403) |
| ProductRoutes.RequiredFieldsPresent | backend/routes/productRoutes.js:47 | a body that passes has a defined non-zero price (a price of 0 is refused as missing) and a defined countInStock (0 is accepted) |
| ProductRoutes.CreatedProduct | backend/routes/productRoutes.js:53-63 | the created product is well formed, owned by the caller, has 0 reviews, rating 0 and exactly the supplied fields |
| ProductRoutes.Merged | backend/routes/productRoutes.js:83-89 | each descriptive field and the price are replaced only by a truthy value; countInStock is replaced whenever defined (0 and negatives included); rating, reviews and owner are kept; well-formedness is preserved |
| ProductRoutes.MergeIdempotent | backend/routes/productRoutes.js:83-89 | applying the same update twice equals applying it once |
| ProductRoutes.MergeOfFalsyBody | backend/routes/productRoutes.js:83-89 | an update with only falsy or undefined fields leaves the product unchanged |
| ProductRoutes.Catalog.constructor | backend/models/product.js:57 | the `Product` collection starts empty, and so every stored product is well formed |
| ProductRoutes.Catalog.GetById | backend/routes/productRoutes.js:23-36 | the stored product with 200 iff the id exists, otherwise exactly "product not found" (404); in a valid catalog the product returned is well formed |
| ProductRoutes.Catalog.Create | backend/routes/productRoutes.js:41-71 | non-admins get 403 and a missing required field gets 400, both with the catalog unchanged; otherwise the created product is stored under the new id and returned with 201; the catalog stays well formed |
| ProductRoutes.Catalog.Update | backend/routes/productRoutes.js:76-100 | non-admins get 403 and an unknown id gets 404, both with nothing changed; otherwise only that product is replaced by its merge with the body and returned with 200 |
| ProductRoutes.Catalog.Delete | backend/routes/productRoutes.js:105-119 | non-admins get 403 and an unknown id gets 404, both with nothing changed; otherwise exactly that product is removed and every other product is kept |
| CartRoutes.IndexOf | backend/routes/cartRoutes.js:62-66 | `findIndex`: the first line for the product, or -1 iff the cart has no line for it |
| CartRoutes.IndexOfFirst | backend/routes/cartRoutes.js:62-66 | when line k is the first line for the product, the search finds k |
| CartRoutes.FindIndex | backend/routes/cartRoutes.js:62-66 | the search loop returns exactly `IndexOf` |
| CartRoutes.SnapshotLine | backend/routes/cartRoutes.js:72-82 | a new line copies the product's name, image and price as they are now, with the requested qty |
| CartRoutes.Upserted | backend/routes/cartRoutes.js:62-83 | if the product has a line, that line's qty is set to qty and its snapshot is kept, the length is unchanged and other lines are untouched; otherwise the snapshot line is appended at the end; one line per product and qty >= 1 are preserved |
| CartRoutes.UpsertSetsNotAdds | backend/routes/cartRoutes.js:68-71 | adding a product twice equals adding it once with the second qty: quantities are set, not summed |
| CartRoutes.WithoutProduct | backend/routes/cartRoutes.js:107 | the filter never grows the list and keeps exactly the lines for other products |
| CartRoutes.WithoutProductLength | backend/routes/cartRoutes.js:106-111 | the length is unchanged iff the cart had no line for the product (the 404 "not in cart" test) |
| CartRoutes.WithoutProductKeepsLinesValid | backend/routes/cartRoutes.js:107 | removing lines keeps one line per product and qty >= 1 |
| CartRoutes.WithoutProductDistributes | backend/routes/cartRoutes.js:107 | filtering distributes over concatenation, so the remaining lines keep their relative order |
| CartRoutes.AddFailure | backend/routes/cartRoutes.js:36-48 | 400 iff productId is falsy or qty is undefined or below 1; then 404 "Product not found." iff the product is unknown; then exactly the stock message naming the product and its available count iff stock < qty; no failure iff all checks pass |
| CartRoutes.CartStore.constructor | backend/models/Cart.js:45 | the `Cart` collection starts empty, and so holds one cart per user with valid lines |
| CartRoutes.CartStore.Get | backend/routes/cartRoutes.js:11-19 | the user's cart, or `{user, cartItems: []}` when there is none |
| CartRoutes.CartStore.AddOrUpdate | backend/routes/cartRoutes.js:36-86 | a failed check answers that failure with the carts unchanged; otherwise the caller's cart (created empty if absent) gets `Upserted` lines and is stored and returned with 200; one cart per user, one line per product and qty >= 1 are preserved |
| CartRoutes.CartStore.Remove | backend/routes/cartRoutes.js:99-114 | no cart gives 404 "cart not found"; no line for the product gives 404 "not in cart", unsaved; otherwise the cart without that product's lines is stored and returned with 200 |
| CartRoutes.CartStore.DeleteCart | backend/routes/orderRoutes.js:63 | exactly the caller's cart is removed (absent is no error), after which the caller's cart reads as empty |
| OrderRoutes.LineFailure | backend/routes/orderRoutes.js:28-34 | a line fails iff its product is missing (404 naming the request's item name) or stock < qty (400 naming the catalog product and its stock); equal stock passes |
| OrderRoutes.FirstFailure | backend/routes/orderRoutes.js:27-35 | no lines means no failure; a failure is always a 404 "product not found: name" or a 400 stock message |
| OrderRoutes.FirstFailureNoneIff | backend/routes/orderRoutes.js:27-35 | validation passes iff every line passes |
| OrderRoutes.FirstFailureIsFirstBadLine | backend/routes/orderRoutes.js:27-35 | a failed validation answers for the first failing line, all earlier lines having passed |
| OrderRoutes.CheckStock | backend/routes/orderRoutes.js:27-35 | the validation loop returns exactly the first line's failure, or none |
| OrderRoutes.Decremented | backend/routes/orderRoutes.js:54-60 | the decrement loop keeps the set of products and changes no field but `countInStock` |
| OrderRoutes.StockAccounting | backend/routes/orderRoutes.js:54-60 | the decrements keep the set of products, and each product's stock drops by exactly the summed qty of its lines, nothing else changing |
| OrderRoutes.QtyOfDistinct | backend/routes/orderRoutes.js:54-60 | with distinct product ids, a product's summed qty is its line's qty |
| OrderRoutes.DistinctLinesNeverOverdraw | backend/routes/orderRoutes.js:27-60 | after a passed validation with distinct product ids, each ordered product drops by its line's qty and ends with stock >= 0 |
| OrderRoutes.RepeatedLineChecksAlone | backend/routes/orderRoutes.js:27-60 | a line that passes alone also passes when repeated, yet the stock ends lowered by twice its qty |
| OrderRoutes.RepeatedLinesOverdraw | backend/routes/orderRoutes.js:27-60 | with one unit in stock, two lines of qty 1 pass validation and the stock ends at -1 |
| OrderRoutes.DecrementStock | backend/routes/orderRoutes.js:54-60 | the decrement loop leaves the catalog equal to the lines' decrements applied in order, skipping vanished products |
| OrderRoutes.MarkPaid | backend/routes/orderRoutes.js:133-140 | the order is paid, at the given time, with the given payment result; nothing else changes, so the schema validation at save still holds iff it held before |
| OrderRoutes.MarkDelivered | backend/routes/orderRoutes.js:162-163 | the order is delivered at the given time; nothing else changes, so the schema validation at save still holds iff it held before |
| OrderRoutes.PayAgainOverwrites | backend/routes/orderRoutes.js:130-143 | paying an already paid order is accepted, and the latest payment and time win |
| OrderRoutes.PayAndDeliverCommute | backend/routes/orderRoutes.js:126-169 | the paid and delivered flags are independent: the two updates commute |
| OrderRoutes.OrderLedger.constructor | backend/server.js:81 | the `Order` collection starts empty, and so every stored order passes the schema |
| OrderRoutes.OrderLedger.Place | backend/routes/orderRoutes.js:12-71 | an empty list gives 400 and a missing list 500; the first failing line gives its failure; a document the schema refuses gives 500; every failure leaves orders, stock and carts unchanged; success iff none of these, and then the order (owner = caller, the request's lines) is stored under the new id and returned with 201, stock is decremented line by line, and the caller's cart is deleted and reads as empty; a ledger whose orders all pass the schema keeps that property |
| OrderRoutes.OrderLedger.MyOrders | backend/routes/orderRoutes.js:76-79 | exactly the orders whose owner is the caller |
| OrderRoutes.OrderLedger.AllOrders | backend/routes/orderRoutes.js:90-98 | every order, with 200, iff the caller is an admin; otherwise exactly "not authorized as an admin" (403) |
| OrderRoutes.OrderLedger.View | backend/routes/orderRoutes.js:104-116 | unknown id gives 404; otherwise the order with 200 iff the caller owns it or is an admin, else exactly "not authorized to view this order" (403) |
| OrderRoutes.OrderLedger.Pay | backend/routes/orderRoutes.js:126-146 | unknown id gives 404 with nothing changed; otherwise that order is marked paid, with no ownership check, and returned with 200; a ledger whose orders all pass the schema keeps that property, so the save cannot fail |
| OrderRoutes.OrderLedger.Deliver | backend/routes/orderRoutes.js:157-169 | non-admins get 403 and an unknown id 404, both with nothing changed; otherwise that order is marked delivered and returned with 200; a ledger whose orders all pass the schema keeps that property, so the save cannot fail |
| OrderRoutes.MyOrdersAreViewable | backend/routes/orderRoutes.js:76-116 | every order in the caller's list is one the caller may view |
| Server.PreviewMatchComplete | backend/server.js:139 | every string the deployment regex denotes passes the matcher |
| Server.PreviewMatch | backend/server.js:139 | a match starts with the deployment prefix and ends in "app", and is never exactly one character longer than the bare deployment host (the optional group is empty or at least two characters) |
| Server.PreviewMatchSound | backend/server.js:139 | every string the matcher passes is one the regex denotes |
| Server.OriginDecision | backend/server.js:145-152 | an origin is allowed iff it is absent or empty, one of the two listed origins, or matched by the regex; otherwise the error names the origin |
| Server.ProductionOriginMatchesRegex | backend/server.js:139-143 | the listed production origin is matched by the regex as well |
| Server.PreviewDeploymentAllowed | backend/server.js:139-152 | a preview origin with a one-word suffix is allowed |
| Server.LooseDotsAllowed | backend/server.js:139-152 | because the dots are unescaped, "https://my-mern-ecommerce-app-n8j5XvercelYapp" is allowed |
| Server.HyphenatedPreviewRefused | backend/server.js:139-152 | a preview suffix holding a second hyphen is refused |
| Server.OtherOriginRefused | backend/server.js:145-152 | an unrelated origin is refused with its error message |
| Server.AddToCartUnsaved | backend/server.js:231-244 | the inline cart POST answers the same failures as the router's; a request passing every check gets no reply and the cart store is not changed |
| Thunks.RejectValue | frontend/src/features/cart/cartSlice.js:25 | the rejected value is the server's message when truthy, else the error's message |
| Thunks.Settle | frontend/src/features/products/productSlice.js:8-14 | a thunk fulfils with the response data iff the request succeeded, else rejects with `RejectValue` |
| Thunks.Guarded | frontend/src/features/cart/cartSlice.js:14-27 | without userInfo or a token the thunk rejects with "Not authenticated. Please log in." before any request; otherwise it settles by the response |
| Thunks.HeaderCarriesToken | frontend/src/features/cart/cartSlice.js:21 | the server's `protect` reads back exactly the token the client's Bearer header carries |
| CartSlice.TotalsOfLine | frontend/src/features/cart/cartSlice.js:5-9 | a single line totals its qty items and qty x price |
| CartSlice.TotalsAppend | frontend/src/features/cart/cartSlice.js:5-9 | the totals of two runs of lines add up |
| CartSlice.CalculateCartTotals | frontend/src/features/cart/cartSlice.js:5-9 | with non-negative quantities the item count is non-negative, and it is zero iff every line's quantity is zero |
| CartSlice.TotalsNonNegative | frontend/src/features/cart/cartSlice.js:5-9 | with non-negative quantities and prices, neither total is negative |
| CartSlice.NormalizeLine | frontend/src/features/cart/cartSlice.js:105-108 | a line's product becomes its plain id; every other field is kept |
| CartSlice.Normalized | frontend/src/features/cart/cartSlice.js:105-108 | the payload's lines, one for one, each normalised |
| CartSlice.NormalizedIsPlain | frontend/src/features/cart/cartSlice.js:105-108 | normalised lines all hold plain ids, and normalising plain lines changes nothing |
| CartSlice.NormalizedTotals | frontend/src/features/cart/cartSlice.js:102-111 | normalising product references does not change the totals |
| CartSlice.CartThunkOutcome | frontend/src/features/cart/cartSlice.js:12-28 | a cart thunk refuses without a token; it fulfils iff authenticated and the request succeeded, with the server's lines and their totals |
| CartSlice.CartState.constructor | frontend/src/features/cart/cartSlice.js:76-82 | the initial state: no lines, zero totals, not loading, no error |
| CartSlice.CartState.ClearCart | frontend/src/features/cart/cartSlice.js:84-90 | every field goes back to the initial state |
| CartSlice.CartState.ClearCartError | frontend/src/features/cart/cartSlice.js:91-93 | only the error changes |
| CartSlice.CartState.Pending | frontend/src/features/cart/cartSlice.js:98-101 | loading and no error, lines and totals untouched, totals still those of the lines |
| CartSlice.CartState.Fulfilled | frontend/src/features/cart/cartSlice.js:102-111 | not loading; lines are the payload's lines normalised; totals are the payload's; the totals are those of the stored lines whenever the payload's were |
| CartSlice.CartState.Rejected | frontend/src/features/cart/cartSlice.js:112-156 | not loading and the error recorded; getCart empties the lines and zeroes the totals, the other two thunks keep them |
| OrderSlice.OrderState.constructor | frontend/src/features/order/orderSlice.js:55-60 | the initial state: no order, not loading, no success, no error |
| OrderSlice.OrderState.ResetOrderState | frontend/src/features/order/orderSlice.js:62-67 | every field goes back to the initial state |
| OrderSlice.OrderState.CreatePending | frontend/src/features/order/orderSlice.js:71-75 | loading, no success, no error; the order is kept |
| OrderSlice.OrderState.CreateFulfilled | frontend/src/features/order/orderSlice.js:76-80 | not loading, success, and the created order stored |
| OrderSlice.OrderState.CreateRejected | frontend/src/features/order/orderSlice.js:81-86 | not loading, no success, the error recorded, the order cleared |
| OrderSlice.OrderState.GetByIdPending | frontend/src/features/order/orderSlice.js:88-91 | loading and no error; success and the order untouched |
| OrderSlice.OrderState.GetByIdFulfilled | frontend/src/features/order/orderSlice.js:92-95 | not loading and the fetched order stored; success untouched |
| OrderSlice.OrderState.GetByIdRejected | frontend/src/features/order/orderSlice.js:96-100 | not loading, the error recorded, the order cleared; success untouched, so an earlier success survives without an order |
| AuthSlice.AuthState.constructor | frontend/src/features/auth/authSlice.js:56-67 | starts with the stored user, not loading, no error, no success |
| AuthSlice.AuthState.ClearAuthError | frontend/src/features/auth/authSlice.js:69-72 | error and success cleared, the user kept |
| AuthSlice.AuthState.CredentialsPending | frontend/src/features/auth/authSlice.js:76-96 | login or register pending: loading, no error, no success, the user kept |
| AuthSlice.AuthState.CredentialsFulfilled | frontend/src/features/auth/authSlice.js:81-101 | login or register fulfilled: not loading, the returned user, success |
| AuthSlice.AuthState.CredentialsRejected | frontend/src/features/auth/authSlice.js:86-107 | login or register rejected: not loading, signed out, the error recorded, no success |
| AuthSlice.AuthState.LogoutFulfilled | frontend/src/features/auth/authSlice.js:108-113 | signed out, not loading, no error, no success |
| ProductSlice.ProductListState.constructor | frontend/src/features/products/productSlice.js:20-24 | the initial state: no products, not loading, no error |
| ProductSlice.ProductListState.ClearProductError | frontend/src/features/products/productSlice.js:27-29 | only the error changes |
| ProductSlice.ProductListState.FetchPending | frontend/src/features/products/productSlice.js:33-36 | loading and no error; the list kept |
| ProductSlice.ProductListState.FetchFulfilled | frontend/src/features/products/productSlice.js:37-40 | not loading and the fetched list stored |
| ProductSlice.ProductListState.FetchRejected | frontend/src/features/products/productSlice.js:41-45 | not loading, the error recorded, the list emptied |

Every auth-slice method also keeps the invariant that a success comes with
a user and nothing loading. Every cart-slice method except `Fulfilled`
keeps the invariant that the stored totals are those of the stored
normalised lines; `Fulfilled` establishes it whenever the payload's totals
were computed from the payload's lines, as `CartThunkOutcome` guarantees.

## Left out

- Database and HTTP plumbing: Mongoose persistence, `populate`, ObjectId casting and Express routing are not modelled. Ids are compared as strings. A malformed id, which makes Mongoose throw a cast error answered 500, is not modelled.
- Storage failures: a failed read or save, each answered 500, is not modelled. This includes the window after the order is saved and before stock and cart are updated, where a failure leaves the order stored with stock or cart not yet updated.
- Concurrency: each handler is one atomic step. Two placements interleaving between the stock check and the decrement (a check-then-act race) are not modelled.
- AuthMiddleware.Protect: the failed second send (`HeadersAlreadySent`) ends the model's account; what Node does with the rejected promise it leaves behind (an unhandled-rejection warning or a crash, depending on the Node version) is not modelled.
- JWT signing and verification, and password hashing: they are foreign calls. Verification is the parameter `jwtVerify`. Token expiry is part of that parameter.
- A deleted user whose token still verifies: `protect` attaches the user as null. Handlers here take the authenticated caller directly, so this path is not modelled. No API route deletes users. In the router files, the cart GET, add and remove handlers and the order create and my-orders handlers throw on `req.user._id`, and their `catch` blocks read `req.user._id` again (cartRoutes.js:21, :88, :116; orderRoutes.js:67, :81). That second throw escapes the async handler, so no reply is sent. The add checks and the order-line checks still answer before the first throw. The order view handler answers 500, because its `catch` does not read the user. The pay handler never reads the user and succeeds with 200. The admin-gated handlers answer 403 through `admin`. In `server.js` the same handlers answer 500, because its `catch` blocks do not read the user.
- User routes (register, login, profile, list users) and the upload routes: they are thin wrappers over password hashing, token signing, database lookups and file I/O.
- GET /api/products (list all): it returns the whole collection and adds nothing to the model.
- Floating point: prices and amounts are whole cents, and display rounding is left out.
- Timestamps: `Date.now()` is a parameter. Mongoose's `createdAt` and `updatedAt` are left out.
- Non-number or null request values: a string qty or a null field is outside the model. Fields are either undefined (None) or of their declared type.
- Undefined order strings: the order request's `shippingAddress` and `paymentMethod`, and each order line's fields, are not optional in the model. An undefined address field or payment method, which the schema refuses at save (500), is represented by the empty string, which the schema refuses the same way.
- CartRoutes.CartStore.AddOrUpdate: does not model Mongoose's validation of cart lines at save. Every stored line is a snapshot of a catalog product, whose required fields the catalog already guarantees.
- CartRoutes.CartStore.Remove: its save re-validates the remaining lines, and that check is not modelled either, for the same reason: removal only drops lines, each a snapshot of a catalog product.
- OrderRoutes.OrderLedger.Place: the order document's own validation (`SchemaValid`) covers only the required strings. Required numbers are assumed present and of the right type.
- Client I/O: axios requests, their URLs and localStorage reads and writes are left out. A thunk's network result is a parameter (`Thunks.Response`), and the stored user is the auth slice constructor's parameter.
- The login, register and logout thunks: they need no token. They are `Thunks.Settle` over the server's reply, and logout always fulfils.
- React components and store wiring: they are presentation and configuration.
