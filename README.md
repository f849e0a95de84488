# A verified model of a microservice shop

This project models, in Dafny, the logic of a small shop split into services:

- a **catalog service**, which stores products and validates and reserves a batch of requested lines (`validateStockBatch`);
- an **order service**, which prices each requested item by asking the catalog, classifies failures, and stores a PENDING order;
- an **auth service**, which registers users with a hashed password and logs them in with a signed token;
- the two **token middlewares** guarding the order and auth services;
- the **React client**: cart, cart page, product card, orders page and session.

Each source file becomes one Dafny module:

| module | source |
|---|---|
| `CatalogService` | catalog-service/src/services/product.service.js |
| `CatalogController` | catalog-service/src/controllers/product.controller.js |
| `OrderService` | order-service/src/services/order.service.js |
| `OrderController` | order-service/src/controllers/order.controller.js |
| `OrderMiddleware` | order-service/src/middleware/auth.middleware.js |
| `AuthMiddleware` | auth-service/src/middleware/auth.middleware.js |
| `AuthService` | auth-service/src/services/auth.service.js |
| `AuthController` | auth-service/src/controllers/auth.controller.js |
| `CartContext` | client/src/context/CartContext.jsx |
| `CartPage` | client/src/pages/CartPage.jsx |
| `OrdersApi` | client/src/api/orders.service.js |
| `ProductCard` | client/src/components/ProductCard.jsx |
| `OrdersPage` | client/src/pages/OrdersPage.jsx |
| `AuthContext` | client/src/context/AuthContext.jsx |

Three modules are shared:

- `Wrappers` holds `Option` and `Result`.
- `Text` holds the string operations the code uses: `startsWith`, `includes`, `split`, `slice(-n)`, ASCII `toUpperCase`, `join`, and number-to-decimal.
- `Http` holds a thrown `Error`, JavaScript truthiness of optional strings, `a || b`, and a reply (a status and a body).

The code is modelled in the form it has:

- The catalog's batch validation is a `ProductStore` class over a `map` of products. It has two loops: a check pass and an update pass. Each loop is proved against a specification function defined on a prefix plus the last line.
- The order service's loop is a method proved against `PriceSpec`, and the orders table is an `OrderStore` class.
- The auth service's users live in a `UserStore` class. `protect` is a method that appends to a response log.
- The client's cart provider, the cart page and the session are classes whose methods apply pure list functions.

Everything else is a pure function with a contract, plus lemmas.

Collaborators are parameters:

- the catalog's `GET /products/:id` answer, per product id;
- `jwt.verify` and `jwt.sign`;
- `bcrypt.hash` and `bcrypt.compare`;
- `encodeURIComponent`;
- the client's HTTP answers.

Prices are integers (cents). Identifiers that start with `_` in JavaScript (`_id`) are named `mongoId` or `id`.

The code does less than its comments and names suggest:

- `createOrder` asks the catalog for each product with a plain GET and never reserves stock. The comment calling its error classification a circuit breaker labels three `if`s; there is no breaker state.
- `validateStockBatch` is a check pass followed by an unconditional decrement pass, not an atomic conditional decrement per line. The model keeps that behaviour and adds the per-line conditional version beside it as a corrected definition.
- `validateBatch` is modelled but is not mounted on any route (catalog-service/src/routes/product.routes.js:3-12).

## Model

| member | source | states |
|---|---|---|
| CatalogService.SelectProductFields | catalog-service/src/services/product.service.js:8-12 | createProduct keeps exactly those of name, description, price and stock that the request body has, each as sent, and no other field |
| CatalogService.ProductStore.CheckPass | catalog-service/src/services/product.service.js:24-51 | the check loop returns exactly the batch specification: the first malformed id, unknown id or short stock fails, ids being looked up whatever the case of their hex digits; otherwise it gives the processed items, carrying the stored id, and their summed total; the store is read only |
| CatalogService.ProductStore.UpdatePass | catalog-service/src/services/product.service.js:53-58 | the decrement loop applies one `-quantity` per line, in order |
| CatalogService.ProductStore.ValidateStockBatch | catalog-service/src/services/product.service.js:24-61 | the result is the batch specification, with case-insensitive id lookup; a failing batch leaves every product as it was; a passing one applies every decrement to the product the id names |
| CatalogService.PrefixFailureDecides | catalog-service/src/services/product.service.js:29-40 | a failing prefix decides the outcome; later lines are not examined |
| CatalogService.CheckBatchPasses | catalog-service/src/services/product.service.js:29-48 | the batch passes iff every line passes on its own; the processed items are then one per line, in order |
| CatalogService.FirstFailingLineDecides | catalog-service/src/services/product.service.js:29-40 | the first failing line in input order decides the error |
| CatalogService.UnknownProductFails | catalog-service/src/services/product.service.js:30-34 | a well-formed id whose lower-case spelling names no stored product, first among the failing lines, fails with "Producto con ID <id> no encontrado", quoting the id as requested |
| CatalogService.MalformedIdFails | catalog-service/src/services/product.service.js:30 | an id that is not 24 hex digits, first among the failing lines, fails with the CastError message of `findById` |
| CatalogService.ShortStockFails | catalog-service/src/services/product.service.js:36-40 | a short-stock line with a well-formed id, first among the failing lines, fails with the message naming product, available stock and requested quantity |
| CatalogService.ValidateSuccess | catalog-service/src/services/product.service.js:42-60 | on success `valid` is true and there is one item per line, with the stored id (`product._id`), the stored name and price, the requested quantity and subtotal = price × quantity; each line's id is well-formed and names a product with enough pre-batch stock; totalPrice is the sum of the subtotals |
| CatalogService.ReserveEffect | catalog-service/src/services/product.service.js:54-58 | the update keeps the set of products and their names and prices; each stock drops by the total quantity of all lines naming it, in any case |
| CatalogService.UnmentionedUnchanged | catalog-service/src/services/product.service.js:54-58 | a product no line names is unchanged |
| CatalogService.RepeatedLinesOverdraw | catalog-service/src/services/product.service.js:36-57 | two lines of 3 against a stock of 5 both pass and leave the stock at -1 |
| CatalogService.NegativeQuantityRaisesStock | catalog-service/src/services/product.service.js:36-57 | a line of -4 passes and raises a stock of 5 to 9 |
| CatalogService.UpperCaseIdFound | catalog-service/src/services/product.service.js:30-48 | a line naming a stored product with its hex digits in upper case passes, and its processed item carries the stored lower-case id |
| CatalogService.ReserveCheckedSound | catalog-service/src/services/product.service.js:29-58 | when the corrected reservation succeeds it agrees with the as-written check and update; every requested total is non-negative; no non-negative stock goes below zero |
| CatalogService.ReserveCheckedKeepsStock | catalog-service/src/services/product.service.js:29-58 | the corrected reservation keeps every stock non-negative |
| CatalogService.ReserveCheckedComplete | catalog-service/src/services/product.service.js:29-58 | the corrected reservation accepts every batch of well-formed, stored, positive-quantity lines whose total demand per product fits the stock |
| CatalogService.ReserveCheckedValid | catalog-service/src/services/product.service.js:29-58 | a batch the corrected reservation accepts has only well-formed, stored ids and positive quantities, and its demand per product fits the stock |
| CatalogService.ReserveCheckedDecides | catalog-service/src/services/product.service.js:29-58 | the corrected reservation succeeds exactly when the lines are valid and the demand fits |
| CatalogService.ReserveCheckedPrefixFailure | catalog-service/src/services/product.service.js:29-58 | in the corrected reservation a failing prefix decides the outcome |
| CatalogService.ProductStore.ReserveBatch | catalog-service/src/services/product.service.js:29-58 | the corrected batch: conditional decrements against the running stock; on failure it restores the snapshot; it preserves non-negative stock |
| CatalogController.GetProducts | catalog-service/src/controllers/product.controller.js:6-13 | 200 with the list iff the service succeeded, else 500 with the message |
| CatalogController.CreateProduct | catalog-service/src/controllers/product.controller.js:17-24 | 201 with the product iff the service succeeded, else 400 with the message |
| CatalogController.GetProductById | catalog-service/src/controllers/product.controller.js:28-43 | 200 with the product; 404 "Producto no encontrado" exactly for no product or an ObjectId cast error; 500 for any other error |
| CatalogController.ValidateBatch | catalog-service/src/controllers/product.controller.js:47-58 | 200 with the result; 409 exactly when the message contains "Stock insuficiente" or "no encontrado"; else 500 |
| CatalogController.CheckBatchErrors | catalog-service/src/services/product.service.js:29-40 | every check-pass error is the error of one of the lines |
| CatalogController.NotFoundIsConflict | catalog-service/src/controllers/product.controller.js:53 | the not-found message is in the 409 class |
| CatalogController.ShortStockIsConflict | catalog-service/src/controllers/product.controller.js:53 | the short-stock message is in the 409 class whatever it names |
| CatalogController.ServiceRejectionsConflict | catalog-service/src/controllers/product.controller.js:47-58 | when every id is well-formed, validateBatch answers 200 on success and 409 for both of the service's rejections (unknown id, short stock) |
| CatalogController.CastMessageNotConflict | catalog-service/src/controllers/product.controller.js:53 | the CastError message is outside the 409 class for every id with no 'k' and no "co" |
| CatalogController.MalformedIdIsServerError | catalog-service/src/controllers/product.controller.js:47-58 | a malformed id, first among the failing lines, draws 500, not 409 |
| CatalogController.MalformedIdExample | catalog-service/src/controllers/product.controller.js:47-58 | the one-line batch naming "p1" draws 500 whatever the store |
| OrderService.PriceItems | order-service/src/services/order.service.js:5-34 | the loop returns exactly the pricing specification; no items gives a total of 0 |
| OrderService.OrderStore.CreateOrder | order-service/src/services/order.service.js:4-47 | the answer is the create specification; a failing item stores nothing; a success appends exactly the new order |
| OrderService.PriceFailurePropagates | order-service/src/services/order.service.js:9-34 | the first failure aborts; later items are not priced |
| OrderService.PriceIntegrity | order-service/src/services/order.service.js:9-22 | pricing succeeds iff every item passes; the total is then Σ catalog price × quantity |
| OrderService.ClientPricesIgnored | order-service/src/services/order.service.js:9-22 | requests that agree on ids and quantities are priced alike, whatever prices the client sent |
| OrderService.PrefixPriced | order-service/src/services/order.service.js:9-22 | a prefix of passing items is priced |
| OrderService.FirstFailingItemDecides | order-service/src/services/order.service.js:9-34 | the first failing item in order decides the error |
| OrderService.ItemErrors | order-service/src/services/order.service.js:13-32 | short stock fails with "Stock insuficiente para el producto: <name>" unchanged by the catch; a 404 fails with "El producto <id> no existe en el catálogo"; ECONNREFUSED with the unavailable message; any other error is re-thrown as is; an item fails iff the lookup failed or stock < quantity |
| OrderService.CreateSpecShape | order-service/src/services/order.service.js:37-44 | an order is created iff every item passes; it is PENDING, with the given id, user and items as sent, and the catalog total; no items gives total 0 |
| OrderController.ErrorReply | order-service/src/controllers/order.controller.js:19-28 | 400 iff the message contains "insuficiente" or "no existe", else 500, with the message |
| OrderController.Create | order-service/src/controllers/order.controller.js:3-29 | with no truthy `id` or `_id`, 401 "Usuario no identificado en el token" whatever the service would do; otherwise 201 with the order iff the service succeeds, else the error's class |
| OrderController.GetOne | order-service/src/controllers/order.controller.js:31-39 | 200 with the order; 404 "Orden no encontrada" iff none; 500 iff an error |
| OrderController.GetAll | order-service/src/controllers/order.controller.js:41-48 | 200 with the list iff success, else 500 |
| OrderController.CreateHandler | order-service/src/controllers/order.controller.js:3-29 | wired to the orders table: an unidentified caller changes nothing; a 201 stores exactly the returned order; any other answer stores nothing |
| OrderController.UnidentifiedSkipsService | order-service/src/controllers/order.controller.js:8-12 | for an unidentified caller any two services give the same 401 |
| OrderController.CallerIdChoice | order-service/src/controllers/order.controller.js:8 | the caller id is `id` when truthy, else `_id`; it is truthy iff one of them is |
| OrderController.StockMessageIsClientError | order-service/src/controllers/order.controller.js:24-26 | the order service's short-stock message answers 400 |
| OrderController.MissingMessageIsClientError | order-service/src/controllers/order.controller.js:24-26 | the catalog-404 message answers 400 |
| OrderController.UnavailableIsServerError | order-service/src/controllers/order.controller.js:24-27 | the catalog-unavailable message answers 500 |
| OrderController.ItemFailureStatus | order-service/src/controllers/order.controller.js:24-27 | a failing item's error answers 400 for short stock and a 404, and 500 for a refused connection |
| OrderController.CreateFirstFailure | order-service/src/controllers/order.controller.js:16-27 | for an identified caller the reply is the class of the first failing item's error |
| OrderMiddleware.VerifyToken | order-service/src/middleware/auth.middleware.js:3-25 | 401 exactly when the header is missing or does not start with "Bearer " (with the space); otherwise there is a second field; `next` with the payload iff that field is non-empty and verifies; 403 "Token inválido o expirado." otherwise, always for an empty token |
| OrderMiddleware.BearerHasSecondField | order-service/src/middleware/auth.middleware.js:6-10 | a header that passes the test always has a token field |
| OrderMiddleware.TokenAfterScheme | order-service/src/middleware/auth.middleware.js:10 | for "Bearer <t>" with no further space the token is exactly t |
| OrderMiddleware.OneOutcome | order-service/src/middleware/auth.middleware.js:6-25 | every path ends in exactly one of 401, 403 or `next`; "Bearer" without the space is refused |
| OrderMiddleware.EmptyTokenRefused | order-service/src/middleware/auth.middleware.js:10-23 | the header "Bearer " draws 403 whatever the verifier accepts |
| AuthMiddleware.Protect | auth-service/src/middleware/auth.middleware.js:3-25 | runs as the statement-by-statement specification; no header gives the single 401 "no hay token"; calling `next` means no response and a user set |
| AuthMiddleware.NextMeansVerified | auth-service/src/middleware/auth.middleware.js:6-17 | `next` is called iff the header passes the prefix test and its second field is non-empty and verifies; then there is no response and req.user is the payload |
| AuthMiddleware.FailedTokenAnswersOnce | auth-service/src/middleware/auth.middleware.js:18-20 | a non-empty token that fails verification draws only 401 "token fallido" |
| AuthMiddleware.PrefixWithoutSpace | auth-service/src/middleware/auth.middleware.js:6 | "Bearerxyz" passes the prefix test |
| AuthMiddleware.DoubleResponse | auth-service/src/middleware/auth.middleware.js:9-25 | a header passing the prefix test with no space draws both 401s, in order |
| AuthMiddleware.BareBearerAnswersTwice | auth-service/src/middleware/auth.middleware.js:9-25 | the header "Bearer" draws two responses |
| AuthMiddleware.ProtectOnce | auth-service/src/middleware/auth.middleware.js:3-25 | corrected: calls `next` exactly when the original does; otherwise exactly one 401, "no hay token" iff there is no token |
| AuthMiddleware.ProtectCorrected | auth-service/src/middleware/auth.middleware.js:3-25 | the corrected middleware does exactly one of: one response, or `next` |
| AuthService.FindByEmail | auth-service/src/services/auth.service.js:12 | finds the first user with the email, or reports that none has it |
| AuthService.Register | auth-service/src/services/auth.service.js:10-34 | fails with 'El usuario ya existe' iff the email is stored; otherwise appends exactly one user with the next id, the given name and email and the password hash(password, salt), and answers id, name, email and the token for the new id |
| AuthService.Login | auth-service/src/services/auth.service.js:36-51 | succeeds iff the email is found and the password matches its hash, answering that user's public fields and token; 'Credenciales inválidas' otherwise |
| AuthService.UserStore.RegisterUser | auth-service/src/services/auth.service.js:10-34 | an existing email adds nothing; otherwise the store and the answer are those of the registration specification |
| AuthService.UserStore.LoginUser | auth-service/src/services/auth.service.js:36-51 | reads the store only and answers the login specification |
| AuthService.SameErrorForBothRejections | auth-service/src/services/auth.service.js:41-50 | unknown email and wrong password give the same error |
| AuthService.RegisterKeepsInvariants | auth-service/src/services/auth.service.js:12-26 | registration keeps emails unique and ids distinct |
| AuthService.RegisterThenLogin | auth-service/src/services/auth.service.js:18-41 | if compare accepts every password against its hash, logging in right after registering succeeds with the same answer |
| AuthController.RegisterReply | auth-service/src/controllers/auth.controller.js:4-13 | 201 on success; 400 iff the message is exactly 'El usuario ya existe'; else 500 |
| AuthController.LoginReply | auth-service/src/controllers/auth.controller.js:15-23 | 200 on success; 401 iff the message is exactly 'Credenciales inválidas'; else 500 |
| AuthController.GetUsers | auth-service/src/controllers/auth.controller.js:24-33 | 200 with every user without the password, in order; 500 on error |
| AuthController.ServiceMessagesMapExactly | auth-service/src/controllers/auth.controller.js:4-23 | against the modelled service, which has no database or bcrypt failure, registration answers only 201 or 400 and login only 200 or 401; each service message is recognised only by its own handler |
| CartContext.Increment | client/src/context/CartContext.jsx:46-50 | entries with the key gain one unit; the others are unchanged |
| CartContext.RemoveFrom | client/src/context/CartContext.jsx:84 | no entry with the key is left; every survivor came from the cart; every entry with another key survives |
| CartContext.SetQuantity | client/src/context/CartContext.jsx:94-98 | entries with the key get the quantity; the others are unchanged |
| CartContext.CartProvider.AddToCart | client/src/context/CartContext.jsx:39-70 | the cart becomes AddTo of the old cart; a valid cart stays valid and its count grows by one |
| CartContext.CartProvider.RemoveFromCart | client/src/context/CartContext.jsx:72-86 | the cart becomes the filtered cart; validity is kept |
| CartContext.CartProvider.UpdateCartQuantity | client/src/context/CartContext.jsx:88-99 | the cart becomes UpdateQuantity of the old cart; validity is kept |
| CartContext.CartProvider.ClearCart | client/src/context/CartContext.jsx:101-107 | the cart is empty, with count and total 0 |
| CartContext.AddExisting | client/src/context/CartContext.jsx:41-58 | adding a present id raises that entry by one; length and other entries are unchanged |
| CartContext.AddNew | client/src/context/CartContext.jsx:59-67 | adding a new id appends the product with quantity 1 |
| CartContext.AddKeepsValid | client/src/context/CartContext.jsx:39-70 | adding keeps keys unique and quantities ≥ 1 |
| CartContext.RemoveAppend | client/src/context/CartContext.jsx:84 | the filter works per entry, so survivors keep their order |
| CartContext.RemoveKeepsValid | client/src/context/CartContext.jsx:84 | removing keeps the cart valid |
| CartContext.UpdateKeepsValid | client/src/context/CartContext.jsx:88-99 | updating keeps the cart valid |
| CartContext.RemoveAbsent | client/src/context/CartContext.jsx:84 | an absent id leaves the cart unchanged |
| CartContext.UpdatePositive | client/src/context/CartContext.jsx:94-98 | a positive quantity sets the matching entry and nothing else |
| CartContext.CountAppend | client/src/context/CartContext.jsx:110-116 | appending adds the entry's quantity to the count and price × quantity to the total |
| CartContext.IncrementCount | client/src/context/CartContext.jsx:46-50 | raising the one matching entry adds 1 to the count |
| CartContext.AddCount | client/src/context/CartContext.jsx:39-70 | in a valid cart, adding a product adds exactly one to cartCount |
| CartPage.HandleIncrement | client/src/pages/CartPage.jsx:13-15 | entries with the item's key get its quantity plus one, the others are unchanged; the length is kept |
| CartPage.HandleDecrement | client/src/pages/CartPage.jsx:17-21 | never changes the length; a quantity of 1 or less changes nothing; otherwise every entry with the item's key gets the quantity minus one and every other entry is unchanged |
| CartPage.HandleRemove | client/src/pages/CartPage.jsx:23-25 | no entry with the item's `_id \|\| id` is left |
| CartPage.ErrorText | client/src/pages/CartPage.jsx:57-59 | response message, else response error, else the fixed default; never empty |
| CartPage.Page.ConfirmPurchase | client/src/pages/CartPage.jsx:27-72 | an empty cart sends nothing and changes nothing; otherwise it sends the cart's lines and sets isProcessing true then false; success empties the cart; failure keeps it and shows the error text |
| CartPage.IncrementOne | client/src/pages/CartPage.jsx:13-15 | incrementing raises the entry by one and nothing else |
| CartPage.DecrementKeeps | client/src/pages/CartPage.jsx:17-21 | decrementing never removes an entry, keeps validity, lowers only a quantity above 1, and leaves every other entry unchanged |
| CartPage.KeyOnlyAt | client/src/context/CartContext.jsx:84 | in a valid cart an entry's key occurs nowhere else |
| CartPage.RemoveOne | client/src/pages/CartPage.jsx:23-25 | removing an entry by its own key drops exactly that entry |
| OrdersApi.ToOrderLines | client/src/api/orders.service.js:5-8 | one line per cart entry, in order, with productId `_id \|\| id` and the entry's quantity |
| OrdersApi.PricesNeverSent | client/src/api/orders.service.js:5-8 | carts that differ only in name, price, stock or image send the same request |
| ProductCard.StockLabel | client/src/components/ProductCard.jsx:60 | 'Sin stock' exactly when out of stock, otherwise "Stock: " followed by the stock in decimal |
| ProductCard.ButtonLabel | client/src/components/ProductCard.jsx:82 | 'Agotado' exactly when out of stock, else 'Agregar' |
| ProductCard.ImageUrl | client/src/components/ProductCard.jsx:8 | the image when set, else the placeholder URL with the encoded name |
| ProductCard.HandleAddToCart | client/src/components/ProductCard.jsx:10-14 | adds only when stock ≠ 0; otherwise the cart is unchanged |
| ProductCard.NegativeStockIsLow | client/src/components/ProductCard.jsx:7-35 | the low-stock badge shows iff stock ≠ 0 and stock ≤ 5; negative stock is low and can be added |
| ProductCard.GateKeepsCartValid | client/src/components/ProductCard.jsx:10-14 | the gate keeps the cart valid and adds one unit exactly when in stock |
| OrdersPage.FormatOrderIdShape | client/src/pages/OrdersPage.jsx:62-64 | the last six characters (all if shorter), upper-cased |
| OrdersPage.FormatOrderIdIdempotent | client/src/pages/OrdersPage.jsx:62-64 | formatting twice equals formatting once |
| OrdersPage.ProductName | client/src/pages/OrdersPage.jsx:80 | the product's name, else its id, else 'Producto'; never empty |
| OrdersPage.Entry | client/src/pages/OrdersPage.jsx:80-81 | each entry is the product name, then " x", then the quantity in decimal |
| OrdersPage.Entries | client/src/pages/OrdersPage.jsx:79-82 | one "<name> x<quantity>" entry per item, in order |
| OrdersPage.SummaryEmptyExactly | client/src/pages/OrdersPage.jsx:76-83 | the summary is 'Sin items' exactly when items are missing or empty |
| OrdersPage.StatusBadge | client/src/pages/OrdersPage.jsx:30-52 | COMPLETED → Completado, CANCELLED → Cancelado, anything else → the PENDING entry |
| OrdersPage.LoadOrders | client/src/pages/OrdersPage.jsx:15-28 | `data.orders`, else the list `data`, else `[]` for an empty body; a failed request or a null body keeps the previous orders and sets the error; loading ends false |
| OrdersPage.FromService | order-service/src/services/order.service.js:37-44 | a stored order has `totalAmount` and no `totalPrice`, and its status shows as that status's badge |
| OrdersPage.TotalAlwaysZero | client/src/pages/OrdersPage.jsx:201 | every order the service creates is shown with total 0 |
| OrdersPage.TotalShownAsZeroExample | client/src/pages/OrdersPage.jsx:201 | two units at 1500 are stored as 3000 and shown as 0 |
| OrdersPage.CorrectedTotalIsCatalogTotal | client/src/pages/OrdersPage.jsx:201 | reading `totalAmount` shows the service's catalog total |
| AuthContext.SessionUser | client/src/context/AuthContext.jsx:61 | `res.user` when present, else the submitted object |
| AuthContext.Session.CheckLogin | client/src/context/AuthContext.jsx:23-49 | no stored token: only loading goes false; a stored token sets the Bearer header and authenticates without verification; user untouched |
| AuthContext.Session.Signin | client/src/context/AuthContext.jsx:54-85 | a failure is re-thrown with no state change; no token gives undefined and no change; a token is stored and set as header, and the user (res.user, else credentials) is authenticated |
| AuthContext.Session.Signup | client/src/context/AuthContext.jsx:87-119 | the same rules, with the form as fallback user |
| AuthContext.Session.Logout | client/src/context/AuthContext.jsx:121-131 | token and header removed, user null, not authenticated |
| AuthContext.SigninKeepsCredentials | client/src/context/AuthContext.jsx:58-62 | against the auth service's answer, which has no `user`, the session user is the submitted credentials, password included |

## Left out

- HTTP, Express and database wiring. Mongoose and Prisma calls are modelled by what they return, and route tables and the API gateway are not modelled. `getAllProducts`, `getProductById`, `getOrderById` and `getAllOrders` of the services are direct database calls. Their outcomes are the inputs of the handler functions.
- The createdAt-descending order of `getAllOrders` is left out.
- CatalogService.IsObjectId: an id casts when it is 24 hexadecimal digits, in either case. It is then looked up in lower case, the spelling a stored `_id` prints, so the store's keys are taken to be in that spelling. Other forms some bson versions accept, such as 12-byte strings, are not modelled. The CastError text is Mongoose's, with the model name `Product`, which is the name the service imports; the model file is not part of this model.
- AuthController.ServiceMessagesMapExactly: rejections of `User.findOne`, `User.create`, `bcrypt.genSalt`, `bcrypt.hash` and `bcrypt.compare` are not modelled, so the 500 branches of `register` and `login` are reached only by messages the modelled service never raises.
- MalformedIdIsServerError: covers ids with no 'k' and no "co". A malformed id that itself spells "no encontrado" or "Stock insuficiente" draws 409. Ids in between are not classified.
- Mongoose schema validation and `req.body` fields that are missing. A missing `items` in `createOrder` or `validateStockBatch` makes the `for…of` throw a TypeError, which becomes a 500. The model takes the items as a sequence.
- Concurrency: the gap between the check and update passes, concurrent order creation, and overselling. Only effects within one batch are modelled.
- `createOrder` only reads the catalog. The catalog is a function parameter, and `CreateOrder` modifies only the orders table.
- OrderService.OrderStore.CreateOrder: order ids are positions in the table, and `createdAt` is not modelled.
- Floating point: prices and totals are integers. `toFixed` and `toLocaleDateString` formatting are left out, and `DisplayedTotal` is a number.
- `encodeURIComponent` is a parameter. `toUpperCase` is modelled on ASCII letters only.
- jsonwebtoken and bcrypt are parameters. `AuthMiddleware.Decode` fixes only that a missing or empty token is rejected before verification. The token's payload `{ id }` and its one-hour expiry live inside the signer. `bcrypt.genSalt` is a parameter.
- AuthService.Register: user ids are positions in the store, standing in for Mongo ObjectIds.
- AuthService.FindByEmail: `findOne` finds the first user in store order.
- Toasts, `navigate`, `setTimeout` and the localStorage sync effects of the cart are not modelled. Neither is the unreachable `catch` of `checkLogin`, whose `try` cannot throw.
- OrdersPage.StatusBadge: a status naming an `Object.prototype` property (`"constructor"`) would select that property instead of the PENDING entry. The model treats every unknown string as unknown.
- The Express behaviour of the second response in `protect` (it throws "headers already sent") is not modelled. The log records both attempts.
- OrdersApi.ToOrderLines: `undefined` ids are kept as `None`. JSON serialization, which drops them, is not modelled.

## Findings

| source | as written | input that shows it | evidently intended | confidence | as-written member | corrected member |
|---|---|---|---|---|---|---|
| catalog-service/src/services/product.service.js:36-57 | each line is checked against the stock before the batch, and repeated ids are not summed | stock 5 for a well-formed id p; lines p×3, p×3: both pass and stock ends at -1 | the batch's demand per product must fit the stock | not executed | CatalogService.RepeatedLinesOverdraw | CatalogService.ReserveCheckedDecides |
| catalog-service/src/services/product.service.js:36-57 | quantities are not required to be positive | stock 5 for a well-formed id p; line p×-4: passes and stock rises to 9 | only positive quantities reserve stock | not executed | CatalogService.NegativeQuantityRaisesStock | CatalogService.ReserveCheckedValid |
| client/src/pages/OrdersPage.jsx:201 | the page reads `order.totalPrice`, but orders are stored with `totalAmount` | one item of 2 × 1500: stored total 3000, shown 0.00 | show the stored `totalAmount` | not executed | OrdersPage.TotalShownAsZeroExample | OrdersPage.CorrectedTotalIsCatalogTotal |
| auth-service/src/middleware/auth.middleware.js:9-25 | a header passing the "Bearer" prefix test without a second field draws both 401s | header "Bearer" | one 401 per request | not executed | AuthMiddleware.BareBearerAnswersTwice | AuthMiddleware.ProtectCorrected |
