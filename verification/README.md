# Online store cart core, in Dafny

This project models the cart and order core of the Go online store API:

- the product, client and order repositories;
- the cart repository's read and add operations;
- the cart service that the HTTP handler calls.

The repositories talk to a GORM database handle. Here that handle is a class, `Store.DbClient`, that holds:

- the tables (clients, carts, catalog, product-in-cart rows, orders);
- a fixed set of failing queries, which plays the part of the test mock's `.Return(err)`;
- the record of every call made, in order;
- the id that `FirstOrCreate` gives a new cart.

A single-record lookup fails when its query is in the failing set or when no record matches. A listing (`Find` of a cart's rows) fails only when its query is in the failing set, so an empty cart lists successfully.

Each repository is a class that holds the handle. A read-only operation may change only the call record (`modifies db`calls`), so the frame alone proves that it writes nothing. Each repository operation is specified against pure functions of the tables and the failing set:

- the result (`GetCartResult`, `GetProductsFromOrderResult`);
- the error (`AddProductToCartError`, `CreateOrderError`);
- the calls issued, in order (`GetCartCalls`, `AddProductToCartCalls`, `CreateOrderCalls`, `GetProductsFromOrderCalls`);
- the tables written (`AddProductToCartTables`).

The lemmas then state what the code promises about those functions:

- assembly keeps exactly the products whose own lookup succeeded, in row order;
- a product that was added shows up at the end of the cart that is read afterwards;
- a read never creates a cart;
- for a client with no earlier order, an order placed on a cart holds exactly that cart's products.

Each error carries its exact Go message (`Errors.Message`), and distinct errors have distinct messages.

The cart repository's Go source is only an empty stub (internal/repository/cart_repository.go). Its behaviour is taken from its tests (test/internal/repository/cart_repository_test.go). Those tests fix:

- which calls are made, and in which order;
- the call that stops each path;
- every error string.

The error strings for products are exactly the product repository's. So `PgCartRepository` is built on a `PgProductRepository` over the same handle.

Where the code, its types and its tests disagree, this model follows the code:

- `CreateOrder` takes a cart id but never uses it. The order always goes on the client's own cart.
- `GetProductsFromOrder` passes its order id to the store in a way that does not select an order (order_repository.go:139). In the model the order id never changes the answer (`OrderIdDoesNotSelect`); which order comes back is a modelling choice, listed under "Left out".
- The product record the cart service reads has a category with a label (cart_service.go:73), which internal/models/product.go does not declare. `Models.Product` carries that category.
- `GetCartResponse` declares its products as catalog records (internal/models/response/get_cart_response.go). The service fills it with the response records that `parseProducts` builds, and the model follows the service.
- The service tests (test/internal/services/cart_service_test.go) call operations and fields that cart_service.go does not have. The model follows cart_service.go.

## Model

| member | source | states |
|---|---|---|
| Errors.NatDecimal | internal/repository/order_repository.go:33 | Go's `%v` of a non-negative id is its canonical decimal: one or more digits, no leading zero unless the id is 0, a single digit exactly when the id is below ten, and the digits denote the id (`DigitsValue` of the rendering is the id) |
| Errors.Decimal | internal/repository/order_repository.go:33 | Go's `%v` of an id is its canonical decimal: a '-' exactly when the id is negative, then one or more digits with no leading zero unless the magnitude is 0, reading back as the id (`SignedValue` of the rendering is the id) |
| Errors.NatDecimalInjective | internal/repository/order_repository.go:104 | two non-negative ids with the same rendering are equal |
| Errors.DecimalInjective | internal/repository/order_repository.go:141 | two ids with the same rendering are equal, so a message names exactly one client |
| Errors.Message | internal/repository/order_repository.go:33-141 | the text of each error, character for character: "client with id: %v not found" (order_repository.go:33), "the cart has no products" (order_repository.go:49), "cart for client id: %v not found" (order_repository.go:91), "Unable to create order for clientId: %v" (order_repository.go:104), "order for clientId: %v not found" (order_repository.go:141), "unable to find the product in our db" (product_repository.go:41), "unable to retrieve the list of products" (product_repository.go:49), "cart not found! unable to create new cart" (cart_repository_test.go:302), "unable to add product to the cart" (cart_repository_test.go:390); its properties are `MessageInjective` and `MessageNamesClient` |
| Errors.MessageNamesClient | internal/repository/order_repository.go:88-144 | each message that names a client ("client with id: %v not found", "cart for client id: %v not found", "Unable to create order for clientId: %v", "order for clientId: %v not found") holds the id's rendering between its fixed head and tail, and that field reads back as the client's id |
| Errors.MessageInjective | internal/repository/order_repository.go:88-144 | two errors with the same message text are the same error, client id included |
| Store.FirstIndex | internal/repository/order_repository.go:88-94 | `First` with "client_id = ?" picks the client's record with the lowest primary key; the carts table is held in ascending id order (`WellFormed`), so that is the first index whose client matches, or the table's length when none does (used for carts and, as a modelling choice, for orders) |
| Store.FirstIndexAppend | test/internal/repository/cart_repository_test.go:222-228 | a record appended for a client that had none is the one the lookup then finds |
| Store.RowsOfCart | internal/repository/product_repository.go:46-52 | a cart's listed rows are no more than the table's rows |
| Store.RowsOfCartMembers | internal/repository/product_repository.go:46-52 | a row is listed for a cart exactly when it is in the table and names that cart |
| Store.RowsOfCartAppend | test/internal/repository/cart_repository_test.go:244-259 | a created row is appended to its own cart's listing and leaves every other cart's listing unchanged |
| Store.EnsuredCartIsFound | test/internal/repository/cart_repository_test.go:222-228 | after `FirstOrCreate`, `First` finds exactly the cart `FirstOrCreate` answered with |
| Store.NextFreeCartId | test/internal/repository/cart_repository_test.go:222-228 | the id a new cart receives is above every existing cart id |
| Store.Resolved | internal/repository/product_repository.go:54-63 | assembly returns no more products than there are rows |
| Store.LookupCalls | internal/repository/product_repository.go:54-63 | assembly makes exactly one product lookup per row, the i-th for the i-th row's product |
| Store.ResolvedSameCatalog | internal/repository/product_repository.go:54-63 | assembly depends on the catalog only, never on carts, rows or orders |
| Store.ResolvedIsOrderedFilter | internal/repository/product_repository.go:54-63 | the assembled list is the products of exactly the rows whose lookup succeeds, in row order (a strictly increasing choice of positions) |
| Store.ResolvedAllFailing | test/internal/repository/product_repository_test.go:63-84 | when every lookup fails, the result is the empty list, not an error |
| Store.ResolvedAllFound | test/internal/repository/product_repository_test.go:13-43 | when every lookup succeeds, there is one product per row, each the one found for its row |
| Store.OneMissingProductIsDropped | internal/repository/product_repository.go:55-61 | a cart with rows for P1 and P2, where only P1 resolves, yields just [P1] |
| Store.ResolvedAppend | internal/repository/product_repository.go:54-63 | assembling a concatenation assembles each part; a skipped row never disturbs the others |
| Store.DbClient.FindClientById | internal/repository/client_repository.go:22 | the client lookup is recorded, and it succeeds exactly when the client exists and the query does not fail |
| Store.DbClient.FirstCartByClient | internal/repository/order_repository.go:89 | the cart lookup is recorded, and it answers the client's first cart unless the query fails |
| Store.DbClient.FindRowsByCart | internal/repository/product_repository.go:47 | the rows listing is recorded, and it answers the cart's rows unless the query fails |
| Store.DbClient.FindProductById | internal/repository/product_repository.go:38 | the product lookup is recorded, and it answers the catalog entry unless it is missing or the query fails |
| Store.DbClient.FindOrderByClient | internal/repository/order_repository.go:139 | the order lookup is recorded, and it answers the client's first order unless the query fails |
| Store.DbClient.FirstOrCreateCartByClient | test/internal/repository/cart_repository_test.go:222-228 | `FirstOrCreate` is recorded; unless it fails, it answers the client's cart, appending a new one only when the client has none; the store stays well formed |
| Store.DbClient.CreateProductCart | test/internal/repository/cart_repository_test.go:244-250 | `Create` of a row is recorded; unless it fails, the row is appended and nothing else changes, so the store stays well formed |
| Store.DbClient.CreateOrder | internal/repository/order_repository.go:102 | `Create` of an order is recorded; unless it fails, the order is appended and nothing else changes |
| ProductRepository.PgProductRepository.FindProductsFromCart | internal/repository/product_repository.go:23-34 | fails with "unable to retrieve the list of products" exactly when the listing fails, with no product lookup after it; otherwise answers the assembled list after one listing and one lookup per row |
| ProductRepository.PgProductRepository.FindProductById | internal/repository/product_repository.go:36-44 | one lookup; answers the catalog entry exactly when it exists and the lookup does not fail, else "unable to find the product in our db" |
| ProductRepository.PgProductRepository.FindListOfProductsForCartId | internal/repository/product_repository.go:46-52 | one listing; answers the cart's rows, or "unable to retrieve the list of products" exactly when the listing fails |
| ProductRepository.PgProductRepository.FindProductsFromProductCartsList | internal/repository/product_repository.go:54-63 | the loop issues one lookup per row, in order, and keeps exactly the found products (`Resolved`) |
| ClientRepository.PgClientRepository.IsClientInDataBase | internal/repository/client_repository.go:20-24 | one lookup; true exactly when the client exists and the lookup does not fail |
| CartRepository.PgCartRepository.GetCart | test/internal/repository/cart_repository_test.go:25-203 | answers `GetCartResult`, issues exactly `GetCartCalls` and writes nothing |
| CartRepository.PgCartRepository.AddProductToCart | test/internal/repository/cart_repository_test.go:205-394 | answers `AddProductToCartError`, issues exactly `AddProductToCartCalls`, leaves the tables as `AddProductToCartTables` and keeps the store well formed |
| CartRepository.AddProductToCartEffect | test/internal/repository/cart_repository_test.go:205-394 | a successful add appends exactly one row (product, client's cart) and a failed one none; clients, catalog and orders are untouched; a failure before `FirstOrCreate` changes nothing; after `FirstOrCreate` the client's cart exists |
| CartRepository.AddedProductIsInCart | test/internal/repository/cart_repository_test.go:205-260 | after a successful add, reading the cart gives its earlier contents followed by the added product; the added product's lookup succeeds on the read because the failing queries are fixed and the add's own lookup of it succeeded |
| CartRepository.GetCartReturnsOwnProducts | test/internal/repository/cart_repository_test.go:25-75 | every product a read returns is the catalog's record for its id, and a row of the client's own cart names it |
| CartRepository.UnknownClientStopsAtLookup | test/internal/repository/cart_repository_test.go:77-94 | for an unknown client, both operations fail with ClientNotFound after the client lookup alone and write nothing |
| CartRepository.GetCartLookupCount | test/internal/repository/cart_repository_test.go:125-160 | a failed read makes at most three calls and no product lookup; a successful one makes three calls plus one lookup per row |
| CartRepository.ReadNeverCreatesCart | test/internal/repository/cart_repository_test.go:96-123 | a client without a cart reads as CartNotFound, while an add whose `FirstOrCreate` succeeds appends exactly one cart bound to the client |
| CartRepository.AddProductTwice | test/internal/repository/cart_repository_test.go:205-260 | adding the same product twice, the first time successfully, appends two identical rows on the same cart; the second call succeeds because it issues the same queries as the first and the failing queries are fixed for the run |
| OrderRepository.PgOrderRepository.CreateOrder | internal/repository/order_repository.go:31-58 | answers `CreateOrderError` after exactly `CreateOrderCalls`; on success it appends Order(client's cart, client) and changes nothing else; on failure it changes nothing |
| OrderRepository.PgOrderRepository.GetProductsFromOrder | internal/repository/order_repository.go:60-80 | answers `GetProductsFromOrderResult` after exactly `GetProductsFromOrderCalls`, and writes nothing |
| OrderRepository.PgOrderRepository.IsClientInDataBase | internal/repository/order_repository.go:82-86 | one lookup; true exactly when the client exists and the lookup does not fail |
| OrderRepository.PgOrderRepository.FindCartForClientId | internal/repository/order_repository.go:88-94 | one `First`; answers the client's first cart, or "cart for client id: <id> not found" exactly when there is none or the call fails |
| OrderRepository.PgOrderRepository.CreateOrderForClientId | internal/repository/order_repository.go:96-107 | one `Create`; appends Order(cart, client) exactly when the call does not fail, else "Unable to create order for clientId: <id>" with nothing written |
| OrderRepository.PgOrderRepository.FindListOfProductsForCartId | internal/repository/order_repository.go:109-115 | one listing; answers the cart's rows, or "unable to retrieve the list of products" exactly when the listing fails |
| OrderRepository.PgOrderRepository.FindProductsFromProductCartsList | internal/repository/order_repository.go:117-127 | the loop issues one lookup per row, in order, and keeps exactly the found products (`Resolved`) |
| OrderRepository.PgOrderRepository.FindProductById | internal/repository/order_repository.go:129-135 | one lookup; answers the catalog entry exactly when it exists and the lookup does not fail |
| OrderRepository.PgOrderRepository.FindOrderForClientId | internal/repository/order_repository.go:137-144 | one lookup; answers the client's first order, or "order for clientId: <id> not found" exactly when there is none or the call fails |
| OrderRepository.OrderNeedsNonEmptyCart | internal/repository/order_repository.go:48-55 | an order is written only for an existing client whose cart exists and has at least one row, and it is written on that cart as the fourth call |
| OrderRepository.PlacedOrderHoldsCart | internal/repository/order_repository.go:60-80 | for a client with no earlier order, reading the order just placed answers the products of the cart it was placed on |
| OrderRepository.OrderIdDoesNotSelect | internal/repository/order_repository.go:137-144 | any two order ids give the same answer when neither lookup fails, and a found order belongs to the client |
| CartService.ParseProducts | internal/services/cart_service.go:67-81 | one response record per product, in order, each copying id, label, category label, type, download URL and weight |
| CartService.ResponseDescribesOwnProducts | internal/services/cart_service.go:48-65 | every record of a successful answer describes a catalog product that a row of the client's own cart names, with that product's label and category label |
| CartService.CartServiceImpl.AddProduct | internal/services/cart_service.go:34-46 | answers the cart repository's error, writes what the cart repository writes, and issues one client lookup in front of the cart repository's calls (or alone for an unknown client) |
| CartService.CartServiceImpl.GetCart | internal/services/cart_service.go:48-65 | passes the repository's error on with an empty response, or answers the repository's products as response records, after one client lookup in front of the repository's calls; writes nothing |

## Left out

- Logging (the `logger.Error` calls) is not modelled. It has no effect on results.
- The database driver, the `sync.Once` singleton, the HTTP handlers and the server are not modelled. db_client.go, router.go, server.go and the handler packages are not part of this model.
- GORM itself is reduced to the lookup rules above. Real GORM `Find` into a single record does not fail on a missing row. The model treats a missing row as a failed lookup, which is how the repository tests drive the code.
- Store.DbClient: the failing queries are fixed for the whole run, so a query fails on every issue or on none. Two lookups of the same product cannot have one fail and the other succeed, a repeated add cannot fail where the first one succeeded, and the service's client check always agrees with the cart repository's.
- Store.DbClient.FindOrderByClient: the order lookup passes its order id in a way that does not determine which row comes back, or whether the query errors. The model takes the client's first order in table order, and the claims about a placed order hold only for a client with no earlier order.
- Store.WellFormed: a client may own several carts; nothing in the store prevents it. The carts table is kept in ascending id order, so the first cart in table order is the one with the lowest id, the one GORM's `First` and `FirstOrCreate` answer.
- Store.DbClient: `FirstOrCreate` appends the new cart with the next free id. How the real database picks ids is not modelled.
- Weight (a float64) is an abstract type: the core only copies it.
- Concurrency is not modelled. Two concurrent adds for one client can each create a cart; the model runs one call at a time.
- CartService.CartServiceImpl.GetCart: an empty answer is the empty sequence. Go's distinction between a nil slice (JSON `null`) and an empty one is not modelled.
- Integer ids are unbounded. Go's `int` and the rows' `uint` ids are not bounded here, because the core does no arithmetic on them.
- internal/services/order_service.go holds no operation of the core and is not part of this model.
- The order's embedded cart record (order_repository.go:98) is not stored: `Models.Order` keeps the cart id and the client id only.
