/**
 * PgCartRepository: reading a client's cart and adding a product to it. Its
 * Go implementation is not part of this model (internal/repository/cart_repository.go
 * holds only an empty stub); what is modelled is the behaviour its tests
 * (test/internal/repository/cart_repository_test.go) pin: the store calls
 * made, in order, the rows written and the error returned at each step.
 *
 * Its two error strings for products ("unable to retrieve the list of
 * products", "unable to find the product in our db") are PgProductRepository's,
 * so it is modelled on top of a PgProductRepository over the same store.
 */
module CartRepository {
  import opened Models
  import opened Errors
  import opened Store
  import opened ProductRepository

  /** What GetCart returns on a store in state `t`. */
  function GetCartResult(t: Tables, faults: set<Query>, clientId: int): Result<seq<Product>>
  {
    if !ClientFound(t, faults, clientId) then Err(ClientNotFound(clientId))
    else match CartLookup(t, faults, clientId)
      case None => Err(CartNotFound(clientId))
      case Some(cart) =>
        match RowsLookup(t, faults, cart.id)
        case None => Err(ProductListUnavailable)
        case Some(rows) => Ok(Resolved(t, faults, rows))
  }

  /** The store calls GetCart issues on a store in state `t`, in order. */
  function GetCartCalls(t: Tables, faults: set<Query>, clientId: int): seq<Query>
  {
    [FindClient(clientId)] +
    (if !ClientFound(t, faults, clientId) then []
     else
       [FirstCart(clientId)] +
       match CartLookup(t, faults, clientId)
       case None => []
       case Some(cart) =>
         [FindCartRows(cart.id)] +
         (if FindCartRows(cart.id) in faults then [] else LookupCalls(RowsOfCart(t.rows, cart.id))))
  }

  /** The error AddProductToCart returns on a store in state `t` (None: success). */
  function AddProductToCartError(t: Tables, faults: set<Query>, nextCartId: int, productId: int, clientId: int): Option<Error>
  {
    if !ClientFound(t, faults, clientId) then Some(ClientNotFound(clientId))
    else if FirstOrCreateCart(clientId) in faults then Some(CartCreationFailed)
    else match ProductLookup(t, faults, productId)
      case None => Some(ProductNotFound)
      case Some(product) =>
        var row := ProductCart(product.id, EnsuredCart(t.carts, clientId, nextCartId).id);
        if CreateCartRow(row) in faults then Some(AssociationFailed) else None
  }

  /** The store calls AddProductToCart issues on a store in state `t`, in order. */
  function AddProductToCartCalls(t: Tables, faults: set<Query>, nextCartId: int, productId: int, clientId: int): seq<Query>
  {
    [FindClient(clientId)] +
    (if !ClientFound(t, faults, clientId) then []
     else
       [FirstOrCreateCart(clientId)] +
       (if FirstOrCreateCart(clientId) in faults then []
        else
          [FindProduct(productId)] +
          match ProductLookup(t, faults, productId)
          case None => []
          case Some(product) => [CreateCartRow(ProductCart(product.id, EnsuredCart(t.carts, clientId, nextCartId).id))]))
  }

  /** The tables after AddProductToCart on a store in state `t`. */
  function AddProductToCartTables(t: Tables, faults: set<Query>, nextCartId: int, productId: int, clientId: int): Tables
  {
    if !ClientFound(t, faults, clientId) || FirstOrCreateCart(clientId) in faults then t
    else
      var withCart := t.(carts := WithCartFor(t.carts, clientId, nextCartId));
      match ProductLookup(t, faults, productId)
      case None => withCart
      case Some(product) =>
        var row := ProductCart(product.id, EnsuredCart(t.carts, clientId, nextCartId).id);
        if CreateCartRow(row) in faults then withCart else withCart.(rows := t.rows + [row])
  }

  /**
   * What adding a product writes: one row naming the product and the client's
   * cart on success and no row on any failure; the client's cart exists
   * afterwards once FirstOrCreate has run, even when a later step fails; and
   * clients, catalog and orders are never touched. Every failure before
   * FirstOrCreate leaves the store as it was.
   */
  lemma AddProductToCartEffect(t: Tables, faults: set<Query>, nextCartId: int, productId: int, clientId: int)
    requires WellFormed(t)
    ensures
      var after := AddProductToCartTables(t, faults, nextCartId, productId, clientId);
      var err := AddProductToCartError(t, faults, nextCartId, productId, clientId);
      var cart := EnsuredCart(t.carts, clientId, nextCartId);
      && after.clients == t.clients && after.products == t.products && after.orders == t.orders
      && (err.Some? ==> after.rows == t.rows)
      && (err.None? ==> after.rows == t.rows + [ProductCart(productId, cart.id)])
      && (err == Some(ClientNotFound(clientId)) || err == Some(CartCreationFailed) ==> after == t)
      && (ClientFound(t, faults, clientId) && FirstOrCreateCart(clientId) !in faults ==>
            after.carts == WithCartFor(t.carts, clientId, nextCartId) && CartOf(after.carts, clientId) == Some(cart))
  {
    EnsuredCartIsFound(t.carts, clientId, nextCartId);
  }

  /**
   * A product added successfully shows up at the end of the cart GetCart reads
   * afterwards, whether the cart existed before or was created by the add;
   * when the cart could already be read, its earlier contents are kept, in
   * order, in front of it.
   */
  lemma {:induction false} AddedProductIsInCart(t: Tables, faults: set<Query>, nextCartId: int, productId: int, clientId: int)
    requires WellFormed(t)
    requires AddProductToCartError(t, faults, nextCartId, productId, clientId) == None
    requires FirstCart(clientId) !in faults
    requires FindCartRows(EnsuredCart(t.carts, clientId, nextCartId).id) !in faults
    ensures
      var cart := EnsuredCart(t.carts, clientId, nextCartId);
      var after := AddProductToCartTables(t, faults, nextCartId, productId, clientId);
      && GetCartResult(after, faults, clientId) ==
           Ok(Resolved(t, faults, RowsOfCart(t.rows, cart.id)) + [t.products[productId]])
      && (GetCartResult(t, faults, clientId).Ok? ==>
           GetCartResult(after, faults, clientId) == Ok(GetCartResult(t, faults, clientId).value + [t.products[productId]]))
  {
    var cart := EnsuredCart(t.carts, clientId, nextCartId);
    var row := ProductCart(productId, cart.id);
    var after := t.(carts := WithCartFor(t.carts, clientId, nextCartId), rows := t.rows + [row]);
    assert AddProductToCartTables(t, faults, nextCartId, productId, clientId) == after;
    EnsuredCartIsFound(t.carts, clientId, nextCartId);
    RowsOfCartAppend(t.rows, row, cart.id);
    var rows := RowsOfCart(t.rows, cart.id);
    assert (rows + [row])[..|rows + [row]| - 1] == rows;
    ResolvedSameCatalog(after, t, faults, rows);
    if GetCartResult(t, faults, clientId).Ok? {
      assert CartOf(t.carts, clientId) == Some(cart);
    }
  }

  /**
   * GetCart answers with catalog entries of the client's own cart only: each
   * product returned is the catalog's record for its id, and a row of the
   * client's cart names it.
   */
  lemma {:induction false} GetCartReturnsOwnProducts(t: Tables, faults: set<Query>, clientId: int)
    requires WellFormed(t)
    requires GetCartResult(t, faults, clientId).Ok?
    ensures
      var cart := CartOf(t.carts, clientId).value;
      forall p :: p in GetCartResult(t, faults, clientId).value ==>
        && p.id in t.products && t.products[p.id] == p
        && ProductCart(p.id, cart.id) in t.rows
  {
    var cart := CartOf(t.carts, clientId).value;
    var rows := RowsOfCart(t.rows, cart.id);
    var ps := GetCartResult(t, faults, clientId).value;
    ResolvedIsOrderedFilter(t, faults, rows);
    RowsOfCartMembers(t.rows, cart.id);
    var idx := SurvivorIndices(t, faults, rows);
    forall p | p in ps
      ensures p.id in t.products && t.products[p.id] == p && ProductCart(p.id, cart.id) in t.rows
    {
      var k :| 0 <= k < |ps| && ps[k] == p;
      var row := rows[idx[k]];
      assert row in rows;
      assert ProductLookup(t, faults, row.productId) == Some(p);
    }
  }

  /**
   * An unknown client stops both operations at the client lookup: the error
   * is ClientNotFound, no other store call follows and nothing is written.
   */
  lemma UnknownClientStopsAtLookup(t: Tables, faults: set<Query>, nextCartId: int, productId: int, clientId: int)
    requires !ClientFound(t, faults, clientId)
    ensures GetCartResult(t, faults, clientId) == Err(ClientNotFound(clientId))
    ensures GetCartCalls(t, faults, clientId) == [FindClient(clientId)]
    ensures AddProductToCartError(t, faults, nextCartId, productId, clientId) == Some(ClientNotFound(clientId))
    ensures AddProductToCartCalls(t, faults, nextCartId, productId, clientId) == [FindClient(clientId)]
    ensures AddProductToCartTables(t, faults, nextCartId, productId, clientId) == t
  {
  }

  /**
   * A failed read never reaches product resolution: at most the client, cart
   * and row lookups were made. A successful read makes exactly one product
   * lookup per row of the cart, on top of those three.
   */
  lemma GetCartLookupCount(t: Tables, faults: set<Query>, clientId: int)
    ensures GetCartResult(t, faults, clientId).Err? ==>
      var calls := GetCartCalls(t, faults, clientId);
      |calls| <= 3 && forall i :: 0 <= i < |calls| ==> !calls[i].FindProduct?
    ensures GetCartResult(t, faults, clientId).Ok? ==>
      |GetCartCalls(t, faults, clientId)| == 3 + |RowsOfCart(t.rows, CartOf(t.carts, clientId).value.id)|
  {
  }

  /**
   * Reading never creates a cart, adding always ensures one: for a known
   * client without a cart, GetCart answers CartNotFound while a successful
   * FirstOrCreate appends exactly one cart, bound to the client.
   */
  lemma ReadNeverCreatesCart(t: Tables, faults: set<Query>, nextCartId: int, productId: int, clientId: int)
    requires ClientFound(t, faults, clientId) && CartOf(t.carts, clientId).None?
    ensures GetCartResult(t, faults, clientId) == Err(CartNotFound(clientId))
    ensures FirstOrCreateCart(clientId) !in faults ==>
      AddProductToCartTables(t, faults, nextCartId, productId, clientId).carts == t.carts + [Cart(nextCartId, clientId)]
  {
  }

  class PgCartRepository {
    const db: DbClient
    const productRepository: PgProductRepository

    ghost predicate Wired()
    {
      productRepository.db == db
    }

    constructor(db: DbClient)
      ensures this.db == db && Wired()
    {
      this.db := db;
      productRepository := new PgProductRepository(db);
    }

    /**
     * Read path: client check, then `First` on the client's cart (never
     * `FirstOrCreate`), then the cart's contents. Nothing is written.
     */
    method GetCart(clientId: int) returns (r: Result<seq<Product>>)
      requires Wired()
      modifies db`calls
      ensures db.tables == old(db.tables)
      ensures r == GetCartResult(db.tables, db.faults, clientId)
      ensures db.calls == old(db.calls) + GetCartCalls(db.tables, db.faults, clientId)
    {
      var found := db.FindClientById(clientId);
      if !found {
        return Err(ClientNotFound(clientId));
      }
      var cart := db.FirstCartByClient(clientId);
      if cart.None? {
        return Err(CartNotFound(clientId));
      }
      r := productRepository.FindProductsFromCart(cart.value.id);
    }

    /**
     * Write path: client check, `FirstOrCreate` of the client's cart, product
     * lookup, then one association row (product, cart). Each failure stops
     * every later call. A cart created by `FirstOrCreate` stays even when a
     * later step fails.
     */
    method AddProductToCart(productId: int, clientId: int) returns (err: Option<Error>)
      requires Wired() && db.Valid()
      modifies db`tables, db`calls, db`nextCartId
      ensures db.Valid()
      ensures err == AddProductToCartError(old(db.tables), db.faults, old(db.nextCartId), productId, clientId)
      ensures db.tables == AddProductToCartTables(old(db.tables), db.faults, old(db.nextCartId), productId, clientId)
      ensures db.calls == old(db.calls) + AddProductToCartCalls(old(db.tables), db.faults, old(db.nextCartId), productId, clientId)
    {
      var found := db.FindClientById(clientId);
      if !found {
        return Some(ClientNotFound(clientId));
      }
      var cart := db.FirstOrCreateCartByClient(clientId);
      if cart.None? {
        return Some(CartCreationFailed);
      }
      var product := productRepository.FindProductById(productId);
      if product.Err? {
        return Some(product.error);
      }
      var created := db.CreateProductCart(ProductCart(product.value.id, cart.value.id));
      if !created {
        return Some(AssociationFailed);
      }
      return None;
    }
  }

  /**
   * Adding the same product twice appends two identical rows: the second call
   * finds the cart the first one used and nothing de-duplicates the row. It
   * succeeds because it issues the queries the first call got through, and the
   * failing queries are the same for the whole run.
   */
  method AddProductTwice(repository: PgCartRepository, productId: int, clientId: int)
    returns (first: Option<Error>, second: Option<Error>)
    requires repository.Wired() && repository.db.Valid()
    modifies repository.db`tables, repository.db`calls, repository.db`nextCartId
    ensures first.None? ==>
      var row := ProductCart(productId, EnsuredCart(old(repository.db.tables.carts), clientId, old(repository.db.nextCartId)).id);
      second.None? && repository.db.tables.rows == old(repository.db.tables.rows) + [row, row]
  {
    var db := repository.db;
    ghost var t0, n0 := db.tables, db.nextCartId;
    AddProductToCartEffect(t0, db.faults, n0, productId, clientId);
    first := repository.AddProductToCart(productId, clientId);
    ghost var t1, n1 := db.tables, db.nextCartId;
    AddProductToCartEffect(t1, db.faults, n1, productId, clientId);
    second := repository.AddProductToCart(productId, clientId);
    if first.None? {
      assert EnsuredCart(t1.carts, clientId, n1) == EnsuredCart(t0.carts, clientId, n0);
    }
  }
}
