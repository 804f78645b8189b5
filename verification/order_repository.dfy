/**
 * PgOrderRepository (internal/repository/order_repository.go): placing an
 * order on a client's cart and reading the products of a client's order.
 * It keeps its own copies of the lookups the product repository has; they
 * issue the same store calls.
 */
module OrderRepository {
  import opened Models
  import opened Errors
  import opened Store

  /** The error CreateOrder returns on a store in state `t` (None: the order was written). */
  function CreateOrderError(t: Tables, faults: set<Query>, clientId: int): Option<Error>
  {
    if !ClientFound(t, faults, clientId) then Some(ClientNotFound(clientId))
    else match CartLookup(t, faults, clientId)
      case None => Some(CartNotFound(clientId))
      case Some(cart) =>
        match RowsLookup(t, faults, cart.id)
        case None => Some(ProductListUnavailable)
        case Some(rows) =>
          if rows == [] then Some(EmptyCart)
          else if CreateOrderRow(Order(cart.id, clientId)) in faults then Some(OrderCreationFailed(clientId))
          else None
  }

  /** The store calls CreateOrder issues on a store in state `t`, in order. */
  function CreateOrderCalls(t: Tables, faults: set<Query>, clientId: int): seq<Query>
  {
    [FindClient(clientId)] +
    (if !ClientFound(t, faults, clientId) then []
     else
       [FirstCart(clientId)] +
       match CartLookup(t, faults, clientId)
       case None => []
       case Some(cart) =>
         [FindCartRows(cart.id)] +
         (if FindCartRows(cart.id) in faults || RowsOfCart(t.rows, cart.id) == [] then []
          else [CreateOrderRow(Order(cart.id, clientId))]))
  }

  /** What GetProductsFromOrder returns on a store in state `t`. */
  function GetProductsFromOrderResult(t: Tables, faults: set<Query>, clientId: int, orderId: int): Result<seq<Product>>
  {
    if !ClientFound(t, faults, clientId) then Err(ClientNotFound(clientId))
    else match OrderLookup(t, faults, clientId, orderId)
      case None => Err(OrderNotFound(clientId))
      case Some(order) =>
        match RowsLookup(t, faults, order.cartId)
        case None => Err(ProductListUnavailable)
        case Some(rows) => Ok(Resolved(t, faults, rows))
  }

  /** The store calls GetProductsFromOrder issues on a store in state `t`, in order. */
  function GetProductsFromOrderCalls(t: Tables, faults: set<Query>, clientId: int, orderId: int): seq<Query>
  {
    [FindClient(clientId)] +
    (if !ClientFound(t, faults, clientId) then []
     else
       [FindOrder(clientId, orderId)] +
       match OrderLookup(t, faults, clientId, orderId)
       case None => []
       case Some(order) =>
         [FindCartRows(order.cartId)] +
         (if FindCartRows(order.cartId) in faults then [] else LookupCalls(RowsOfCart(t.rows, order.cartId))))
  }

  /**
   * An order is written only for a known client whose cart has at least one
   * product row, and it is written on that client's cart.
   */
  lemma OrderNeedsNonEmptyCart(t: Tables, faults: set<Query>, clientId: int)
    requires CreateOrderError(t, faults, clientId) == None
    ensures clientId in t.clients
    ensures CartOf(t.carts, clientId).Some?
    ensures exists row :: row in t.rows && row.cartId == CartOf(t.carts, clientId).value.id
    ensures CreateOrderCalls(t, faults, clientId)[3] == CreateOrderRow(Order(CartOf(t.carts, clientId).value.id, clientId))
  {
    var cart := CartOf(t.carts, clientId).value;
    var rows := RowsOfCart(t.rows, cart.id);
    RowsOfCartMembers(t.rows, cart.id);
    assert rows[0] in rows;
  }

  /**
   * Reading the order just placed gives back the cart it was placed on: for a
   * client without an earlier order, GetProductsFromOrder after a successful
   * CreateOrder answers what GetCart's read of the same cart answers.
   */
  lemma {:induction false} PlacedOrderHoldsCart(t: Tables, faults: set<Query>, clientId: int, orderId: int)
    requires CreateOrderError(t, faults, clientId) == None
    requires forall i :: 0 <= i < |t.orders| ==> t.orders[i].clientId != clientId
    requires FindOrder(clientId, orderId) !in faults
    ensures
      var cart := CartOf(t.carts, clientId).value;
      var after := t.(orders := t.orders + [Order(cart.id, clientId)]);
      GetProductsFromOrderResult(after, faults, clientId, orderId) == Ok(Resolved(t, faults, RowsOfCart(t.rows, cart.id)))
  {
    var cart := CartOf(t.carts, clientId).value;
    var after := t.(orders := t.orders + [Order(cart.id, clientId)]);
    FirstIndexAppend(t.orders, OrderClient, Order(cart.id, clientId));
    ResolvedSameCatalog(after, t, faults, RowsOfCart(t.rows, cart.id));
  }

  /**
   * The order id does not select the order: as long as neither lookup fails,
   * any two order ids give the same answer, the client's first order.
   */
  lemma OrderIdDoesNotSelect(t: Tables, faults: set<Query>, clientId: int, orderId1: int, orderId2: int)
    requires FindOrder(clientId, orderId1) !in faults && FindOrder(clientId, orderId2) !in faults
    ensures GetProductsFromOrderResult(t, faults, clientId, orderId1) == GetProductsFromOrderResult(t, faults, clientId, orderId2)
    ensures OrderLookup(t, faults, clientId, orderId1).Some? ==>
      OrderLookup(t, faults, clientId, orderId1).value.clientId == clientId
  {
  }

  /** Proof helper: re-brackets the call record built by consecutive calls. */
  lemma ConcatAssociates<T>(s: seq<T>, a: T, b: T, c: T, l: seq<T>)
    ensures s + [a] + [b] + [c] + l == s + ([a] + ([b] + ([c] + l)))
  {
  }

  class PgOrderRepository {
    const db: DbClient

    constructor(db: DbClient)
      ensures this.db == db
    {
      this.db := db;
    }

    /**
     * Places an order on the client's cart once the client exists, the cart
     * can be read and holds at least one product row. The cart id argument is
     * not used: the cart is always the client's own.
     */
    method CreateOrder(clientId: int, cartId: int) returns (err: Option<Error>)
      modifies db`tables, db`calls
      ensures err == CreateOrderError(old(db.tables), db.faults, clientId)
      ensures db.calls == old(db.calls) + CreateOrderCalls(old(db.tables), db.faults, clientId)
      ensures err.Some? ==> db.tables == old(db.tables)
      ensures err.None? ==>
        db.tables == old(db.tables).(orders := old(db.tables.orders) + [Order(CartOf(old(db.tables.carts), clientId).value.id, clientId)])
    {
      var found := IsClientInDataBase(clientId);
      if !found {
        return Some(ClientNotFound(clientId));
      }
      var clientCart := FindCartForClientId(clientId);
      if clientCart.Err? {
        return Some(clientCart.error);
      }
      var productsCarts := FindListOfProductsForCartId(clientCart.value.id);
      if productsCarts.Err? {
        return Some(productsCarts.error);
      }
      if |productsCarts.value| == 0 {
        return Some(EmptyCart);
      }
      err := CreateOrderForClientId(clientCart.value, clientId);
    }

    /** The products of the client's order, failed product lookups skipped. */
    method GetProductsFromOrder(clientId: int, orderId: int) returns (r: Result<seq<Product>>)
      modifies db`calls
      ensures db.tables == old(db.tables)
      ensures r == GetProductsFromOrderResult(db.tables, db.faults, clientId, orderId)
      ensures db.calls == old(db.calls) + GetProductsFromOrderCalls(db.tables, db.faults, clientId, orderId)
    {
      var found := IsClientInDataBase(clientId);
      if !found {
        return Err(ClientNotFound(clientId));
      }
      var order := FindOrderForClientId(clientId, orderId);
      if order.Err? {
        return Err(order.error);
      }
      assert OrderLookup(db.tables, db.faults, clientId, orderId) == Some(order.value);
      var productsCarts := FindListOfProductsForCartId(order.value.cartId);
      if productsCarts.Err? {
        return Err(productsCarts.error);
      }
      var productList := FindProductsFromProductCartsList(productsCarts.value);
      ConcatAssociates(old(db.calls), FindClient(clientId), FindOrder(clientId, orderId), FindCartRows(order.value.cartId),
                       LookupCalls(productsCarts.value));
      return Ok(productList);
    }

    /** True exactly when the one lookup of the client by id succeeds. */
    method IsClientInDataBase(clientId: int) returns (found: bool)
      modifies db`calls
      ensures db.calls == old(db.calls) + [FindClient(clientId)]
      ensures found <==> clientId in db.tables.clients && FindClient(clientId) !in db.faults
    {
      found := db.FindClientById(clientId);
    }

    /** The client's cart, or "cart for client id: <id> not found". */
    method FindCartForClientId(clientId: int) returns (r: Result<Cart>)
      modifies db`calls
      ensures db.calls == old(db.calls) + [FirstCart(clientId)]
      ensures r.Ok? <==> FirstCart(clientId) !in db.faults && CartOf(db.tables.carts, clientId).Some?
      ensures r.Ok? ==> r.value.clientId == clientId && r.value == CartOf(db.tables.carts, clientId).value
      ensures r.Err? ==> r.error == CartNotFound(clientId)
    {
      var cart := db.FirstCartByClient(clientId);
      if cart.None? {
        return Err(CartNotFound(clientId));
      }
      return Ok(cart.value);
    }

    /** Writes Order(cart, client), or reports "Unable to create order for clientId: <id>". */
    method CreateOrderForClientId(cart: Cart, clientId: int) returns (err: Option<Error>)
      modifies db`tables, db`calls
      ensures db.calls == old(db.calls) + [CreateOrderRow(Order(cart.id, clientId))]
      ensures err.None? <==> CreateOrderRow(Order(cart.id, clientId)) !in db.faults
      ensures err.Some? ==> err.value == OrderCreationFailed(clientId) && db.tables == old(db.tables)
      ensures err.None? ==> db.tables == old(db.tables).(orders := old(db.tables.orders) + [Order(cart.id, clientId)])
    {
      var created := db.CreateOrder(Order(cart.id, clientId));
      if !created {
        return Some(OrderCreationFailed(clientId));
      }
      return None;
    }

    /** The cart's association rows, or "unable to retrieve the list of products". */
    method FindListOfProductsForCartId(cartId: int) returns (r: Result<seq<ProductCart>>)
      modifies db`calls
      ensures db.calls == old(db.calls) + [FindCartRows(cartId)]
      ensures r.Err? <==> FindCartRows(cartId) in db.faults
      ensures r.Err? ==> r.error == ProductListUnavailable
      ensures r.Ok? ==> r.value == RowsOfCart(db.tables.rows, cartId)
    {
      var productsCarts := db.FindRowsByCart(cartId);
      if productsCarts.None? {
        return Err(ProductListUnavailable);
      }
      return Ok(productsCarts.value);
    }

    /** One lookup per row, in row order; a failed lookup is skipped (the source only logs it). */
    method FindProductsFromProductCartsList(productCarts: seq<ProductCart>) returns (productList: seq<Product>)
      modifies db`calls
      ensures productList == Resolved(db.tables, db.faults, productCarts)
      ensures db.calls == old(db.calls) + LookupCalls(productCarts)
    {
      productList := [];
      for i := 0 to |productCarts|
        invariant productList == Resolved(db.tables, db.faults, productCarts[..i])
        invariant db.calls == old(db.calls) + LookupCalls(productCarts[..i])
      {
        var product := FindProductById(productCarts[i].productId);
        if product.Some? {
          productList := productList + [product.value];
        }
        assert productCarts[..i + 1][..i] == productCarts[..i];
      }
      assert productCarts[..|productCarts|] == productCarts;
    }

    /** The stored product, or None for the store's own error, which is passed on unchanged. */
    method FindProductById(productId: int) returns (product: Option<Product>)
      modifies db`calls
      ensures db.calls == old(db.calls) + [FindProduct(productId)]
      ensures product.Some? <==> productId in db.tables.products && FindProduct(productId) !in db.faults
      ensures product.Some? ==> product.value == db.tables.products[productId]
    {
      product := db.FindProductById(productId);
    }

    /** The client's order, or "order for clientId: <id> not found". The order id does not select. */
    method FindOrderForClientId(clientId: int, orderId: int) returns (r: Result<Order>)
      modifies db`calls
      ensures db.calls == old(db.calls) + [FindOrder(clientId, orderId)]
      ensures r.Ok? <==> OrderLookup(db.tables, db.faults, clientId, orderId).Some?
      ensures r.Ok? ==> r.value == OrderLookup(db.tables, db.faults, clientId, orderId).value
      ensures r.Err? ==> r.error == OrderNotFound(clientId)
    {
      var order := db.FindOrderByClient(clientId, orderId);
      if order.None? {
        return Err(OrderNotFound(clientId));
      }
      return Ok(order.value);
    }
  }
}
