/**
 * The database the repositories talk to, reduced to its tables and to the
 * four calls they make on it (`Find`, `First`, `FirstOrCreate`, `Create`).
 *
 * Every call can fail. Which calls fail is fixed up front by a set of queries,
 * the way the repository tests tell their database mock which call returns an
 * error: a query in `faults` fails every time it is issued. A single-record
 * lookup also fails when no record matches, so "not found" and "store error"
 * look the same to the caller, as they do with the mock. Every call is
 * recorded, in order, in `calls`.
 */
module Store {
  import opened Models

  /** A store call, with the arguments that identify it. */
  datatype Query =
    | FindClient(clientId: int)               // Find(&client, "id = ?", clientId)
    | FirstCart(clientId: int)                // First(&cart, "client_id = ?", clientId)
    | FirstOrCreateCart(clientId: int)        // FirstOrCreate(&cart, "client_id = ?", clientId)
    | FindCartRows(cartId: int)               // Find(&productCarts, "cart_id = ?", cartId)
    | FindProduct(productId: int)             // Find(&product, "id = ?", productId)
    | FindOrder(clientId: int, orderId: int)  // Find(&order, "client_id = ?", clientId, "order_id = ?", orderId)
    | CreateCartRow(row: ProductCart)         // Create(&productCart)
    | CreateOrderRow(order: Order)            // Create(&order)

  /** The tables the core reads and writes. */
  datatype Tables = Tables(
    clients: set<int>,
    carts: seq<Cart>,
    products: map<int, Product>,
    rows: seq<ProductCart>,
    orders: seq<Order>)

  /**
   * The catalog is keyed by product id, and the carts table is held in
   * primary-key order: ids strictly ascend. A client may own several carts
   * (nothing in the store prevents it); GORM's `First` orders by primary key,
   * so the first in table order is the one it answers.
   */
  ghost predicate WellFormed(t: Tables)
  {
    && (forall id :: id in t.products ==> t.products[id].id == id)
    && (forall i, j :: 0 <= i < j < |t.carts| ==> t.carts[i].id < t.carts[j].id)
  }

  // ---------------------------------------------------------------------------
  // What each lookup returns

  /** Position of the first record whose `key` is `k`, in table order, or |s| if there is none. */
  function FirstIndex<T>(s: seq<T>, key: T -> int, k: int): (i: nat)
    ensures i <= |s|
    ensures forall j :: 0 <= j < i ==> key(s[j]) != k
    ensures i < |s| ==> key(s[i]) == k
  {
    if s == [] then 0
    else if key(s[0]) == k then 0
    else 1 + FirstIndex(s[1..], key, k)
  }

  /** A record appended under a key no earlier record has is the first one found under it. */
  lemma {:induction false} FirstIndexAppend<T>(s: seq<T>, key: T -> int, x: T)
    requires FirstIndex(s, key, key(x)) == |s|
    ensures FirstIndex(s + [x], key, key(x)) == |s|
  {
    if s != [] {
      assert (s + [x])[1..] == s[1..] + [x];
      FirstIndexAppend(s[1..], key, x);
    }
  }

  function CartClient(c: Cart): int { c.clientId }

  function OrderClient(o: Order): int { o.clientId }

  /** The cart `First` with "client_id = ?" finds, when the call itself does not fail. */
  function CartOf(carts: seq<Cart>, clientId: int): Option<Cart>
  {
    var i := FirstIndex(carts, CartClient, clientId);
    if i < |carts| then Some(carts[i]) else None
  }

  /** The association rows of one cart, in table order. */
  function RowsOfCart(rows: seq<ProductCart>, cartId: int): (r: seq<ProductCart>)
    ensures |r| <= |rows|
  {
    if rows == [] then []
    else
      var rest := RowsOfCart(rows[1..], cartId);
      if rows[0].cartId == cartId then [rows[0]] + rest else rest
  }

  /** A cart's rows are exactly the table's rows that name that cart. */
  lemma {:induction false} RowsOfCartMembers(rows: seq<ProductCart>, cartId: int)
    ensures forall x :: x in RowsOfCart(rows, cartId) <==> x in rows && x.cartId == cartId
  {
    if rows != [] {
      RowsOfCartMembers(rows[1..], cartId);
      assert rows == [rows[0]] + rows[1..];
    }
  }

  /** Appending a row to the table appends it to its own cart's rows and to no other cart's. */
  lemma {:induction false} RowsOfCartAppend(rows: seq<ProductCart>, row: ProductCart, cartId: int)
    ensures RowsOfCart(rows + [row], cartId) ==
      if row.cartId == cartId then RowsOfCart(rows, cartId) + [row] else RowsOfCart(rows, cartId)
  {
    if rows != [] {
      assert (rows + [row])[1..] == rows[1..] + [row];
      RowsOfCartAppend(rows[1..], row, cartId);
    }
  }

  predicate ClientFound(t: Tables, faults: set<Query>, clientId: int)
  {
    clientId in t.clients && FindClient(clientId) !in faults
  }

  function CartLookup(t: Tables, faults: set<Query>, clientId: int): Option<Cart>
  {
    if FirstCart(clientId) in faults then None else CartOf(t.carts, clientId)
  }

  function RowsLookup(t: Tables, faults: set<Query>, cartId: int): Option<seq<ProductCart>>
  {
    if FindCartRows(cartId) in faults then None else Some(RowsOfCart(t.rows, cartId))
  }

  function ProductLookup(t: Tables, faults: set<Query>, productId: int): Option<Product>
  {
    if productId in t.products && FindProduct(productId) !in faults
    then Some(t.products[productId]) else None
  }

  function OrderLookup(t: Tables, faults: set<Query>, clientId: int, orderId: int): Option<Order>
  {
    var i := FirstIndex(t.orders, OrderClient, clientId);
    if FindOrder(clientId, orderId) in faults || i == |t.orders| then None else Some(t.orders[i])
  }

  // ---------------------------------------------------------------------------
  // FirstOrCreate on the carts table

  /** The cart FirstOrCreate answers with: the client's cart, or a new one with the next id. */
  function EnsuredCart(carts: seq<Cart>, clientId: int, nextCartId: int): Cart
  {
    match CartOf(carts, clientId)
    case Some(c) => c
    case None => Cart(nextCartId, clientId)
  }

  /** The carts table after FirstOrCreate: unchanged, or with the new cart appended. */
  function WithCartFor(carts: seq<Cart>, clientId: int, nextCartId: int): seq<Cart>
  {
    if CartOf(carts, clientId).Some? then carts else carts + [Cart(nextCartId, clientId)]
  }

  /** After FirstOrCreate, `First` finds exactly the cart FirstOrCreate answered with. */
  lemma {:induction false} EnsuredCartIsFound(carts: seq<Cart>, clientId: int, nextCartId: int)
    ensures CartOf(WithCartFor(carts, clientId, nextCartId), clientId) == Some(EnsuredCart(carts, clientId, nextCartId))
  {
    if CartOf(carts, clientId).None? {
      FirstIndexAppend(carts, CartClient, Cart(nextCartId, clientId));
    }
  }

  /** An id above every cart id: where the table's id sequence continues. */
  function NextFreeCartId(carts: seq<Cart>): (n: int)
    ensures forall c :: c in carts ==> c.id < n
  {
    if carts == [] then 1
    else
      var rest := NextFreeCartId(carts[1..]);
      assert forall c :: c in carts ==> c == carts[0] || c in carts[1..];
      if carts[0].id < rest then rest else carts[0].id + 1
  }

  // ---------------------------------------------------------------------------
  // Cart content assembly: one product lookup per association row, failed
  // lookups skipped

  /** The products a list of association rows resolves to, in row order, skipping failed lookups. */
  function Resolved(t: Tables, faults: set<Query>, rows: seq<ProductCart>): (r: seq<Product>)
    ensures |r| <= |rows|
  {
    if rows == [] then []
    else
      var init := Resolved(t, faults, rows[..|rows| - 1]);
      match ProductLookup(t, faults, rows[|rows| - 1].productId)
      case Some(p) => init + [p]
      case None => init
  }

  /** Assembly reads the catalog only: two stores with the same catalog assemble alike. */
  lemma {:induction false} ResolvedSameCatalog(t: Tables, u: Tables, faults: set<Query>, rows: seq<ProductCart>)
    requires t.products == u.products
    ensures Resolved(t, faults, rows) == Resolved(u, faults, rows)
  {
    if rows != [] {
      ResolvedSameCatalog(t, u, faults, rows[..|rows| - 1]);
    }
  }

  /** The product lookups assembling `rows` issues: one per row, keyed on the row's product. */
  function LookupCalls(rows: seq<ProductCart>): (qs: seq<Query>)
    ensures |qs| == |rows|
    ensures forall i :: 0 <= i < |rows| ==> qs[i] == FindProduct(rows[i].productId)
  {
    if rows == [] then [] else LookupCalls(rows[..|rows| - 1]) + [FindProduct(rows[|rows| - 1].productId)]
  }

  /** Positions of the rows whose lookup succeeds (a witness for ResolvedIsOrderedFilter). */
  function SurvivorIndices(t: Tables, faults: set<Query>, rows: seq<ProductCart>): seq<int>
  {
    if rows == [] then []
    else
      var init := SurvivorIndices(t, faults, rows[..|rows| - 1]);
      if ProductLookup(t, faults, rows[|rows| - 1].productId).Some? then init + [|rows| - 1] else init
  }

  /**
   * The assembled list is exactly the products whose own lookup succeeded,
   * in the order of their rows: there is a strictly increasing choice of row
   * positions, containing precisely the positions whose lookup succeeds, and
   * the k-th product is the one found for the k-th chosen row.
   */
  lemma {:induction false} ResolvedIsOrderedFilter(t: Tables, faults: set<Query>, rows: seq<ProductCart>)
    ensures var idx, r := SurvivorIndices(t, faults, rows), Resolved(t, faults, rows);
      && |idx| == |r|
      && (forall k :: 0 <= k < |idx| ==>
            0 <= idx[k] < |rows| && ProductLookup(t, faults, rows[idx[k]].productId) == Some(r[k]))
      && (forall k, l :: 0 <= k < l < |idx| ==> idx[k] < idx[l])
      && (forall i :: 0 <= i < |rows| ==> (i in idx <==> ProductLookup(t, faults, rows[i].productId).Some?))
  {
    if rows != [] {
      var n := |rows| - 1;
      var init := rows[..n];
      ResolvedIsOrderedFilter(t, faults, init);
      var idx0 := SurvivorIndices(t, faults, init);
      assert forall k :: 0 <= k < |idx0| ==> idx0[k] < n;
      assert forall i :: 0 <= i < n ==> rows[i] == init[i];
    }
  }

  /** A cart whose every product lookup fails assembles to the empty list. */
  lemma {:induction false} ResolvedAllFailing(t: Tables, faults: set<Query>, rows: seq<ProductCart>)
    requires forall i :: 0 <= i < |rows| ==> ProductLookup(t, faults, rows[i].productId).None?
    ensures Resolved(t, faults, rows) == []
  {
    if rows != [] {
      var init := rows[..|rows| - 1];
      assert forall i :: 0 <= i < |init| ==> init[i] == rows[i];
      ResolvedAllFailing(t, faults, init);
    }
  }

  /** When every lookup succeeds nothing is skipped: one product per row, row by row. */
  lemma {:induction false} ResolvedAllFound(t: Tables, faults: set<Query>, rows: seq<ProductCart>)
    requires forall i :: 0 <= i < |rows| ==> ProductLookup(t, faults, rows[i].productId).Some?
    ensures |Resolved(t, faults, rows)| == |rows|
    ensures forall i :: 0 <= i < |rows| ==> Some(Resolved(t, faults, rows)[i]) == ProductLookup(t, faults, rows[i].productId)
  {
    if rows != [] {
      var init := rows[..|rows| - 1];
      assert forall i :: 0 <= i < |init| ==> init[i] == rows[i];
      ResolvedAllFound(t, faults, init);
    }
  }

  /** Of a cart with rows for P1 and P2 where only P1 resolves, just P1 is returned. */
  lemma OneMissingProductIsDropped(t: Tables, faults: set<Query>, r1: ProductCart, r2: ProductCart, p1: Product)
    requires ProductLookup(t, faults, r1.productId) == Some(p1)
    requires ProductLookup(t, faults, r2.productId).None?
    ensures Resolved(t, faults, [r1, r2]) == [p1]
  {
    assert [r1, r2][..1] == [r1];
    assert [r1][..0] == [];
  }

  /** Assembling a concatenation assembles each part: skipping one row never disturbs the others. */
  lemma {:induction false} ResolvedAppend(t: Tables, faults: set<Query>, a: seq<ProductCart>, b: seq<ProductCart>)
    ensures Resolved(t, faults, a + b) == Resolved(t, faults, a) + Resolved(t, faults, b)
  {
    if b != [] {
      var b0 := b[..|b| - 1];
      assert (a + b)[..|a + b| - 1] == a + b0;
      assert (a + b)[|a + b| - 1] == b[|b| - 1];
      ResolvedAppend(t, faults, a, b0);
    } else {
      assert a + b == a;
    }
  }

  // ---------------------------------------------------------------------------
  // The database handle

  class DbClient {
    var tables: Tables
    const faults: set<Query>
    var calls: seq<Query>
    var nextCartId: int

    ghost predicate Valid()
      reads this
    {
      WellFormed(tables) && forall c :: c in tables.carts ==> c.id < nextCartId
    }

    constructor(tables: Tables, faults: set<Query>)
      requires WellFormed(tables)
      ensures Valid()
      ensures this.tables == tables && this.faults == faults && calls == []
    {
      this.tables := tables;
      this.faults := faults;
      calls := [];
      nextCartId := NextFreeCartId(tables.carts);
    }

    method FindClientById(clientId: int) returns (found: bool)
      modifies this`calls
      ensures calls == old(calls) + [FindClient(clientId)]
      ensures found <==> clientId in tables.clients && FindClient(clientId) !in faults
    {
      calls := calls + [FindClient(clientId)];
      found := ClientFound(tables, faults, clientId);
    }

    method FirstCartByClient(clientId: int) returns (cart: Option<Cart>)
      modifies this`calls
      ensures calls == old(calls) + [FirstCart(clientId)]
      ensures cart == CartLookup(tables, faults, clientId)
    {
      calls := calls + [FirstCart(clientId)];
      cart := CartLookup(tables, faults, clientId);
    }

    method FindRowsByCart(cartId: int) returns (rows: Option<seq<ProductCart>>)
      modifies this`calls
      ensures calls == old(calls) + [FindCartRows(cartId)]
      ensures rows == RowsLookup(tables, faults, cartId)
    {
      calls := calls + [FindCartRows(cartId)];
      rows := RowsLookup(tables, faults, cartId);
    }

    method FindProductById(productId: int) returns (product: Option<Product>)
      modifies this`calls
      ensures calls == old(calls) + [FindProduct(productId)]
      ensures product == ProductLookup(tables, faults, productId)
    {
      calls := calls + [FindProduct(productId)];
      product := ProductLookup(tables, faults, productId);
    }

    method FindOrderByClient(clientId: int, orderId: int) returns (order: Option<Order>)
      modifies this`calls
      ensures calls == old(calls) + [FindOrder(clientId, orderId)]
      ensures order == OrderLookup(tables, faults, clientId, orderId)
    {
      calls := calls + [FindOrder(clientId, orderId)];
      order := OrderLookup(tables, faults, clientId, orderId);
    }

    /** FirstOrCreate: the client's cart, created with the next id if the client has none. */
    method FirstOrCreateCartByClient(clientId: int) returns (cart: Option<Cart>)
      requires Valid()
      modifies this`tables, this`calls, this`nextCartId
      ensures Valid()
      ensures calls == old(calls) + [FirstOrCreateCart(clientId)]
      ensures FirstOrCreateCart(clientId) in faults ==>
        cart == None && tables == old(tables)
      ensures FirstOrCreateCart(clientId) !in faults ==>
        && cart == Some(EnsuredCart(old(tables.carts), clientId, old(nextCartId)))
        && tables == old(tables).(carts := WithCartFor(old(tables.carts), clientId, old(nextCartId)))
        && CartOf(tables.carts, clientId) == cart
    {
      calls := calls + [FirstOrCreateCart(clientId)];
      if FirstOrCreateCart(clientId) in faults {
        return None;
      }
      EnsuredCartIsFound(tables.carts, clientId, nextCartId);
      var existing := CartOf(tables.carts, clientId);
      if existing.Some? {
        return existing;
      }
      var created := Cart(nextCartId, clientId);
      forall i | 0 <= i < |tables.carts|
        ensures tables.carts[i].id < nextCartId
      {
        assert tables.carts[i] in tables.carts;
      }
      tables := tables.(carts := tables.carts + [created]);
      nextCartId := nextCartId + 1;
      return Some(created);
    }

    method CreateProductCart(row: ProductCart) returns (ok: bool)
      modifies this`tables, this`calls
      ensures calls == old(calls) + [CreateCartRow(row)]
      ensures ok <==> CreateCartRow(row) !in faults
      ensures tables == if ok then old(tables).(rows := old(tables.rows) + [row]) else old(tables)
      ensures old(Valid()) ==> Valid()
    {
      calls := calls + [CreateCartRow(row)];
      ok := CreateCartRow(row) !in faults;
      if ok {
        tables := tables.(rows := tables.rows + [row]);
      }
    }

    method CreateOrder(order: Order) returns (ok: bool)
      modifies this`tables, this`calls
      ensures calls == old(calls) + [CreateOrderRow(order)]
      ensures ok <==> CreateOrderRow(order) !in faults
      ensures tables == if ok then old(tables).(orders := old(tables.orders) + [order]) else old(tables)
    {
      calls := calls + [CreateOrderRow(order)];
      ok := CreateOrderRow(order) !in faults;
      if ok {
        tables := tables.(orders := tables.orders + [order]);
      }
    }
  }
}
