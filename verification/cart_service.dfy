/**
 * CartServiceImpl (internal/services/cart_service.go): the cart operations the
 * HTTP handler calls. Each checks the client through the client repository
 * first and then hands over to the cart repository; GetCart turns the
 * products it gets back into response records.
 */
module CartService {
  import opened Models
  import opened Errors
  import opened Store
  import opened ClientRepository
  import opened CartRepository

  /** `r` is the response record for catalog product `p`: every field copied, the category by its label. */
  predicate Copies(r: ProductResponse, p: Product)
  {
    && r.id == p.id
    && r.labelText == p.labelText
    && r.category == p.category.labelText
    && r.typ == p.typ
    && r.downloadUrl == p.downloadUrl
    && r.weight == p.weight
  }

  /** `resp` answers `ps` one for one, in the same order. */
  predicate Projects(resp: seq<ProductResponse>, ps: seq<Product>)
  {
    |resp| == |ps| && forall i :: 0 <= i < |ps| ==> Copies(resp[i], ps[i])
  }

  /** One response record per product, in order. */
  method ParseProducts(dbProducts: seq<Product>) returns (responseProducts: seq<ProductResponse>)
    ensures Projects(responseProducts, dbProducts)
  {
    responseProducts := [];
    for i := 0 to |dbProducts|
      invariant Projects(responseProducts, dbProducts[..i])
    {
      var e := dbProducts[i];
      var prod := ProductResponse(e.id, e.labelText, e.category.labelText, e.typ, e.downloadUrl, e.weight);
      responseProducts := responseProducts + [prod];
    }
  }

  /**
   * Every record the service answers with describes a catalog product that a
   * row of the client's own cart names, with that product's category label.
   */
  lemma ResponseDescribesOwnProducts(t: Tables, faults: set<Query>, clientId: int, resp: seq<ProductResponse>)
    requires WellFormed(t)
    requires GetCartResult(t, faults, clientId).Ok?
    requires Projects(resp, GetCartResult(t, faults, clientId).value)
    ensures
      var cart := CartOf(t.carts, clientId).value;
      forall i :: 0 <= i < |resp| ==>
        && resp[i].id in t.products
        && ProductCart(resp[i].id, cart.id) in t.rows
        && resp[i].category == t.products[resp[i].id].category.labelText
        && resp[i].labelText == t.products[resp[i].id].labelText
  {
    var ps := GetCartResult(t, faults, clientId).value;
    GetCartReturnsOwnProducts(t, faults, clientId);
    forall i | 0 <= i < |resp|
      ensures resp[i].id in t.products && t.products[resp[i].id] == ps[i]
    {
      assert ps[i] in ps;
    }
  }

  class CartServiceImpl {
    const cartRepository: PgCartRepository
    const clientRepository: PgClientRepository
    /** The store both repositories work on. */
    ghost const db: DbClient

    ghost predicate Wired()
    {
      cartRepository.db == db && clientRepository.db == db && cartRepository.Wired()
    }

    constructor(db: DbClient)
      ensures this.db == db && Wired()
    {
      cartRepository := new PgCartRepository(db);
      clientRepository := new PgClientRepository(db);
      this.db := db;
    }

    /**
     * Client check, then the cart repository's add. Its answer is the cart
     * repository's: that one checks the client again, so the service's own
     * check only adds one lookup in front.
     */
    method AddProduct(productId: int, clientId: int) returns (err: Option<Error>)
      requires Wired() && db.Valid()
      modifies db`tables, db`calls, db`nextCartId
      ensures db.Valid()
      ensures err == AddProductToCartError(old(db.tables), db.faults, old(db.nextCartId), productId, clientId)
      ensures db.tables == AddProductToCartTables(old(db.tables), db.faults, old(db.nextCartId), productId, clientId)
      ensures db.calls == old(db.calls) + [FindClient(clientId)] +
        (if ClientFound(old(db.tables), db.faults, clientId)
         then AddProductToCartCalls(old(db.tables), db.faults, old(db.nextCartId), productId, clientId)
         else [])
    {
      var found := clientRepository.IsClientInDataBase(clientId);
      if !found {
        return Some(ClientNotFound(clientId));
      }
      err := cartRepository.AddProductToCart(productId, clientId);
    }

    /**
     * Client check, then the cart repository's read; on success the products
     * become response records, on failure the response is empty and the
     * repository's error is passed on.
     */
    method GetCart(clientId: int) returns (resp: GetCartResponse, err: Option<Error>)
      requires Wired()
      modifies db`calls
      ensures db.tables == old(db.tables)
      ensures db.calls == old(db.calls) + [FindClient(clientId)] +
        (if ClientFound(db.tables, db.faults, clientId) then GetCartCalls(db.tables, db.faults, clientId) else [])
      ensures match GetCartResult(db.tables, db.faults, clientId)
        case Err(e) => err == Some(e) && resp.products == []
        case Ok(ps) => err == None && Projects(resp.products, ps)
    {
      resp := GetCartResponse([]);
      var found := clientRepository.IsClientInDataBase(clientId);
      if !found {
        return resp, Some(ClientNotFound(clientId));
      }
      var prods := cartRepository.GetCart(clientId);
      if prods.Err? {
        return resp, Some(prods.error);
      }
      var products := ParseProducts(prods.value);
      resp := resp.(products := products);
      err := None;
    }
  }
}
