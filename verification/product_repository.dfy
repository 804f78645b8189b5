/**
 * PgProductRepository (internal/repository/product_repository.go): single
 * product lookups and the assembly of a cart's contents, which fails only
 * when the cart's association rows cannot be listed and otherwise skips each
 * product it cannot find.
 *
 * Its database handle only ever reads: every method may change the call
 * record of the store and nothing else.
 */
module ProductRepository {
  import opened Models
  import opened Errors
  import opened Store

  class PgProductRepository {
    const db: DbClient

    constructor(db: DbClient)
      ensures this.db == db
    {
      this.db := db;
    }

    /** The products of a cart, in row order; products whose lookup fails are left out. */
    method FindProductsFromCart(cartId: int) returns (r: Result<seq<Product>>)
      modifies db`calls
      ensures r.Err? <==> FindCartRows(cartId) in db.faults
      ensures r.Err? ==>
        r.error == ProductListUnavailable && db.calls == old(db.calls) + [FindCartRows(cartId)]
      ensures r.Ok? ==>
        var rows := RowsOfCart(db.tables.rows, cartId);
        && r.value == Resolved(db.tables, db.faults, rows)
        && db.calls == old(db.calls) + [FindCartRows(cartId)] + LookupCalls(rows)
    {
      var productsCarts := FindListOfProductsForCartId(cartId);
      if productsCarts.Err? {
        return Err(productsCarts.error);
      }
      var productList := FindProductsFromProductCartsList(productsCarts.value);
      return Ok(productList);
    }

    /** The stored product with this id, or "unable to find the product in our db". */
    method FindProductById(productId: int) returns (r: Result<Product>)
      modifies db`calls
      ensures db.calls == old(db.calls) + [FindProduct(productId)]
      ensures r.Ok? <==> productId in db.tables.products && FindProduct(productId) !in db.faults
      ensures r.Ok? ==> r.value == db.tables.products[productId]
      ensures r.Err? ==> r.error == ProductNotFound
    {
      var product := db.FindProductById(productId);
      if product.None? {
        return Err(ProductNotFound);
      }
      return Ok(product.value);
    }

    /** The cart's association rows, or "unable to retrieve the list of products". */
    method FindListOfProductsForCartId(cartId: int) returns (r: Result<seq<ProductCart>>)
      modifies db`calls
      ensures db.calls == old(db.calls) + [FindCartRows(cartId)]
      ensures r.Err? <==> FindCartRows(cartId) in db.faults
      ensures r.Err? ==> r.error == ProductListUnavailable
      ensures r.Ok? ==> r.value == RowsOfCart(db.tables.rows, cartId)
    {
      var productsCarts := db.FindRowsByCart(cartId);
      if productsCarts.None? {
        return Err(ProductListUnavailable);
      }
      return Ok(productsCarts.value);
    }

    /** One lookup per row, in row order; a failed lookup is skipped (the source only logs it). */
    method FindProductsFromProductCartsList(productCarts: seq<ProductCart>) returns (productList: seq<Product>)
      modifies db`calls
      ensures productList == Resolved(db.tables, db.faults, productCarts)
      ensures db.calls == old(db.calls) + LookupCalls(productCarts)
    {
      productList := [];
      for i := 0 to |productCarts|
        invariant productList == Resolved(db.tables, db.faults, productCarts[..i])
        invariant db.calls == old(db.calls) + LookupCalls(productCarts[..i])
      {
        var product := FindProductById(productCarts[i].productId);
        if product.Ok? {
          productList := productList + [product.value];
        }
        assert productCarts[..i + 1][..i] == productCarts[..i];
      }
      assert productCarts[..|productCarts|] == productCarts;
    }
  }
}
