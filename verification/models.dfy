/**
 * The records the core reads and writes (internal/models) and the record the
 * cart service answers with (internal/models/response).
 */
module Models {

  datatype Option<+T> = None | Some(value: T)

  /** A float64 weight. The core only copies it, so its value stays abstract. */
  type Weight(==)

  /** The product's category, of which the cart service reads only the label (`labelText`). */
  datatype Category = Category(id: int, labelText: string)

  /** A catalog entry (internal/models/product.go). */
  datatype Product = Product(
    id: int,
    categoryId: int,
    category: Category,
    labelText: string,
    typ: int,
    downloadUrl: string,
    weight: Weight)

  /** One product-in-cart association row (internal/models/product_cart.go). */
  datatype ProductCart = ProductCart(productId: int, cartId: int)

  /** A client's cart. */
  datatype Cart = Cart(id: int, clientId: int)

  /** An order placed on a client's cart. */
  datatype Order = Order(cartId: int, clientId: int)

  /** One product as the cart service returns it (internal/models/response/product_response.go). */
  datatype ProductResponse = ProductResponse(
    id: int,
    labelText: string,
    category: string,
    typ: int,
    downloadUrl: string,
    weight: Weight)

  /** The body of a GetCart answer. */
  datatype GetCartResponse = GetCartResponse(products: seq<ProductResponse>)
}
