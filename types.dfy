/**
 * The shapes shared by the client and the server (frontend/src/types/index.ts and
 * the Product schema's fields). Money and ratings are exact decimals (`real`);
 * timestamps are milliseconds since the epoch.
 */
module Types {

  /** A catalogue product; `id` is the document's `_id` as a string. */
  datatype Product = Product(
    id: string,
    name: string,
    description: string,
    price: real,
    category: string,
    sizes: seq<string>,
    colors: seq<string>,
    imageUrl: string,
    images: seq<string>,
    inStock: bool,
    stockQuantity: int,
    featured: bool,
    rating: real,
    reviewCount: int,
    createdAt: int,
    updatedAt: int)

  /** One cart line: a product snapshot, a quantity and the chosen variant. */
  datatype CartItem = CartItem(product: Product, quantity: int, selectedSize: string, selectedColor: string)

  /** The key `addToCart` merges on. */
  datatype LineKey = LineKey(productId: string, size: string, color: string)

  function KeyOf(item: CartItem): LineKey {
    LineKey(item.product.id, item.selectedSize, item.selectedColor)
  }

  /** The claims a verified bearer token carries. */
  datatype TokenPayload = TokenPayload(userId: string, email: string, role: string)

  /** A stored user, as far as the seed routine touches the User collection. */
  datatype User = User(email: string, password: string, firstName: string, lastName: string, role: string)
}
