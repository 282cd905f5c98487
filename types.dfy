/** The records shared by the storefront, the shell and the cursor layer (types.ts). */
module Types {

  datatype Option<T> = None | Some(value: T)

  /** A catalog product. `price` is held in whole cents; `categoryId` is optional. */
  datatype Product = Product(
    id: string,
    name: string,
    description: string,
    price: int,
    stock: int,
    imageUrl: string,
    categoryId: Option<string>)

  /** A cart line: the product as it was when first added, and how many of it. */
  datatype CartItem = CartItem(product: Product, quantity: int)

  datatype Category = Category(id: string, name: string, slug: string)

  /** The signed-in user: its identity and the `username` of its profile metadata, if any. */
  datatype User = User(id: string, username: Option<string>)

  /** A presence payload published on the cursor channel; `x` and `y` are viewport percentages. */
  datatype Cursor = Cursor(userId: string, username: string, x: real, y: real, color: string)

  /** JavaScript truthiness of an optional string: absent and empty are both false. */
  predicate Truthy(s: Option<string>) {
    s.Some? && s.value != ""
  }
}
