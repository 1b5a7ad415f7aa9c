/** Types shared by the storefront pages: the catalogue product as the
    product API returns it, and a cart line as the cart store holds it. */
module Shop {

  /** A value that may be absent: a missing storage key, an undefined property. */
  datatype Option<+T> = None | Some(value: T)

  /** A JavaScript string as `length` and `substring` see it: a sequence of
      UTF-16 code units. A character outside the Basic Multilingual Plane
      takes two units (a surrogate pair). The product description, the
      text the card truncates, is held in this form. */
  type CodeUnit = u: int | 0 <= u < 0x1_0000
  type Utf16 = seq<CodeUnit>

  datatype Rating = Rating(rate: real, count: int)

  /** A catalogue product. Prices and ratings are JavaScript doubles; they
      are exact reals here. */
  datatype Product = Product(
    id: int,
    title: string,
    price: real,
    description: Utf16,
    category: string,
    image: string,
    rating: Rating)

  /** A cart line: every field of the product spread into one record,
      plus the quantity. */
  datatype CartItem = CartItem(
    id: int,
    title: string,
    price: real,
    description: Utf16,
    category: string,
    image: string,
    rating: Rating,
    quantity: int)

  /** The product fields of a cart line, without its quantity. */
  function ProductOf(item: CartItem): Product
  {
    Product(item.id, item.title, item.price, item.description, item.category, item.image, item.rating)
  }
}
