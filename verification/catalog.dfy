/** The catalog's product record, as the REST catalog returns it. */
module Catalog {

  /** One key type for products everywhere: the route argument, the
      favourites table's primary key and `Product.id` (see README). */
  type ProductId = string

  /** `rating.rate` is a floating-point score; it is only copied, never
      computed with, so a `real` stands in for the `Double`. */
  datatype Rating = Rating(rate: real, count: int)

  datatype Product = Product(
    id: ProductId,
    title: string,
    price: real,
    description: string,
    category: string,
    image: string,
    rating: Rating)
}
