/** The static product catalog entry (`ProductToCreate`), which is also what
    the storefront adds to the cart. */
module Catalog {

  /** A catalog product. `price` is in dollars; `image` is a display-only
      reference; `eligibility` is the HSA/FSA classification label, kept as
      the text the catalog carries. */
  datatype Product = Product(
    name: string,
    description: string,
    price: real,
    image: string,
    eligibility: string,
    metadata: map<string, string>)
}
