/** The product document of models/product.model.js. */
module ProductModel {
  import opened Wrappers

  /** A schema `Number`. JavaScript numbers are doubles; the listing never looks
      at these fields, so they are kept as mathematical integers. */
  type Number = int

  /** One document of the `products` collection. The schema declares every field
      without `required` and without `default`, so a stored document may lack any
      of them, `deleted` and `status` included. */
  datatype Product = Product(
    title: Option<string>,
    description: Option<string>,
    price: Option<Number>,
    discountPercentage: Option<Number>,
    stock: Option<Number>,
    thumbnail: Option<string>,
    status: Option<string>,
    position: Option<Number>,
    deleted: Option<bool>
  )
}
