/** Rows of the product catalog as the storefront receives them: a product
    together with the powers (lens strengths) it is stocked in. Timestamps are
    integers. */
module Catalog {
  import opened Common

  datatype ProductPower = ProductPower(
    id: int,
    power: string,
    productId: Option<int>,
    quantity: int,
    createdAt: Option<int>)

  datatype Product = Product(
    id: int,
    name: string,
    series: string,
    color: string,
    description: Option<string>,
    imageUrl: Option<string>,
    createdAt: Option<int>,
    powers: seq<ProductPower>)
}
