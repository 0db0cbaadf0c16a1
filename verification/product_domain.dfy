/** The product side of the cart decorator: the product kinds it distinguishes and the basic
    data it reads. The product service and the configurable product's variant selection are
    outside this model; the decorator receives their answers as oracles. */
module ProductDomain {
  import opened Wrappers

  /** The `Type()` of a product. */
  datatype ProductType = TypeSimple | TypeConfigurable | TypeConfigurableWithActiveVariant | TypeOther(name: string)

  datatype BasicProductData = BasicProductData(title: string, marketPlaceCode: string, retailerCode: string)

  /** A `domain.BasicProduct`. `OtherProduct` stands for any further implementation,
      including one whose `Type()` claims to be configurable without being a
      `ConfigurableProduct` value. */
  datatype Product =
    | SimpleProduct(baseData: BasicProductData)
    | ConfigurableProduct(baseData: BasicProductData)
    | ConfigurableProductWithActiveVariant(baseData: BasicProductData, activeVariantMarketPlaceCode: string)
    | OtherProduct(productType: ProductType, baseData: BasicProductData)

  function Type(p: Product): ProductType
  {
    match p
    case SimpleProduct(_) => TypeSimple
    case ConfigurableProduct(_) => TypeConfigurable
    case ConfigurableProductWithActiveVariant(_, _) => TypeConfigurableWithActiveVariant
    case OtherProduct(t, _) => t
  }

  /** What `ProductService.Get` answered: a product, or an error together with whatever
      product value came back alongside it (usually none). */
  datatype ProductAnswer = Found(product: Product) | Failed(error: string, partial: Option<Product>)

  /** The collaborators of the decorated-cart factory: `get` is `ProductService.Get` by
      marketplace code; `withActiveVariant` is `GetConfigurableWithActiveVariant` of a
      configurable product, answering with the basic data of the configurable whose variant
      with the given marketplace code is made active, or an error when there is no such
      variant. */
  datatype ProductOracles = ProductOracles(
    get: string -> ProductAnswer,
    withActiveVariant: (Product, string) -> Result<BasicProductData>)
}
