// The catalogue record: its required fields and defaults, the creation that
// validates a request body against them, and the update that overlays a
// body without validation.

module ProductModel {
  import opened Wrappers

  type ProductId = nat

  datatype Product = Product(
    id: ProductId,
    name: string,
    description: string,
    price: real,
    originalPrice: Option<real>,
    image: string,
    images: seq<string>,
    category: string,
    brand: string,
    sizes: seq<real>,
    colors: seq<string>,
    features: seq<string>,
    inStock: bool,
    isNew: bool,
    isFeatured: bool,
    stockQuantity: int,
    rating: real)

  /** A request body: each schema field either given or absent. Fields
      outside the schema are dropped by strict mode and not represented;
      `reviews` is never written by the modelled code. */
  datatype ProductInput = ProductInput(
    name: Option<string>,
    description: Option<string>,
    price: Option<real>,
    originalPrice: Option<real>,
    image: Option<string>,
    images: Option<seq<string>>,
    category: Option<string>,
    brand: Option<string>,
    sizes: Option<seq<real>>,
    colors: Option<seq<string>>,
    features: Option<seq<string>>,
    inStock: Option<bool>,
    isNew: Option<bool>,
    isFeatured: Option<bool>,
    stockQuantity: Option<int>,
    rating: Option<real>)

  const DEFAULT_IN_STOCK: bool := true
  const DEFAULT_IS_NEW: bool := false
  const DEFAULT_IS_FEATURED: bool := false
  const DEFAULT_STOCK_QUANTITY: int := 0
  const DEFAULT_RATING: real := 0.0

  const NoChanges: ProductInput :=
    ProductInput(None, None, None, None, None, None, None, None, None, None, None, None, None, None, None, None)

  /** `required` on a string rejects an absent value and the empty string. */
  predicate RequiredText(s: Option<string>)
  {
    s.Some? && s.value != ""
  }

  /** Name, description, price, image, category and brand are required. */
  predicate HasRequiredFields(input: ProductInput)
  {
    && RequiredText(input.name)
    && RequiredText(input.description)
    && input.price.Some?
    && RequiredText(input.image)
    && RequiredText(input.category)
    && RequiredText(input.brand)
  }

  /** `Product.create(body)`: None is the validation error. */
  function CreateProduct(id: ProductId, input: ProductInput): (r: Option<Product>)
    ensures r.Some? <==> HasRequiredFields(input)
    ensures r.Some? ==>
      (&& r.value.id == id
       && r.value.name == input.name.value && r.value.price == input.price.value
       && r.value.brand == input.brand.value && r.value.category == input.category.value
       && r.value.image == input.image.value && r.value.description == input.description.value
       && r.value.originalPrice == input.originalPrice
       && r.value.inStock == (if input.inStock.Some? then input.inStock.value else DEFAULT_IN_STOCK)
       && r.value.isNew == (if input.isNew.Some? then input.isNew.value else DEFAULT_IS_NEW)
       && r.value.isFeatured == (if input.isFeatured.Some? then input.isFeatured.value else DEFAULT_IS_FEATURED)
       && r.value.stockQuantity == (if input.stockQuantity.Some? then input.stockQuantity.value else DEFAULT_STOCK_QUANTITY)
       && r.value.rating == (if input.rating.Some? then input.rating.value else DEFAULT_RATING)
       && r.value.images == GetOr(input.images, []) && r.value.sizes == GetOr(input.sizes, [])
       && r.value.colors == GetOr(input.colors, []) && r.value.features == GetOr(input.features, []))
  {
    if HasRequiredFields(input) then
      Some(Product(
        id, input.name.value, input.description.value, input.price.value, input.originalPrice,
        input.image.value, GetOr(input.images, []), input.category.value, input.brand.value,
        GetOr(input.sizes, []), GetOr(input.colors, []), GetOr(input.features, []),
        GetOr(input.inStock, DEFAULT_IN_STOCK), GetOr(input.isNew, DEFAULT_IS_NEW),
        GetOr(input.isFeatured, DEFAULT_IS_FEATURED), GetOr(input.stockQuantity, DEFAULT_STOCK_QUANTITY),
        GetOr(input.rating, DEFAULT_RATING)))
    else None
  }

  /** A field after an update: the body's value when given, else the stored one. */
  predicate Overlaid<T(==)>(field: T, given: Option<T>, stored: T)
  {
    if given.Some? then field == given.value else field == stored
  }

  /** `findByIdAndUpdate(id, body)`: every given field replaces the stored
      one, the id and absent fields stay; update validators are off, so
      nothing is checked. `originalPrice` can be set but not removed. */
  function ApplyUpdate(p: Product, input: ProductInput): (r: Product)
    ensures r.id == p.id
    ensures Overlaid(r.name, input.name, p.name) && Overlaid(r.description, input.description, p.description)
    ensures Overlaid(r.price, input.price, p.price)
    ensures input.originalPrice.Some? ==> r.originalPrice == input.originalPrice
    ensures input.originalPrice.None? ==> r.originalPrice == p.originalPrice
    ensures Overlaid(r.image, input.image, p.image) && Overlaid(r.images, input.images, p.images)
    ensures Overlaid(r.category, input.category, p.category) && Overlaid(r.brand, input.brand, p.brand)
    ensures Overlaid(r.sizes, input.sizes, p.sizes) && Overlaid(r.colors, input.colors, p.colors)
    ensures Overlaid(r.features, input.features, p.features)
    ensures Overlaid(r.inStock, input.inStock, p.inStock) && Overlaid(r.isNew, input.isNew, p.isNew)
    ensures Overlaid(r.isFeatured, input.isFeatured, p.isFeatured)
    ensures Overlaid(r.stockQuantity, input.stockQuantity, p.stockQuantity) && Overlaid(r.rating, input.rating, p.rating)
  {
    Product(
      p.id,
      GetOr(input.name, p.name),
      GetOr(input.description, p.description),
      GetOr(input.price, p.price),
      if input.originalPrice.Some? then input.originalPrice else p.originalPrice,
      GetOr(input.image, p.image),
      GetOr(input.images, p.images),
      GetOr(input.category, p.category),
      GetOr(input.brand, p.brand),
      GetOr(input.sizes, p.sizes),
      GetOr(input.colors, p.colors),
      GetOr(input.features, p.features),
      GetOr(input.inStock, p.inStock),
      GetOr(input.isNew, p.isNew),
      GetOr(input.isFeatured, p.isFeatured),
      GetOr(input.stockQuantity, p.stockQuantity),
      GetOr(input.rating, p.rating))
  }

  /** An empty body changes nothing. */
  lemma UpdateWithNothing(p: Product)
    ensures ApplyUpdate(p, NoChanges) == p
  {
  }

  /** Sending the same body twice has the effect of sending it once. */
  lemma UpdateIdempotent(p: Product, input: ProductInput)
    ensures ApplyUpdate(ApplyUpdate(p, input), input) == ApplyUpdate(p, input)
  {
  }

  /** Updating with the full body a product was created from gives back the
      product as created (a create followed by a "save unchanged"). */
  lemma UpdateWithOwnBody(id: ProductId, input: ProductInput)
    requires HasRequiredFields(input)
    ensures ApplyUpdate(CreateProduct(id, input).value, input) == CreateProduct(id, input).value
  {
  }
}
