/**
 * The Product schema (backend/src/models/Product.ts): which fields are required,
 * their bounds and enumeration, the defaults filled in for absent fields, and the
 * `trim` setter on the name. `required` on a string rejects the empty string.
 */
module ProductSchema {
  import opened Types
  import opened Wrappers
  import opened Text

  const Categories: seq<string> := ["Men", "Women", "Accessories", "Shoes", "Sale"]
  const DefaultSizes: seq<string> := ["XS", "S", "M", "L", "XL"]
  const DefaultColors: seq<string> := ["Black", "White"]

  /** A request body or seed row: every field may be absent. */
  datatype ProductFields = ProductFields(
    name: Option<string>,
    description: Option<string>,
    price: Option<real>,
    category: Option<string>,
    sizes: Option<seq<string>>,
    colors: Option<seq<string>>,
    imageUrl: Option<string>,
    images: Option<seq<string>>,
    inStock: Option<bool>,
    stockQuantity: Option<int>,
    featured: Option<bool>,
    rating: Option<real>,
    reviewCount: Option<int>)

  /** The validators of the schema, on a stored document. */
  predicate SchemaValid(p: Product) {
    && p.name != ""
    && p.description != ""
    && p.price >= 0.0
    && p.category in Categories
    && p.imageUrl != ""
    && p.stockQuantity >= 0
    && 0.0 <= p.rating <= 5.0
    && p.reviewCount >= 0
  }

  /** What every stored product satisfies: it passed validation and its name went through `trim`. */
  predicate Stored(p: Product) {
    SchemaValid(p) && Trim(p.name) == p.name
  }

  predicate RequiredPresent(f: ProductFields) {
    f.name.Some? && f.description.Some? && f.price.Some? && f.category.Some? && f.imageUrl.Some?
  }

  /** The validators applied to each field that is present (the name after its `trim` setter). */
  predicate FieldsValid(f: ProductFields) {
    && (f.name.Some? ==> Trim(f.name.value) != "")
    && (f.description.Some? ==> f.description.value != "")
    && (f.price.Some? ==> f.price.value >= 0.0)
    && (f.category.Some? ==> f.category.value in Categories)
    && (f.imageUrl.Some? ==> f.imageUrl.value != "")
    && (f.stockQuantity.Some? ==> f.stockQuantity.value >= 0)
    && (f.rating.Some? ==> 0.0 <= f.rating.value <= 5.0)
    && (f.reviewCount.Some? ==> f.reviewCount.value >= 0)
  }

  /** `new Product(fields)`: the document with the schema defaults filled in for absent fields. */
  function Build(f: ProductFields, id: string, now: int): (p: Product)
    requires RequiredPresent(f)
    ensures p.id == id && p.createdAt == now && p.updatedAt == now
    ensures p.name == Trim(f.name.value) && p.description == f.description.value
    ensures p.price == f.price.value && p.category == f.category.value && p.imageUrl == f.imageUrl.value
    ensures p.sizes == f.sizes.GetOr(DefaultSizes) && p.colors == f.colors.GetOr(DefaultColors)
    ensures p.images == f.images.GetOr([]) && p.inStock == f.inStock.GetOr(true)
    ensures p.stockQuantity == f.stockQuantity.GetOr(0) && p.featured == f.featured.GetOr(false)
    ensures p.rating == f.rating.GetOr(0.0) && p.reviewCount == f.reviewCount.GetOr(0)
  {
    Product(id, Trim(f.name.value), f.description.value, f.price.value, f.category.value,
      f.sizes.GetOr(DefaultSizes), f.colors.GetOr(DefaultColors), f.imageUrl.value, f.images.GetOr([]),
      f.inStock.GetOr(true), f.stockQuantity.GetOr(0), f.featured.GetOr(false),
      f.rating.GetOr(0.0), f.reviewCount.GetOr(0), now, now)
  }

  /**
   * Creating a document and saving it: the built document, or None when saving
   * would fail validation (a required field absent or a validator failing).
   */
  function NewProduct(f: ProductFields, id: string, now: int): (r: Option<Product>)
    ensures r.Some? <==> RequiredPresent(f) && FieldsValid(f)
    ensures r.Some? ==> r.value == Build(f, id, now) && Stored(r.value)
  {
    if RequiredPresent(f) && FieldsValid(f) then
      BuildStored(f, id, now);
      Some(Build(f, id, now))
    else
      None
  }

  lemma BuildStored(f: ProductFields, id: string, now: int)
    requires RequiredPresent(f) && FieldsValid(f)
    ensures Stored(Build(f, id, now))
  {
    TrimIdempotent(f.name.value);
  }

  /** An update: each present field replaces the stored one (the name through `trim`). */
  function ApplyPatch(p: Product, f: ProductFields, now: int): Product {
    p.(name := if f.name.Some? then Trim(f.name.value) else p.name,
       description := f.description.GetOr(p.description),
       price := f.price.GetOr(p.price),
       category := f.category.GetOr(p.category),
       sizes := f.sizes.GetOr(p.sizes),
       colors := f.colors.GetOr(p.colors),
       imageUrl := f.imageUrl.GetOr(p.imageUrl),
       images := f.images.GetOr(p.images),
       inStock := f.inStock.GetOr(p.inStock),
       stockQuantity := f.stockQuantity.GetOr(p.stockQuantity),
       featured := f.featured.GetOr(p.featured),
       rating := f.rating.GetOr(p.rating),
       reviewCount := f.reviewCount.GetOr(p.reviewCount),
       updatedAt := now)
  }

  /** Checking only the updated fields suffices: a valid update of a stored product is stored-valid. */
  lemma PatchPreservesStored(p: Product, f: ProductFields, now: int)
    requires Stored(p) && FieldsValid(f)
    ensures Stored(ApplyPatch(p, f, now))
    ensures ApplyPatch(p, f, now).id == p.id && ApplyPatch(p, f, now).createdAt == p.createdAt
  {
    if f.name.Some? {
      TrimIdempotent(f.name.value);
    }
  }

  /** All defaults are valid: a body holding just the required fields, validly, is accepted. */
  lemma MinimalBodyAccepted(name: string, description: string, price: real, category: string,
                            imageUrl: string, id: string, now: int)
    requires Trim(name) != "" && description != "" && price >= 0.0 && category in Categories && imageUrl != ""
    ensures var f := ProductFields(Some(name), Some(description), Some(price), Some(category), None, None,
                                   Some(imageUrl), None, None, None, None, None, None);
      var r := NewProduct(f, id, now);
      && r.Some?
      && r.value.sizes == ["XS", "S", "M", "L", "XL"] && r.value.colors == ["Black", "White"]
      && r.value.images == [] && r.value.inStock && r.value.stockQuantity == 0 && !r.value.featured
      && r.value.rating == 0.0 && r.value.reviewCount == 0
  {
  }
}
