/** The product catalogue of products.ts: a fixed list loaded from `products.json`. */
module Products {
  import opened Wrappers

  /** `successMessage` of a product. */
  datatype SuccessMessage = SuccessMessage(title: string, description: string, nextSteps: seq<string>)

  /** `Product` (products.ts:4-20); `price` is a whole number of the currency's units. */
  datatype Product = Product(
    slug: string,
    name: string,
    description: string,
    price: int,
    currency: string,
    active: bool,
    successUrl: Option<string>,
    imageUrl: Option<string>,
    logoUrl: Option<string>,
    webhookUrl: Option<string>,
    successMessage: Option<SuccessMessage>)

  /** `getAllProducts` (products.ts:29-31): the loaded list itself, in file order. */
  function GetAllProducts(catalog: seq<Product>): seq<Product> {
    catalog
  }

  /**
   * `getProductBySlug` (products.ts:38-40): `Array.prototype.find` on the slug. Nothing is
   * found exactly when no product has the slug; a product found has it and is in the list.
   */
  function GetProductBySlug(catalog: seq<Product>, slug: string): (found: Option<Product>)
    ensures found.None? <==> forall i :: 0 <= i < |catalog| ==> catalog[i].slug != slug
    ensures found.Some? ==> found.value.slug == slug && found.value in catalog
  {
    if catalog == [] then None
    else if catalog[0].slug == slug then Some(catalog[0])
    else GetProductBySlug(catalog[1..], slug)
  }

  /** The first product with the slug is the one found, whatever its `active` flag says. */
  lemma {:induction false} GetProductBySlugIsFirst(catalog: seq<Product>, slug: string, i: nat)
    requires i < |catalog| && catalog[i].slug == slug
    requires forall j :: 0 <= j < i ==> catalog[j].slug != slug
    ensures GetProductBySlug(catalog, slug) == Some(catalog[i])
  {
    if i > 0 {
      GetProductBySlugIsFirst(catalog[1..], slug, i - 1);
    }
  }

  /** A slug is found exactly when some product of `getAllProducts` carries it. */
  lemma LookupAgreesWithList(catalog: seq<Product>, slug: string)
    ensures GetProductBySlug(catalog, slug).Some? <==> exists p :: p in GetAllProducts(catalog) && p.slug == slug
  {
    if p :| p in GetAllProducts(catalog) && p.slug == slug {
      var i :| 0 <= i < |catalog| && catalog[i] == p;
      assert catalog[i].slug == slug;
    }
  }
}
