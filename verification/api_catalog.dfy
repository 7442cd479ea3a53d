/** The product catalogue of the mock API and the helper that turns a
    product selection into the payload sent to the chat cart. The
    catalogue is fixed data, so it is a parameter here. Prices are in
    integer cents. */
module Catalog {
  import opened Common

  datatype Variant = Variant(
    id: string,
    sku: string,
    thickness: string,
    size: string,
    priceCents: int,
    compareAtPriceCents: Option<int>,
    stock: int)

  datatype Product = Product(
    id: string,
    slug: string,
    name: string,
    shortName: string,
    description: string,
    features: seq<string>,
    images: seq<string>,
    category: string,
    variants: seq<Variant>,
    active: bool)

  datatype AddToCartPayload = AddToCartPayload(
    sku: string,
    quantity: int,
    productName: string,
    variantName: string,
    unitPriceCents: int,
    image: Option<string>)

  /** `getProducts`: the active products, in catalogue order. */
  function GetProducts(catalog: seq<Product>): (r: seq<Product>)
    ensures forall k :: 0 <= k < |r| ==> r[k].active && r[k] in catalog
    ensures forall k :: 0 <= k < |catalog| && catalog[k].active ==> catalog[k] in r
  {
    Filter(catalog, (p: Product) => p.active)
  }

  /** `getProduct`: the first active product with that slug. */
  function GetProduct(catalog: seq<Product>, slug: string): (r: Option<Product>)
    ensures r.Some? ==> r.value.slug == slug && r.value.active && r.value in catalog
    ensures r.None? <==> forall k :: 0 <= k < |catalog| ==> !(catalog[k].slug == slug && catalog[k].active)
  {
    match FindFirst(catalog, (p: Product) => p.slug == slug && p.active)
    case None => None
    case Some(i) => Some(catalog[i])
  }

  /** `product.variants.find(v => v.sku === sku)`. */
  function VariantIndex(p: Product, sku: string): Option<nat>
  {
    FindFirst(p.variants, (v: Variant) => v.sku == sku)
  }

  /** Some product of the catalogue, active or not, has a variant with that SKU. */
  predicate SkuListed(catalog: seq<Product>, sku: string)
  {
    exists i, j | 0 <= i < |catalog| && 0 <= j < |catalog[i].variants| :: catalog[i].variants[j].sku == sku
  }

  /** Variant `j` of product `i` is the first variant with that SKU, and
      no earlier product has one. */
  predicate FirstHolder(catalog: seq<Product>, sku: string, i: int, j: int)
  {
    && 0 <= i < |catalog| && 0 <= j < |catalog[i].variants| && catalog[i].variants[j].sku == sku
    && (forall m :: 0 <= m < j ==> catalog[i].variants[m].sku != sku)
    && (forall k, m :: 0 <= k < i && 0 <= m < |catalog[k].variants| ==> catalog[k].variants[m].sku != sku)
  }

  /** Past a first product without that SKU, the SKU is listed in the whole
      catalogue exactly when it is listed in the rest. */
  lemma SkuListedTail(catalog: seq<Product>, sku: string)
    requires |catalog| > 0 && VariantIndex(catalog[0], sku).None?
    ensures SkuListed(catalog, sku) <==> SkuListed(catalog[1..], sku)
  {
    if SkuListed(catalog[1..], sku) {
      var i, j :| 0 <= i < |catalog[1..]| && 0 <= j < |catalog[1..][i].variants|
                  && catalog[1..][i].variants[j].sku == sku;
      assert catalog[i + 1].variants[j].sku == sku;
    }
    if SkuListed(catalog, sku) {
      var i, j :| 0 <= i < |catalog| && 0 <= j < |catalog[i].variants| && catalog[i].variants[j].sku == sku;
      assert i != 0;
      assert catalog[1..][i - 1].variants[j].sku == sku;
    }
  }

  /** Past a first product without that SKU, the first holder in the rest is
      the first holder in the whole catalogue. */
  lemma FirstHolderTail(catalog: seq<Product>, sku: string, i: int, j: int)
    requires |catalog| > 0 && VariantIndex(catalog[0], sku).None?
    requires FirstHolder(catalog[1..], sku, i, j)
    ensures FirstHolder(catalog, sku, i + 1, j) && catalog[i + 1] == catalog[1..][i]
  {
    forall k, m | 0 <= k < i + 1 && 0 <= m < |catalog[k].variants|
      ensures catalog[k].variants[m].sku != sku
    {
      if k > 0 {
        assert catalog[k] == catalog[1..][k - 1];
      }
    }
  }

  /** The first product, in catalogue order and whether active or not,
      holding a variant with that SKU, paired with its first such variant. */
  function SkuLookup(catalog: seq<Product>, sku: string): (r: Option<(Product, Variant)>)
    ensures r.Some? ==> r.value.0 in catalog && r.value.1 in r.value.0.variants && r.value.1.sku == sku
    ensures r.Some? ==> exists i, j :: FirstHolder(catalog, sku, i, j) && r.value == (catalog[i], catalog[i].variants[j])
    ensures r.None? <==> !SkuListed(catalog, sku)
  {
    if |catalog| == 0 then None
    else match VariantIndex(catalog[0], sku)
      case Some(j) =>
        assert FirstHolder(catalog, sku, 0, j);
        Some((catalog[0], catalog[0].variants[j]))
      case None =>
        var r := SkuLookup(catalog[1..], sku);
        SkuListedTail(catalog, sku);
        if r.Some? then
          var i, j :| FirstHolder(catalog[1..], sku, i, j) && r.value == (catalog[1..][i], catalog[1..][i].variants[j]);
          FirstHolderTail(catalog, sku, i, j);
          r
        else r
  }

  /** `getProductBySku`: scans the catalogue product by product and stops
      at the first one holding a variant with that SKU. */
  method GetProductBySku(catalog: seq<Product>, sku: string) returns (r: Option<(Product, Variant)>)
    ensures r == SkuLookup(catalog, sku)
  {
    for i := 0 to |catalog|
      invariant SkuLookup(catalog, sku) == SkuLookup(catalog[i..], sku)
    {
      assert catalog[i..][1..] == catalog[i + 1..];
      var variant := VariantIndex(catalog[i], sku);
      if variant.Some? {
        return Some((catalog[i], catalog[i].variants[variant.value]));
      }
    }
    return None;
  }

  /** No SKU is held by two variants anywhere in the catalogue. */
  ghost predicate SkusUnique(catalog: seq<Product>)
  {
    forall i, j, a, b :: 0 <= i < |catalog| && 0 <= j < |catalog| && 0 <= a < |catalog[i].variants|
      && 0 <= b < |catalog[j].variants| && catalog[i].variants[a].sku == catalog[j].variants[b].sku
      ==> i == j && a == b
  }

  /** `createCartPayload`; the quantity defaults to one. */
  function CreateCartPayload(product: Product, variant: Variant, quantity: Option<int>): (r: AddToCartPayload)
    ensures r.sku == variant.sku && r.unitPriceCents == variant.priceCents && r.productName == product.name
    ensures r.variantName == variant.thickness + " - " + variant.size
    ensures r.quantity == if quantity.None? then 1 else quantity.value
    ensures r.image.Some? <==> |product.images| > 0
    ensures r.image.Some? ==> r.image.value == product.images[0]
  {
    AddToCartPayload(
      variant.sku,
      if quantity.None? then 1 else quantity.value,
      product.name,
      variant.thickness + " - " + variant.size,
      variant.priceCents,
      if |product.images| > 0 then Some(product.images[0]) else None)
  }

  /** With unique SKUs, looking up the SKU of a payload built from a
      catalogue product and one of its variants finds that same pair. */
  lemma {:induction false} PayloadSkuRoundTrip(catalog: seq<Product>, i: nat, a: nat, quantity: Option<int>)
    requires SkusUnique(catalog)
    requires i < |catalog| && a < |catalog[i].variants|
    ensures SkuLookup(catalog, CreateCartPayload(catalog[i], catalog[i].variants[a], quantity).sku)
            == Some((catalog[i], catalog[i].variants[a]))
  {
    var sku := catalog[i].variants[a].sku;
    if i == 0 {
      var found := VariantIndex(catalog[0], sku);
      assert found.Some?;
      assert found.value == a;
    } else {
      assert VariantIndex(catalog[0], sku).None?;
      assert catalog[1..][i - 1] == catalog[i];
      PayloadSkuRoundTrip(catalog[1..], i - 1, a, quantity);
    }
  }
}
