/**
 * The product card of the listings: everything is derived from the product; its add button adds
 * one unit of the first variant.
 */
module ProductCard {
  import opened Wrappers
  import opened Text
  import opened Catalog

  const CardFallbackImage := "https://images.pexels.com/photos/264537/pexels-photo-264537.jpeg?auto=compress&cs=tinysrgb&w=400"

  /** `product.variants?.[0]`. */
  function MainVariant(p: Product): (r: Option<Variant>)
    ensures r.Some? <==> |p.variants| > 0
    ensures r.Some? ==> r.value == p.variants[0]
  {
    if |p.variants| > 0 then Some(p.variants[0]) else None
  }

  /** `handleAddToCart` (shared by the overlay and the bottom button): nothing without a variant or
      pricing; otherwise one unit of the first variant at its effective price, with the card's image.
      It does not look at the stock. */
  function CardAdd(p: Product): (r: Option<AddRequest>)
    ensures r.None? <==> MainVariant(p).None? || !Truthy(MainVariant(p).value.pricing)
    ensures r.Some? ==>
      && r.value.variantId == p.variants[0].id
      && r.value.asin == p.asin
      && r.value.quantity == 1
      && r.value.price == EffectivePrice(p.variants[0].pricing)
      && r.value.image == ImageOr(p.images, 0, CardFallbackImage)
      && r.value.weight == p.variants[0].weight && r.value.weightUnit == p.variants[0].weightUnit
  {
    var v := MainVariant(p);
    if v.None? || !Truthy(v.value.pricing) then None
    else Some(AddRequest(v.value.id, p.asin, 1, EffectivePrice(v.value.pricing), p.name,
                         ImageOr(p.images, 0, CardFallbackImage), v.value.weight, v.value.weightUnit))
  }

  /** The bottom button is disabled without a variant or with no stock left. */
  predicate BottomButtonEnabled(p: Product) {
    MainVariant(p).Some? && MainVariant(p).value.stock > 0
  }

  /** The overlay quick-add button has no guard, so an out-of-stock product with pricing is still
      added through it. */
  lemma OverlayIgnoresStock(p: Product)
    requires |p.variants| > 0 && p.variants[0].stock <= 0 && Truthy(p.variants[0].pricing)
    ensures !BottomButtonEnabled(p)
    ensures CardAdd(p).Some? && CardAdd(p).value.variantId == p.variants[0].id
  {
  }

  /** The card's stock label, a shorter "Only N left". */
  function CardStockText(stock: int): (r: string)
    ensures StockStatusOf(stock) == InStock ==> r == "In Stock"
    ensures StockStatusOf(stock) == OutOfStock ==> r == "Out of Stock"
    ensures StockStatusOf(stock).OnlyLeft? ==> r == "Only " + IntToString(stock) + " left"
  {
    match StockStatusOf(stock)
    case InStock => "In Stock"
    case OnlyLeft(n) => "Only " + IntToString(n) + " left"
    case OutOfStock => "Out of Stock"
  }

  /** The discount badge appears exactly when the first variant is priced with a positive discount. */
  function ShowsBadge(p: Product): (b: bool)
    ensures b <==> |p.variants| > 0 && p.variants[0].pricing.Priced? && p.variants[0].pricing.row.discountPercent > 0
  {
    MainVariant(p).Some? && ShowsDiscount(MainVariant(p).value.pricing)
  }

  /** The rating row is shown only for a positive average. */
  predicate ShowsRating(p: Product) {
    p.averageRating > 0.0
  }

  /** A product without reviews shows no rating row, and one with ratings from 1 to 5 shows it. */
  lemma RatingRowIffReviewed(raw: RawProduct)
    requires raw.reviews.Some? ==> forall i :: 0 <= i < |raw.reviews.value| ==> 1 <= raw.reviews.value[i].rating <= 5
    ensures ShowsRating(ProcessProduct(raw)) <==> ProcessProduct(raw).totalReviews > 0
  {
    ProcessedRatingInRange(raw);
  }
}
