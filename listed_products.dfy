/**
 * The product summaries the account pages (browsing history, recommendations, wishlist) fetch with
 * their rows, and the quick add to cart those pages share: first variant, first pricing row,
 * quantity 1.
 */
module ListedProducts {
  import opened Wrappers
  import opened CartContext
  import opened Catalog

  /** A `product_pricing` row as these pages select it. */
  datatype ListedPricing = ListedPricing(effectivePrice: int, mrp: int, discountPercent: int)

  /** A variant with its pricing rows, the list missing when the select returned none. */
  datatype ListedVariant = ListedVariant(id: string, weight: real, weightUnit: string, stock: int, pricing: Option<seq<ListedPricing>>)

  /** The nested `product` of a history, recommendation or wishlist row. */
  datatype ListedProduct = ListedProduct(id: string, name: string, images: Option<seq<string>>, variants: Option<seq<ListedVariant>>)

  /** `product.variants?.[0]`. */
  function FirstVariant(p: ListedProduct): (r: Option<ListedVariant>)
    ensures r.Some? <==> p.variants.Some? && |p.variants.value| > 0
    ensures r.Some? ==> r.value == p.variants.value[0]
  {
    if p.variants.Some? && |p.variants.value| > 0 then Some(p.variants.value[0]) else None
  }

  /** `variant?.pricing?.[0]`: unlike the catalogue's normalisation, an empty array gives nothing. */
  function FirstPricing(v: Option<ListedVariant>): (r: Option<ListedPricing>)
    ensures r.Some? <==> v.Some? && v.value.pricing.Some? && |v.value.pricing.value| > 0
    ensures r.Some? ==> r.value == v.value.pricing.value[0]
  {
    if v.Some? && v.value.pricing.Some? && |v.value.pricing.value| > 0 then Some(v.value.pricing.value[0]) else None
  }

  /** The add button is enabled when the first variant exists and has stock left. */
  predicate AddEnabled(p: ListedProduct) {
    FirstVariant(p).Some? && FirstVariant(p).value.stock > 0
  }

  /** `handleAddToCart` of the account pages: nothing without a first variant and a first pricing
      row; otherwise one unit of that variant at its effective price, with the first image or "".
      The `asin` argument is the product's id, as these pages pass it. */
  function QuickAdd(p: ListedProduct): (r: Option<AddRequest>)
    ensures r.None? <==> FirstPricing(FirstVariant(p)).None?
    ensures r.Some? ==>
      && r.value.variantId == FirstVariant(p).value.id
      && r.value.asin == p.id
      && r.value.quantity == 1
      && r.value.price == Some(FirstPricing(FirstVariant(p)).value.effectivePrice)
      && r.value.name == p.name
      && r.value.image == ImageOr(p.images.GetOr([]), 0, "")
      && r.value.weight == FirstVariant(p).value.weight
      && r.value.weightUnit == FirstVariant(p).value.weightUnit
  {
    var v := FirstVariant(p);
    var pricing := FirstPricing(v);
    if pricing.None? then None
    else Some(AddRequest(v.value.id, p.id, 1, Some(pricing.value.effectivePrice), p.name,
                         ImageOr(p.images.GetOr([]), 0, ""), v.value.weight, v.value.weightUnit))
  }

  /** A product whose add button is enabled is added unless its first variant has no pricing row;
      and an add never happens without a first variant. */
  lemma EnabledAddsUnlessUnpriced(p: ListedProduct)
    ensures AddEnabled(p) && FirstVariant(p).value.pricing.Some? && |FirstVariant(p).value.pricing.value| > 0 ==> QuickAdd(p).Some?
    ensures QuickAdd(p).Some? ==> FirstVariant(p).Some?
  {
  }

  /** These pages' `catch` shows the generic failure for every error: no sign-in prompt. */
  function ListFeedback(outcome: Outcome): (f: AddFeedback)
    ensures f == AddedToCart <==> outcome.Completed?
    ensures f != SignInPrompt
  {
    if outcome.Completed? then AddedToCart else AddFailed
  }

  /** Where a product view would prompt the signed-out visitor to sign in, these pages report a
      plain failure. */
  lemma SignedOutGetsGenericFailure()
    ensures FeedbackFor(Thrown(SignInRequired)) == SignInPrompt
    ensures ListFeedback(Thrown(SignInRequired)) == AddFailed
  {
    SignedOutPromptsSignIn();
  }
}
