/**
 * Products as the storefront reads them: the post-processing that adds the rating aggregates and
 * normalises each variant's pricing, and the display rules the product views share (star fill,
 * stock status, the feedback after an add to cart).
 */
module Catalog {
  import opened Wrappers
  import opened Text
  import opened CartContext

  /** A row of `product_pricing`. Amounts are whole rupees. */
  datatype Pricing = Pricing(mrp: int, discountPercent: int, effectivePrice: int, costPerGram: int)

  /** A variant's `pricing` as the nested select returns it: missing or null, an array of rows, or a
      single row. */
  datatype RawPricing = Absent | Listed(entries: seq<Pricing>) | Single(row: Pricing)

  /** The pricing after normalisation: null, an empty array that was kept, or one row. */
  datatype PricingField = NoPricing | EmptyList | Priced(row: Pricing)

  /** `variant.pricing?.[0] || variant.pricing || null`. An empty array is truthy, so it is kept. */
  function NormalisePricing(raw: RawPricing): (r: PricingField)
    ensures r.NoPricing? <==> raw.Absent?
    ensures r.EmptyList? <==> raw == Listed([])
    ensures r.Priced? ==> r.row == (if raw.Single? then raw.row else raw.entries[0])
  {
    match raw
    case Absent => NoPricing
    case Listed(entries) => if |entries| > 0 then Priced(entries[0]) else EmptyList
    case Single(row) => Priced(row)
  }

  /** Whether the views' `pricing` test (`!pricing`) lets the pricing through. */
  predicate Truthy(p: PricingField) {
    !p.NoPricing?
  }

  /** `pricing.effective_price`: undefined on a kept empty array. */
  function EffectivePrice(p: PricingField): (r: Option<int>)
    ensures r.Some? <==> p.Priced?
  {
    if p.Priced? then Some(p.row.effectivePrice) else None
  }

  /** An empty pricing array passes the views' pricing test but carries no price. */
  lemma EmptyPricingSurvives()
    ensures NormalisePricing(Listed([])) == EmptyList
    ensures Truthy(NormalisePricing(Listed([]))) && EffectivePrice(NormalisePricing(Listed([]))).None?
  {
  }

  datatype RawVariant = RawVariant(id: string, weight: real, weightUnit: string, stock: int, pricing: RawPricing)

  datatype Variant = Variant(id: string, weight: real, weightUnit: string, stock: int, pricing: PricingField)

  function NormaliseVariant(v: RawVariant): Variant {
    Variant(v.id, v.weight, v.weightUnit, v.stock, NormalisePricing(v.pricing))
  }

  /** A review as fetched, with the lengths of its `review_likes` and `review_comments` arrays when
      those are present. */
  datatype RawReview = RawReview(id: string, rating: int, likes: Option<nat>, comments: Option<nat>)

  datatype CountedReview = CountedReview(id: string, rating: int, likesCount: nat, commentsCount: nat)

  /** A `products` row with its nested selects. `aboutItems` holds `about_item_1..5`, a null one as "". */
  datatype RawProduct = RawProduct(
    id: string,
    asin: string,
    name: string,
    slug: string,
    aboutItems: seq<string>,
    images: seq<string>,
    variants: Option<seq<RawVariant>>,
    reviews: Option<seq<RawReview>>)

  datatype Product = Product(
    id: string,
    asin: string,
    name: string,
    slug: string,
    aboutItems: seq<string>,
    images: seq<string>,
    variants: seq<Variant>,
    averageRating: real,
    totalReviews: nat)

  /** The single-product result: the product and its reviews with their like and comment counts. */
  datatype DetailProduct = DetailProduct(product: Product, reviews: seq<CountedReview>)

  function Sum(xs: seq<int>): int {
    if xs == [] then 0 else xs[0] + Sum(xs[1..])
  }

  /** Sum of the ratings over their number, and 0 without ratings. */
  function AverageRating(ratings: seq<int>): real {
    if |ratings| > 0 then Sum(ratings) as real / |ratings| as real else 0.0
  }

  lemma {:induction false} SumBounds(xs: seq<int>, lo: int, hi: int)
    requires forall i :: 0 <= i < |xs| ==> lo <= xs[i] <= hi
    ensures lo * |xs| <= Sum(xs) <= hi * |xs|
  {
    if xs != [] {
      SumBounds(xs[1..], lo, hi);
      assert lo * |xs| == lo + lo * |xs[1..]| && hi * |xs| == hi + hi * |xs[1..]| by {
        assert |xs| == 1 + |xs[1..]|;
      }
    }
  }

  /** The average lies between the smallest and the largest rating there can be. */
  lemma {:induction false} AverageWithinBounds(ratings: seq<int>, lo: int, hi: int)
    requires |ratings| > 0
    requires forall i :: 0 <= i < |ratings| ==> lo <= ratings[i] <= hi
    ensures lo as real <= AverageRating(ratings) <= hi as real
  {
    var n := |ratings|;
    SumBounds(ratings, lo, hi);
    ProductAsReal(lo, n);
    ProductAsReal(hi, n);
    DivideBetween(Sum(ratings) as real, lo as real, hi as real, n as real);
  }

  lemma ProductAsReal(a: int, b: int)
    ensures (a * b) as real == a as real * b as real
  {
  }

  lemma DivideBetween(s: real, lo: real, hi: real, n: real)
    requires n > 0.0 && lo * n <= s <= hi * n
    ensures lo <= s / n <= hi
  {
    assert s / n * n == s;
  }

  function Ratings(reviews: seq<RawReview>): (r: seq<int>)
    ensures |r| == |reviews|
    ensures forall i {:trigger r[i]} :: 0 <= i < |r| ==> r[i] == reviews[i].rating
  {
    if reviews == [] then [] else [reviews[0].rating] + Ratings(reviews[1..])
  }

  function NormaliseVariants(variants: seq<RawVariant>): (r: seq<Variant>)
    ensures |r| == |variants|
    ensures forall i {:trigger r[i]} :: 0 <= i < |r| ==> r[i] == NormaliseVariant(variants[i])
  {
    if variants == [] then [] else [NormaliseVariant(variants[0])] + NormaliseVariants(variants[1..])
  }

  /** The per-product step of `fetchProducts`: the average rating and review count, and each variant
      with normalised pricing; a missing variant list becomes empty. */
  function ProcessProduct(raw: RawProduct): (p: Product)
    ensures p.totalReviews == if raw.reviews.Some? then |raw.reviews.value| else 0
    ensures p.averageRating == if raw.reviews.Some? then AverageRating(Ratings(raw.reviews.value)) else 0.0
    ensures raw.variants.None? ==> p.variants == []
    ensures raw.variants.Some? ==>
      && |p.variants| == |raw.variants.value|
      && forall i :: 0 <= i < |p.variants| ==> p.variants[i] == NormaliseVariant(raw.variants.value[i])
    ensures p.id == raw.id && p.asin == raw.asin && p.name == raw.name && p.images == raw.images
    ensures p.slug == raw.slug && p.aboutItems == raw.aboutItems
  {
    var reviews := raw.reviews.GetOr([]);
    Product(raw.id, raw.asin, raw.name, raw.slug, raw.aboutItems, raw.images,
            NormaliseVariants(raw.variants.GetOr([])), AverageRating(Ratings(reviews)), |reviews|)
  }

  /** `fetchProducts`: one processed product per row, in the rows' order; no data gives no products. */
  function ProcessProducts(data: Option<seq<RawProduct>>): (r: seq<Product>)
    ensures data.None? ==> r == []
    ensures data.Some? ==>
      && |r| == |data.value|
      && forall i :: 0 <= i < |r| ==> r[i] == ProcessProduct(data.value[i])
  {
    if data.None? then [] else ProcessAll(data.value)
  }

  function ProcessAll(rows: seq<RawProduct>): (r: seq<Product>)
    ensures |r| == |rows|
    ensures forall i {:trigger r[i]} :: 0 <= i < |r| ==> r[i] == ProcessProduct(rows[i])
  {
    if rows == [] then [] else [ProcessProduct(rows[0])] + ProcessAll(rows[1..])
  }

  function CountReview(r: RawReview): CountedReview {
    CountedReview(r.id, r.rating, r.likes.GetOr(0), r.comments.GetOr(0))
  }

  function CountReviews(reviews: seq<RawReview>): (r: seq<CountedReview>)
    ensures |r| == |reviews|
    ensures forall i {:trigger r[i]} :: 0 <= i < |r| ==> r[i] == CountReview(reviews[i])
  {
    if reviews == [] then [] else [CountReview(reviews[0])] + CountReviews(reviews[1..])
  }

  /** `fetchProduct`: the same product processing, plus each review's like and comment counts, 0 where
      the nested list is missing. */
  function ProcessDetail(raw: RawProduct): (d: DetailProduct)
    ensures d.product == ProcessProduct(raw)
    ensures |d.reviews| == d.product.totalReviews
    ensures forall i :: 0 <= i < |d.reviews| ==>
      && d.reviews[i].rating == raw.reviews.value[i].rating
      && d.reviews[i].likesCount == (if raw.reviews.value[i].likes.Some? then raw.reviews.value[i].likes.value else 0)
      && d.reviews[i].commentsCount == (if raw.reviews.value[i].comments.Some? then raw.reviews.value[i].comments.value else 0)
  {
    DetailProduct(ProcessProduct(raw), CountReviews(raw.reviews.GetOr([])))
  }

  /** With ratings from 1 to 5 the processed average lies between 1 and 5, or is 0 without reviews. */
  lemma ProcessedRatingInRange(raw: RawProduct)
    requires raw.reviews.Some? ==> forall i :: 0 <= i < |raw.reviews.value| ==> 1 <= raw.reviews.value[i].rating <= 5
    ensures ProcessProduct(raw).totalReviews == 0 ==> ProcessProduct(raw).averageRating == 0.0
    ensures ProcessProduct(raw).totalReviews > 0 ==> 1.0 <= ProcessProduct(raw).averageRating <= 5.0
  {
    if raw.reviews.Some? && |raw.reviews.value| > 0 {
      AverageWithinBounds(Ratings(raw.reviews.value), 1, 5);
    }
  }

  /** How one of the five rating stars is drawn. */
  datatype Fill = Full | Half | Empty

  /** Star `i` (from 0) is full below `Math.floor(rating)`, half below `rating`, empty otherwise. */
  function StarFill(rating: real, i: nat): (f: Fill)
    ensures f == Full <==> i < rating.Floor
    ensures f == Half <==> rating.Floor <= i && (i as real) < rating
  {
    if i < rating.Floor then Full else if (i as real) < rating then Half else Empty
  }

  function Stars(rating: real): (r: seq<Fill>)
    ensures |r| == 5
    ensures forall i {:trigger r[i]} :: 0 <= i < 5 ==> r[i] == StarFill(rating, i)
  {
    seq(5, i requires 0 <= i => StarFill(rating, i))
  }

  /** For a rating from 0 to 5: the full stars are the first `floor(rating)`, and there is a half star,
      right after them, exactly when the rating is not whole. */
  lemma StarsShowRating(rating: real)
    requires 0.0 <= rating <= 5.0
    ensures forall i :: 0 <= i < 5 ==> (Stars(rating)[i] == Full <==> i < rating.Floor)
    ensures forall i :: 0 <= i < 5 && Stars(rating)[i] == Half ==> i == rating.Floor
    ensures (exists i :: 0 <= i < 5 && Stars(rating)[i] == Half) <==> (rating.Floor as real) < rating
  {
    var s := Stars(rating);
    var f := rating.Floor;
    assert f as real <= rating < f as real + 1.0;
    forall i | 0 <= i < 5 && s[i] == Half
      ensures i == f
    {
      assert f <= i && (i as real) < f as real + 1.0;
    }
    if (f as real) < rating {
      assert 0 <= f < 5;
      assert s[f] == Half;
    }
  }

  /** What the stock line says about a variant. */
  datatype StockStatus = InStock | OnlyLeft(count: int) | OutOfStock

  /** More than 10 is "In Stock", 1 to 10 shows the count, anything else is out of stock. */
  function StockStatusOf(stock: int): (s: StockStatus)
    ensures s == InStock <==> stock > 10
    ensures s == OutOfStock <==> stock <= 0
    ensures s.OnlyLeft? ==> s.count == stock && 1 <= stock <= 10
  {
    if stock > 0 then (if stock > 10 then InStock else OnlyLeft(stock)) else OutOfStock
  }

  /** The discount is shown only for a priced variant whose discount is positive (on a kept empty
      array the percentage is undefined and the comparison fails). */
  predicate ShowsDiscount(p: PricingField) {
    p.Priced? && p.row.discountPercent > 0
  }

  /** The per-unit price label: "ml" for millilitre variants, "g" for everything else. */
  function UnitLabel(weightUnit: string): (u: string)
    ensures u == "ml" <==> weightUnit == "ml"
    ensures u == "ml" || u == "g"
  {
    if weightUnit == "ml" then "ml" else "g"
  }

  /** `images[k]?.image_url || fallback`: the k-th image when there is one with a non-empty URL. */
  function ImageOr(images: seq<string>, k: nat, fallback: string): (r: string)
    ensures k < |images| && images[k] != "" ==> r == images[k]
    ensures k >= |images| || images[k] == "" ==> r == fallback
  {
    if k < |images| && images[k] != "" then images[k] else fallback
  }

  /** The arguments of an `addToCart` call made by a product view. */
  datatype AddRequest = AddRequest(
    variantId: string,
    asin: string,
    quantity: int,
    price: Option<int>,
    name: string,
    image: string,
    weight: real,
    weightUnit: string)

  /** The alert after an add: success, the sign-in prompt, or the generic failure. */
  datatype AddFeedback = AddedToCart | SignInPrompt | AddFailed

  /** The product views' `catch`: an error whose message contains "sign in" asks the visitor to sign
      in; any other error gets the generic failure message. */
  function FeedbackFor(outcome: Outcome): (f: AddFeedback)
    ensures f == AddedToCart <==> outcome.Completed?
    ensures f == SignInPrompt <==> outcome.Thrown? && Contains(outcome.error.Message(), "sign in")
  {
    match outcome
    case Completed => AddedToCart
    case Thrown(e) => if Contains(e.Message(), "sign in") then SignInPrompt else AddFailed
  }

  /** The signed-out error's message, "Please sign in to add items to cart", triggers the sign-in
      prompt. */
  lemma SignedOutPromptsSignIn()
    ensures FeedbackFor(Thrown(SignInRequired)) == SignInPrompt
  {
    var m := SignInRequired.Message();
    assert m[7] == 's' && m[8] == 'i' && m[9] == 'g' && m[10] == 'n' && m[11] == ' ' && m[12] == 'i' && m[13] == 'n';
    assert m[7..14] == "sign in";
    ContainsAt(m, "sign in", 7);
  }

  /** A missing profile gets the generic failure message: "User profile not found" has no 'g'. */
  lemma MissingProfileFails()
    ensures FeedbackFor(Thrown(ProfileNotFound)) == AddFailed
  {
    var m := ProfileNotFound.Message();
    assert forall i :: 0 <= i < |m| ==> m[i] != 'g';
    MissingCharNotContained(m, "sign in", 'g');
  }

  /** A cart that could not be created gets the generic failure message: "Failed to create or get
      cart" has no 's'. */
  lemma MissingCartFails()
    ensures FeedbackFor(Thrown(CartUnavailable)) == AddFailed
  {
    var m := CartUnavailable.Message();
    assert forall i :: 0 <= i < |m| ==> m[i] != 's';
    MissingCharNotContained(m, "sign in", 's');
  }
}
