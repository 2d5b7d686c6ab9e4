/**
 * The product page: the quantity stepper, variant and image selection, the add-to-cart handler and
 * its enablement, the "about this item" list, and the wishlist heart.
 */
module ProductDetail {
  import opened Wrappers
  import opened Seqs
  import opened Text
  import opened CartContext
  import opened Catalog
  import Wishlist

  const DetailFallbackImage := "https://images.pexels.com/photos/264537/pexels-photo-264537.jpeg?auto=compress&cs=tinysrgb&w=800"

  function NonEmptyText(): string -> bool {
    s => s != ""
  }

  /** `aboutItems`: the non-empty about items, in their order. */
  function AboutItems(p: Product): (r: seq<string>)
    ensures forall x :: x in r <==> x in p.aboutItems && x != ""
    ensures |r| <= |p.aboutItems|
  {
    FilterMembers(p.aboutItems, NonEmptyText());
    Filter(p.aboutItems, NonEmptyText())
  }

  /** An empty item between filled ones is dropped and the others keep their order; with none empty
      the list is unchanged. */
  lemma AboutItemsKeepOrder(p: Product, before: seq<string>, after: seq<string>)
    requires forall i :: 0 <= i < |before| ==> before[i] != ""
    requires forall i :: 0 <= i < |after| ==> after[i] != ""
    ensures p.aboutItems == before + [""] + after ==> AboutItems(p) == before + after
    ensures p.aboutItems == before + after ==> AboutItems(p) == before + after
  {
    if p.aboutItems == before + [""] + after {
      FilterDropsOne(before, "", after, NonEmptyText());
    }
    if p.aboutItems == before + after {
      FilterAll(before + after, NonEmptyText());
    }
  }

  /** The label under the add button: the count appears in "Only N left in stock". */
  function StockText(stock: int): (r: string)
    ensures StockStatusOf(stock) == InStock ==> r == "In Stock"
    ensures StockStatusOf(stock) == OutOfStock ==> r == "Out of Stock"
    ensures StockStatusOf(stock).OnlyLeft? ==> r == "Only " + IntToString(stock) + " left in stock"
  {
    match StockStatusOf(stock)
    case InStock => "In Stock"
    case OnlyLeft(n) => "Only " + IntToString(n) + " left in stock"
    case OutOfStock => "Out of Stock"
  }

  class ProductView {
    const product: Product
    var selectedVariant: Option<Variant>
    var selectedImageIndex: nat
    var quantity: int
    /** The `addToCart` calls made, oldest first. */
    var requests: seq<AddRequest>
    var isInWishlist: bool
    /** The `wishlist` table the heart writes to, and its id counter. */
    var wishes: seq<Wishlist.WishRow>
    var nextWishId: nat

    /** The stepper never goes below one. */
    predicate Valid()
      reads this
    {
      quantity >= 1
    }

    /** The page opens on the first variant, the first image and quantity 1. */
    constructor(product: Product, wishes: seq<Wishlist.WishRow>, nextWishId: nat, isInWishlist: bool)
      ensures Valid()
      ensures this.product == product && this.wishes == wishes && this.nextWishId == nextWishId
      ensures selectedVariant == (if |product.variants| > 0 then Some(product.variants[0]) else None)
      ensures selectedImageIndex == 0 && quantity == 1 && requests == [] && this.isInWishlist == isInWishlist
    {
      this.product := product;
      selectedVariant := if |product.variants| > 0 then Some(product.variants[0]) else None;
      selectedImageIndex := 0;
      quantity := 1;
      requests := [];
      this.isInWishlist := isInWishlist;
      this.wishes := wishes;
      this.nextWishId := nextWishId;
    }

    /** The "+" button. */
    method Increment()
      requires Valid()
      modifies this
      ensures Valid()
      ensures quantity == old(quantity) + 1
      ensures selectedVariant == old(selectedVariant) && requests == old(requests) && wishes == old(wishes)
    {
      quantity := quantity + 1;
    }

    /** The "-" button: `Math.max(1, quantity - 1)`. */
    method Decrement()
      requires Valid()
      modifies this
      ensures Valid()
      ensures quantity == if old(quantity) > 1 then old(quantity) - 1 else 1
      ensures selectedVariant == old(selectedVariant) && requests == old(requests) && wishes == old(wishes)
    {
      quantity := if quantity - 1 > 1 then quantity - 1 else 1;
    }

    /** A click on one of the product's variant buttons. */
    method SelectVariant(k: nat)
      requires k < |product.variants|
      modifies this
      ensures selectedVariant == Some(product.variants[k])
      ensures quantity == old(quantity) && selectedImageIndex == old(selectedImageIndex) && requests == old(requests)
      ensures wishes == old(wishes)
    {
      selectedVariant := Some(product.variants[k]);
    }

    /** A click on one of the thumbnails. */
    method SelectImage(k: nat)
      requires k < |product.images|
      modifies this
      ensures selectedImageIndex == k
      ensures quantity == old(quantity) && selectedVariant == old(selectedVariant) && requests == old(requests)
      ensures wishes == old(wishes)
    {
      selectedImageIndex := k;
    }

    /** The add button is disabled only without a variant or with a stock of exactly 0. */
    predicate AddEnabled()
      reads this
    {
      selectedVariant.Some? && selectedVariant.value.stock != 0
    }

    /** `handleAddToCart`: nothing without a variant or pricing; otherwise one `addToCart` call with
        the selected variant, the product's asin, the current quantity, the effective price and the
        selected image, answered by `outcome`. */
    method HandleAddToCart(outcome: Outcome) returns (feedback: Option<AddFeedback>)
      modifies this
      ensures selectedVariant.None? || !Truthy(selectedVariant.value.pricing) ==>
        feedback.None? && requests == old(requests)
      ensures selectedVariant.Some? && Truthy(selectedVariant.value.pricing) ==>
        && feedback == Some(FeedbackFor(outcome))
        && requests == old(requests) + [AddRequest(
             selectedVariant.value.id, product.asin, quantity, EffectivePrice(selectedVariant.value.pricing),
             product.name, ImageOr(product.images, selectedImageIndex, DetailFallbackImage),
             selectedVariant.value.weight, selectedVariant.value.weightUnit)]
      ensures selectedVariant == old(selectedVariant) && quantity == old(quantity)
      ensures selectedImageIndex == old(selectedImageIndex) && wishes == old(wishes)
    {
      if selectedVariant.None? || !Truthy(selectedVariant.value.pricing) {
        return None;
      }
      var v := selectedVariant.value;
      requests := requests + [AddRequest(v.id, product.asin, quantity, EffectivePrice(v.pricing), product.name,
                                         ImageOr(product.images, selectedImageIndex, DetailFallbackImage),
                                         v.weight, v.weightUnit)];
      return Some(FeedbackFor(outcome));
    }

    /** `handleWishlistToggle`: signed out (`profile` None) it only prompts. Otherwise it deletes the
        user's rows for this product or inserts one, and flips the heart whether or not the write
        went through (`writeOk`), since the write's result is not looked at. */
    method HandleWishlistToggle(profile: Option<nat>, writeOk: bool)
      modifies this
      ensures profile.None? ==> wishes == old(wishes) && isInWishlist == old(isInWishlist)
      ensures profile.Some? ==> isInWishlist == !old(isInWishlist)
      ensures profile.Some? && old(isInWishlist) && writeOk ==>
        forall w :: w in wishes <==> w in old(wishes) && !(w.userId == profile.value && w.productId == product.id)
      ensures profile.Some? && !old(isInWishlist) && writeOk ==>
        wishes == old(wishes) + [Wishlist.WishRow(old(nextWishId), profile.value, product.id)]
      ensures !writeOk ==> wishes == old(wishes)
      ensures quantity == old(quantity) && requests == old(requests) && selectedVariant == old(selectedVariant)
    {
      if profile.None? {
        return;
      }
      if isInWishlist {
        if writeOk {
          FilterMembers(wishes, NotThisWish(profile.value, product.id));
          wishes := Filter(wishes, NotThisWish(profile.value, product.id));
        }
        isInWishlist := false;
      } else {
        if writeOk {
          wishes := wishes + [Wishlist.WishRow(nextWishId, profile.value, product.id)];
          nextWishId := nextWishId + 1;
        }
        isInWishlist := true;
      }
    }
  }

  function NotThisWish(userId: nat, productId: string): Wishlist.WishRow -> bool {
    (w: Wishlist.WishRow) => !(w.userId == userId && w.productId == productId)
  }

  /** With a negative stock the label reads "Out of Stock" but the add button stays enabled. */
  lemma NegativeStockStillEnabled(v: ProductView)
    requires v.selectedVariant.Some? && v.selectedVariant.value.stock < 0
    ensures v.AddEnabled()
    ensures StockText(v.selectedVariant.value.stock) == "Out of Stock"
  {
  }

  /** A variant whose pricing is a kept empty array is added to the cart without a price. */
  lemma EmptyPricingAddsWithoutPrice(v: Variant)
    requires v.pricing == EmptyList
    ensures Truthy(v.pricing) && EffectivePrice(v.pricing) == None
  {
  }
}
