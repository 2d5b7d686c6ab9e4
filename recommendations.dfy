/**
 * The recommendations page: the average rating shown per product and the label of each
 * recommendation type.
 */
module Recommendations {
  import opened Wrappers
  import opened Catalog

  /** `getAverageRating`: 0 for a missing or empty review list, the mean otherwise. */
  function ListAverage(reviews: Option<seq<int>>): (r: real)
    ensures reviews.None? || reviews.value == [] ==> r == 0.0
    ensures reviews.Some? && reviews.value != [] ==> r == Sum(reviews.value) as real / |reviews.value| as real
  {
    if reviews.None? then 0.0 else AverageRating(reviews.value)
  }

  /** The page shows the same average as the catalogue's product processing computes for those
      ratings, and with ratings from 1 to 5 the rating row appears exactly when there are reviews. */
  lemma ListAverageAgreesWithCatalog(reviews: seq<int>)
    requires forall i :: 0 <= i < |reviews| ==> 1 <= reviews[i] <= 5
    ensures ListAverage(Some(reviews)) == AverageRating(reviews)
    ensures ListAverage(Some(reviews)) > 0.0 <==> reviews != []
  {
    if reviews != [] {
      AverageWithinBounds(reviews, 1, 5);
    }
  }

  /** `getRecommendationTypeLabel`. */
  function TypeLabel(recommendationType: string): (text: string)
    ensures recommendationType == "popular" <==> text == "Popular"
    ensures recommendationType == "trending" <==> text == "Trending"
    ensures recommendationType == "similar" <==> text == "Similar to your purchases"
    ensures recommendationType == "category" <==> text == "From your favorite categories"
    ensures recommendationType !in {"popular", "trending", "similar", "category"} <==> text == "Recommended"
  {
    match recommendationType
    case "popular" => "Popular"
    case "trending" => "Trending"
    case "similar" => "Similar to your purchases"
    case "category" => "From your favorite categories"
    case _ => "Recommended"
  }
}
