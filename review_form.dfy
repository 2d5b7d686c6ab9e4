/**
 * The "Write a Review" dialog: five star buttons that set and preview the rating, and the submit
 * handler that inserts one `reviews` row.
 */
module ReviewForm {
  import opened Wrappers

  /** A `reviews` row as the form inserts it. */
  datatype ReviewRow = ReviewRow(productId: string, userId: nat, rating: int, title: string, comment: string)

  /** Star `v` (1 to 5) is lit when it is at most the hovered star, or the rating when none is
      hovered (`hoveredRating || rating`). */
  predicate Lit(v: int, rating: int, hovered: int) {
    v <= (if hovered != 0 then hovered else rating)
  }

  /** Without a hover the first `rating` stars are lit; while star `h` is hovered, the first `h`. */
  lemma LitStars(rating: int, hovered: int)
    requires 0 <= rating <= 5 && 0 <= hovered <= 5
    ensures hovered == 0 ==> forall v :: 1 <= v <= 5 ==> (Lit(v, rating, hovered) <==> v <= rating)
    ensures hovered != 0 ==> forall v :: 1 <= v <= 5 ==> (Lit(v, rating, hovered) <==> v <= hovered)
    ensures hovered == 0 && rating == 0 ==> forall v :: 1 <= v <= 5 ==> !Lit(v, rating, hovered)
  {
  }

  class ReviewDialog {
    const productId: string
    var rating: int
    var hoveredRating: int
    var title: string
    var comment: string
    var loading: bool
    /** The `reviews` table. */
    var reviews: seq<ReviewRow>
    /** Calls of `onReviewAdded`, and whether `onClose` was called. */
    var notified: nat
    var closed: bool

    /** The rating and the hover are 0 (none) or a star from 1 to 5. */
    predicate Valid()
      reads this
    {
      0 <= rating <= 5 && 0 <= hoveredRating <= 5
    }

    constructor(productId: string, reviews: seq<ReviewRow>)
      ensures Valid()
      ensures this.productId == productId && this.reviews == reviews
      ensures rating == 0 && hoveredRating == 0 && title == "" && comment == ""
      ensures !loading && notified == 0 && !closed
    {
      this.productId := productId;
      rating := 0;
      hoveredRating := 0;
      title := "";
      comment := "";
      loading := false;
      this.reviews := reviews;
      notified := 0;
      closed := false;
    }

    /** A click on star button `i` (0 to 4) chooses `i + 1`. */
    method ClickStar(i: nat)
      requires Valid() && i < 5
      modifies this
      ensures Valid()
      ensures rating == i + 1 && 1 <= rating <= 5
      ensures hoveredRating == old(hoveredRating) && reviews == old(reviews)
    {
      rating := i + 1;
    }

    /** The mouse entering star button `i`. */
    method EnterStar(i: nat)
      requires Valid() && i < 5
      modifies this
      ensures Valid()
      ensures hoveredRating == i + 1 && rating == old(rating) && reviews == old(reviews)
    {
      hoveredRating := i + 1;
    }

    /** The mouse leaving a star button clears the hover. */
    method LeaveStar()
      requires Valid()
      modifies this
      ensures Valid()
      ensures hoveredRating == 0 && rating == old(rating) && reviews == old(reviews)
    {
      hoveredRating := 0;
    }

    /** The submit button is disabled while submitting or before a star is chosen. */
    predicate SubmitEnabled()
      reads this
    {
      !loading && rating != 0
    }

    /** `handleSubmit`: nothing when signed out or with no rating. Otherwise, with a profile and an
        insert that goes through, one row is added and the dialog reports and closes; a missing
        profile or a refused insert only alerts (`alerted`). */
    method HandleSubmit(signedIn: bool, profile: Option<nat>, insertOk: bool) returns (alerted: bool)
      requires Valid()
      modifies this
      ensures Valid()
      ensures !signedIn || old(rating) == 0 ==>
        !alerted && reviews == old(reviews) && notified == old(notified) && closed == old(closed) && loading == old(loading)
      ensures signedIn && old(rating) != 0 ==>
        && !loading
        && (alerted <==> profile.None? || !insertOk)
        && (alerted ==> reviews == old(reviews) && notified == old(notified) && closed == old(closed))
        && (!alerted ==>
              && reviews == old(reviews) + [ReviewRow(productId, profile.value, rating, title, comment)]
              && notified == old(notified) + 1 && closed)
      ensures |reviews| > |old(reviews)| ==> 1 <= reviews[|reviews| - 1].rating <= 5
      ensures rating == old(rating) && title == old(title) && comment == old(comment)
    {
      if !signedIn || rating == 0 {
        return false;
      }
      loading := true;
      if profile.None? || !insertOk {
        loading := false;
        return true;
      }
      reviews := reviews + [ReviewRow(productId, profile.value, rating, title, comment)];
      notified := notified + 1;
      closed := true;
      loading := false;
      return false;
    }
  }
}
