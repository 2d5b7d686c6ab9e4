/**
 * The review list under a product: expanding a review's comments (and loading them once), liking
 * and unliking a review, and posting a comment.
 */
module ReviewSection {
  import opened Wrappers
  import opened Seqs
  import opened Text

  /** A `review_likes` row. */
  datatype Like = Like(id: nat, reviewId: string, userId: nat)

  /** A `review_comments` row; the table keeps them in creation order. */
  datatype Comment = Comment(reviewId: string, userId: nat, text: string)

  function OtherId(id: string): string -> bool {
    x => x != id
  }

  function Differ(): (string, string) -> bool {
    (a, b) => a != b
  }

  ghost predicate NoDuplicates(s: seq<string>) {
    Pairwise(s, Differ())
  }

  /** `toggleComments` on the list of expanded reviews: an expanded id is removed, any other id is
      appended. */
  function Toggled(expanded: seq<string>, id: string): (r: seq<string>)
    ensures id in r <==> id !in expanded
    ensures forall x :: x != id ==> (x in r <==> x in expanded)
  {
    FilterMembers(expanded, OtherId(id));
    if id in expanded then Filter(expanded, OtherId(id)) else expanded + [id]
  }

  /** Toggling never introduces a duplicate. */
  lemma ToggledKeepsNoDuplicates(expanded: seq<string>, id: string)
    requires NoDuplicates(expanded)
    ensures NoDuplicates(Toggled(expanded, id))
  {
    if id in expanded {
      FilterKeepsPairwise(expanded, OtherId(id), Differ());
    } else {
      PairwiseAppend(expanded, id, Differ());
    }
  }

  /** Expanding and collapsing a collapsed review restores the list exactly. */
  lemma {:induction false} ToggleTwiceFromCollapsed(expanded: seq<string>, id: string)
    requires id !in expanded
    ensures Toggled(Toggled(expanded, id), id) == expanded
  {
    FilterAppend(expanded, [id], OtherId(id));
    FilterAll(expanded, OtherId(id));
    assert Filter([id], OtherId(id)) == [];
  }

  /** Collapsing and re-expanding an expanded review keeps the same ids but moves it to the end. */
  lemma ToggleTwiceFromExpanded(expanded: seq<string>, id: string)
    requires id in expanded
    ensures Toggled(Toggled(expanded, id), id) == Filter(expanded, OtherId(id)) + [id]
    ensures forall x :: x in Toggled(Toggled(expanded, id), id) <==> x in expanded
  {
    FilterMembers(expanded, OtherId(id));
  }

  function OnReview(reviewId: string): Comment -> bool {
    (c: Comment) => c.reviewId == reviewId
  }

  /** `loadComments`: the review's comments, oldest first. */
  function CommentsOn(table: seq<Comment>, reviewId: string): (r: seq<Comment>)
    ensures forall c :: c in r <==> c in table && c.reviewId == reviewId
  {
    FilterMembers(table, OnReview(reviewId));
    Filter(table, OnReview(reviewId))
  }

  predicate HasLiked(likes: seq<Like>, reviewId: string, userId: nat) {
    exists l :: l in likes && l.reviewId == reviewId && l.userId == userId
  }

  /** The `.single()` lookup of the user's like on a review. */
  function FindLike(likes: seq<Like>, reviewId: string, userId: nat): (r: Option<Like>)
    ensures r.None? <==> !HasLiked(likes, reviewId, userId)
    ensures r.Some? ==> r.value in likes && r.value.reviewId == reviewId && r.value.userId == userId
  {
    if likes == [] then None
    else if likes[0].reviewId == reviewId && likes[0].userId == userId then Some(likes[0])
    else
      var rest := FindLike(likes[1..], reviewId, userId);
      assert forall l :: l in likes[1..] ==> l in likes;
      assert forall l :: l in likes ==> l == likes[0] || l in likes[1..];
      rest
  }

  /** Two likes differ in id and in (review, user) pair. */
  function DistinctLikes(): (Like, Like) -> bool {
    (a: Like, b: Like) => a.id != b.id && (a.reviewId != b.reviewId || a.userId != b.userId)
  }

  function OtherLike(id: nat): Like -> bool {
    (l: Like) => l.id != id
  }

  /** `newComment[reviewId]`, a missing draft read as empty. */
  function DraftOf(drafts: map<string, string>, reviewId: string): string {
    if reviewId in drafts then drafts[reviewId] else ""
  }

  /** Deleting a user's like on a review by its id leaves no like of theirs on that review, keeps
      every other like, and keeps the likes distinct and below the id counter. */
  lemma UnlikeRemovesOnlyThatLike(likes: seq<Like>, gone: Like, bound: nat)
    requires Pairwise(likes, DistinctLikes())
    requires forall i :: 0 <= i < |likes| ==> likes[i].id < bound
    requires gone in likes
    ensures Pairwise(Filter(likes, OtherLike(gone.id)), DistinctLikes())
    ensures forall i :: 0 <= i < |Filter(likes, OtherLike(gone.id))| ==> Filter(likes, OtherLike(gone.id))[i].id < bound
    ensures !HasLiked(Filter(likes, OtherLike(gone.id)), gone.reviewId, gone.userId)
    ensures forall l: Like :: l.reviewId != gone.reviewId || l.userId != gone.userId ==>
      (l in Filter(likes, OtherLike(gone.id)) <==> l in likes)
  {
    var r := Filter(likes, OtherLike(gone.id));
    FilterMembers(likes, OtherLike(gone.id));
    FilterKeepsPairwise(likes, OtherLike(gone.id), DistinctLikes());
    forall l | l in likes && l.reviewId == gone.reviewId && l.userId == gone.userId
      ensures l.id == gone.id
    {
    }
    forall i | 0 <= i < |r|
      ensures r[i].id < bound
    {
      assert r[i] in likes;
    }
  }

  class ReviewPanel {
    /** `expandedComments`. */
    var expanded: seq<string>
    /** `reviewComments`: the comments loaded per review. */
    var cache: map<string, seq<Comment>>
    /** `newComment`: the draft per review. */
    var drafts: map<string, string>
    /** The `review_likes` table and its id counter. */
    var likes: seq<Like>
    var nextLikeId: nat
    /** The `review_comments` table. */
    var comments: seq<Comment>
    /** How many times `onReviewsUpdate` was called. */
    var refreshes: nat

    ghost predicate Valid()
      reads this
    {
      && NoDuplicates(expanded)
      && Pairwise(likes, DistinctLikes())
      && forall i :: 0 <= i < |likes| ==> likes[i].id < nextLikeId
    }

    constructor(likes: seq<Like>, nextLikeId: nat, comments: seq<Comment>)
      requires Pairwise(likes, DistinctLikes())
      requires forall i :: 0 <= i < |likes| ==> likes[i].id < nextLikeId
      ensures Valid()
      ensures this.likes == likes && this.nextLikeId == nextLikeId && this.comments == comments
      ensures expanded == [] && cache == map[] && drafts == map[] && refreshes == 0
    {
      expanded := [];
      cache := map[];
      drafts := map[];
      this.likes := likes;
      this.nextLikeId := nextLikeId;
      this.comments := comments;
      refreshes := 0;
    }

    /** `toggleComments`: flip the review's expansion; expanding a review whose comments are not
        cached loads them. */
    method ToggleComments(reviewId: string)
      requires Valid()
      modifies this
      ensures Valid()
      ensures expanded == Toggled(old(expanded), reviewId)
      ensures reviewId in old(expanded) || reviewId in old(cache) ==> cache == old(cache)
      ensures reviewId !in old(expanded) && reviewId !in old(cache) ==>
        cache == old(cache)[reviewId := CommentsOn(comments, reviewId)]
      ensures likes == old(likes) && comments == old(comments) && drafts == old(drafts)
      ensures nextLikeId == old(nextLikeId) && refreshes == old(refreshes)
    {
      ToggledKeepsNoDuplicates(expanded, reviewId);
      if reviewId in expanded {
        expanded := Toggled(expanded, reviewId);
      } else {
        expanded := Toggled(expanded, reviewId);
        if reviewId !in cache {
          cache := cache[reviewId := CommentsOn(comments, reviewId)];
        }
      }
    }

    /** `handleLikeReview`: signed out it only prompts; without a profile it stops; otherwise it
        deletes the user's like on the review if there is one and inserts one if not, then asks for
        the reviews to be refreshed. The write's result is not looked at: `writeOk` says whether the
        store took it, and the refresh follows either way. */
    method HandleLikeReview(reviewId: string, signedIn: bool, profile: Option<nat>, writeOk: bool) returns (prompted: bool)
      requires Valid()
      modifies this
      ensures Valid()
      ensures prompted <==> !signedIn
      ensures !signedIn || profile.None? ==> likes == old(likes) && refreshes == old(refreshes)
      ensures signedIn && profile.Some? ==> refreshes == old(refreshes) + 1
      ensures signedIn && profile.Some? && writeOk ==>
        && (HasLiked(likes, reviewId, profile.value) <==> !old(HasLiked(likes, reviewId, profile.value)))
        && (forall l: Like :: l.reviewId != reviewId || l.userId != profile.value ==> (l in likes <==> l in old(likes)))
      ensures signedIn && profile.Some? && writeOk && !old(HasLiked(likes, reviewId, profile.value)) ==>
        likes == old(likes) + [Like(old(nextLikeId), reviewId, profile.value)]
      ensures !writeOk ==> likes == old(likes) && nextLikeId == old(nextLikeId)
      ensures expanded == old(expanded) && cache == old(cache) && drafts == old(drafts) && comments == old(comments)
    {
      if !signedIn {
        return true;
      }
      if profile.None? {
        return false;
      }
      var userId := profile.value;
      var existing := FindLike(likes, reviewId, userId);
      if writeOk {
        if existing.Some? {
          UnlikeRemovesOnlyThatLike(likes, existing.value, nextLikeId);
          likes := Filter(likes, OtherLike(existing.value.id));
        } else {
          var added := Like(nextLikeId, reviewId, userId);
          PairwiseAppend(likes, added, DistinctLikes());
          likes := likes + [added];
          nextLikeId := nextLikeId + 1;
          assert added in likes;
        }
      }
      refreshes := refreshes + 1;
      return false;
    }

    /** Typing in a review's comment box. */
    method SetDraft(reviewId: string, text: string)
      requires Valid()
      modifies this
      ensures Valid()
      ensures drafts == old(drafts)[reviewId := text]
      ensures expanded == old(expanded) && cache == old(cache) && likes == old(likes) && comments == old(comments)
    {
      drafts := drafts[reviewId := text];
    }

    /** `handleAddComment`: nothing signed out or for a blank draft; otherwise, with a profile, the
        trimmed draft is inserted (when the insert goes through), that review's draft is cleared
        whatever the insert's result, and its comments are reloaded. */
    method HandleAddComment(reviewId: string, signedIn: bool, profile: Option<nat>, insertOk: bool)
      modifies this
      ensures !signedIn || IsBlank(DraftOf(old(drafts), reviewId)) || profile.None? ==>
        comments == old(comments) && drafts == old(drafts) && cache == old(cache)
      ensures signedIn && !IsBlank(DraftOf(old(drafts), reviewId)) && profile.Some? ==>
        && comments == old(comments) + (if insertOk then [Comment(reviewId, profile.value, Trim(DraftOf(old(drafts), reviewId)))] else [])
        && drafts == old(drafts)[reviewId := ""]
        && cache == old(cache)[reviewId := CommentsOn(comments, reviewId)]
      ensures expanded == old(expanded) && likes == old(likes) && nextLikeId == old(nextLikeId)
    {
      var draft := DraftOf(drafts, reviewId);
      if !signedIn || IsBlank(draft) {
        return;
      }
      if profile.None? {
        return;
      }
      PostComment(Comment(reviewId, profile.value, Trim(draft)), insertOk);
    }

    /** The part of `handleAddComment` after its checks: the insert of `c` (when it goes through),
        the cleared draft and the reloaded comments of `c`'s review. */
    method PostComment(c: Comment, insertOk: bool)
      modifies this
      ensures comments == old(comments) + (if insertOk then [c] else [])
      ensures drafts == old(drafts)[c.reviewId := ""]
      ensures cache == old(cache)[c.reviewId := CommentsOn(comments, c.reviewId)]
      ensures expanded == old(expanded) && likes == old(likes) && nextLikeId == old(nextLikeId)
    {
      if insertOk {
        comments := comments + [c];
      }
      drafts := drafts[c.reviewId := ""];
      cache := cache[c.reviewId := CommentsOn(comments, c.reviewId)];
    }
  }

  /** A posted comment is a draft that is not all whitespace, and carries no surrounding
      whitespace. */
  lemma PostedCommentIsTrimmed(draft: string)
    requires Trim(draft) != ""
    ensures !IsBlank(draft)
    ensures !IsWhitespace(Trim(draft)[0]) && !IsWhitespace(Trim(draft)[|Trim(draft)| - 1])
  {
  }
}
