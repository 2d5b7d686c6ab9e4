/**
 * The wishlist page: the signed-in user's `wishlist` rows, newest first, with removal by row id
 * followed by a refetch. The product page's heart button writes to the same table.
 */
module Wishlist {
  import opened Wrappers
  import opened Seqs

  /** A `wishlist` row. Rows are kept in insertion order, so the newest is last. */
  datatype WishRow = WishRow(id: nat, userId: nat, productId: string)

  function OwnedWish(userId: nat): WishRow -> bool {
    (w: WishRow) => w.userId == userId
  }

  function OtherWish(id: nat): WishRow -> bool {
    (w: WishRow) => w.id != id
  }

  /** The rows `fetchWishlist` shows: the user's, ordered by `created_at` descending. */
  function WishedBy(table: seq<WishRow>, userId: nat): (r: seq<WishRow>)
    ensures forall w :: w in r <==> w in table && w.userId == userId
    ensures |r| == |Filter(table, OwnedWish(userId))|
  {
    FilterMembers(table, OwnedWish(userId));
    ReverseKeepsMembers(Filter(table, OwnedWish(userId)));
    Reverse(Filter(table, OwnedWish(userId)))
  }

  /** The user's most recent wish comes first. */
  lemma NewestWishFirst(table: seq<WishRow>, w: WishRow)
    ensures WishedBy(table + [w], w.userId)[0] == w
  {
    var f := Filter(table + [w], OwnedWish(w.userId));
    FilterAppend(table, [w], OwnedWish(w.userId));
    assert Filter([w], OwnedWish(w.userId)) == [w];
    ReverseAt(f, 0);
  }

  class WishlistPage {
    /** The `wishlist` table. */
    var table: seq<WishRow>
    /** The profile the `users` table holds for the signed-in user, if any. */
    const account: Option<nat>
    var profile: Option<nat>
    /** `wishlistItems`. */
    var items: seq<WishRow>
    var loading: bool

    constructor(table: seq<WishRow>, account: Option<nat>)
      ensures this.table == table && this.account == account
      ensures profile.None? && items == [] && loading
    {
      this.table := table;
      this.account := account;
      profile := None;
      items := [];
      loading := true;
    }

    /** "N items in your wishlist". */
    function ItemCount(): nat
      reads this
    {
      |items|
    }

    /** `fetchWishlist`: load the profile and, when there is one, its rows newest first. */
    method Fetch()
      modifies this
      ensures table == old(table) && profile == account && !loading
      ensures account.None? ==> items == old(items)
      ensures account.Some? ==>
        && items == WishedBy(table, account.value)
        && ItemCount() == |Filter(table, OwnedWish(account.value))|
    {
      profile := account;
      if account.Some? {
        items := WishedBy(table, account.value);
      }
      loading := false;
    }

    /** `removeFromWishlist`: delete the row with that id; refetch only when the delete succeeded. */
    method RemoveFromWishlist(itemId: nat, ok: bool)
      modifies this
      ensures !ok ==> unchanged(this)
      ensures ok ==>
        && table == Filter(old(table), OtherWish(itemId))
        && profile == account && !loading
        && (account.Some? ==> items == WishedBy(table, account.value))
        && (account.None? ==> items == old(items))
      ensures forall w :: w in table <==> w in old(table) && (w.id != itemId || !ok)
    {
      FilterMembers(table, OtherWish(itemId));
      if !ok {
        return;
      }
      table := Filter(table, OtherWish(itemId));
      Fetch();
    }
  }
}
