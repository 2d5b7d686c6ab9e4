/**
 * The `carts` and `cart_items` tables of the row store, as sequences of rows in insertion
 * order, and the effect each cart operation has on them. Row ids and `created_at` stamps
 * come from one counter of the row store, so a fresh row always has the largest of both.
 */
module CartTable {
  import opened Wrappers
  import Seqs

  type Id = nat

  /** The product details a caller passes along with an add: the price snapshot and display data. */
  datatype Snapshot = Snapshot(price: int, name: string, image: string, weight: real, weightUnit: string)

  /** A row of `carts`: one shopping cart owned by a user profile. */
  datatype Cart = Cart(id: Id, owner: Id)

  /** A row of `cart_items`. */
  datatype Line = Line(
    id: Id,
    cartId: Id,
    variantId: string,
    asin: string,
    quantity: int,
    priceAtTime: int,
    productName: string,
    productImage: string,
    variantWeight: real,
    variantWeightUnit: string,
    createdAt: nat)

  /** The first cart row of `owner`, as the `limit(1)` lookup finds it. */
  function CartIndex(carts: seq<Cart>, owner: Id): (r: Option<nat>)
    ensures r.Some? ==> r.value < |carts| && carts[r.value].owner == owner
    ensures r.Some? ==> forall j :: 0 <= j < r.value ==> carts[j].owner != owner
    ensures r.None? ==> forall j :: 0 <= j < |carts| ==> carts[j].owner != owner
  {
    if carts == [] then None
    else if carts[0].owner == owner then Some(0)
    else match CartIndex(carts[1..], owner)
      case None => None
      case Some(k) => Some(k + 1)
  }

  predicate OneCartPerOwner(carts: seq<Cart>) {
    forall i, j :: 0 <= i < j < |carts| ==> carts[i].owner != carts[j].owner && carts[i].id != carts[j].id
  }

  predicate CartIdsBelow(carts: seq<Cart>, bound: nat) {
    forall i :: 0 <= i < |carts| ==> carts[i].id < bound
  }

  /** The carts table after get-or-create: unchanged when `owner` already has a cart or the insert is
      refused, otherwise one new cart row for `owner`. */
  function EnsureCart(carts: seq<Cart>, owner: Id, newId: Id, insertOk: bool): seq<Cart> {
    if CartIndex(carts, owner).Some? || !insertOk then carts else carts + [Cart(newId, owner)]
  }

  /** Where the first cart of `owner` sits after one more cart row is appended. */
  lemma {:induction false} CartIndexAppend(carts: seq<Cart>, c: Cart, owner: Id)
    ensures CartIndex(carts + [c], owner)
         == if CartIndex(carts, owner).Some? then CartIndex(carts, owner)
            else if c.owner == owner then Some(|carts|) else None
  {
    if carts != [] {
      assert (carts + [c])[1..] == carts[1..] + [c];
      CartIndexAppend(carts[1..], c, owner);
    }
  }

  /** Get-or-create returns the owner's existing cart untouched, creates one only when there is none,
      leaves every other owner's cart where it was, and keeps one cart per owner. */
  lemma EnsureCartFinds(carts: seq<Cart>, owner: Id, newId: Id, insertOk: bool)
    requires OneCartPerOwner(carts) && CartIdsBelow(carts, newId)
    ensures OneCartPerOwner(EnsureCart(carts, owner, newId, insertOk))
    ensures CartIdsBelow(EnsureCart(carts, owner, newId, insertOk), newId + 1)
    ensures CartIndex(carts, owner).Some? ==> EnsureCart(carts, owner, newId, insertOk) == carts
    ensures CartIndex(EnsureCart(carts, owner, newId, insertOk), owner).Some?
        <==> CartIndex(carts, owner).Some? || insertOk
    ensures CartIndex(carts, owner).None? && insertOk ==>
      var r := EnsureCart(carts, owner, newId, insertOk);
      CartIndex(r, owner) == Some(|carts|) && r[|carts|] == Cart(newId, owner)
    ensures forall other :: other != owner ==>
      CartIndex(EnsureCart(carts, owner, newId, insertOk), other) == CartIndex(carts, other)
  {
    if CartIndex(carts, owner).None? && insertOk {
      var c := Cart(newId, owner);
      CartIndexAppend(carts, c, owner);
      forall other | other != owner ensures CartIndex(carts + [c], other) == CartIndex(carts, other) {
        CartIndexAppend(carts, c, other);
      }
    }
  }

  /** Whether `l` is the line of variant `variantId` in cart `cartId`. */
  predicate SameItem(l: Line, cartId: Id, variantId: string) {
    l.cartId == cartId && l.variantId == variantId
  }

  /** The first line of `variantId` in cart `cartId`, as the `limit(1)` lookup in add finds it. */
  function LineIndex(lines: seq<Line>, cartId: Id, variantId: string): (r: Option<nat>)
    ensures r.Some? ==> r.value < |lines| && SameItem(lines[r.value], cartId, variantId)
    ensures r.Some? ==> forall j :: 0 <= j < r.value ==> !SameItem(lines[j], cartId, variantId)
    ensures r.None? ==> forall j :: 0 <= j < |lines| ==> !SameItem(lines[j], cartId, variantId)
  {
    if lines == [] then None
    else if SameItem(lines[0], cartId, variantId) then Some(0)
    else match LineIndex(lines[1..], cartId, variantId)
      case None => None
      case Some(k) => Some(k + 1)
  }

  /** `update({ quantity }).eq('id', itemId)`: every row with that id gets the quantity, nothing else moves. */
  function SetQuantity(lines: seq<Line>, itemId: Id, quantity: int): (r: seq<Line>)
    ensures |r| == |lines|
    ensures forall i {:trigger r[i]} :: 0 <= i < |lines| ==>
      r[i] == if lines[i].id == itemId then lines[i].(quantity := quantity) else lines[i]
  {
    if lines == [] then []
    else
      var first := if lines[0].id == itemId then lines[0].(quantity := quantity) else lines[0];
      [first] + SetQuantity(lines[1..], itemId, quantity)
  }

  function OtherId(itemId: Id): Line -> bool {
    (l: Line) => l.id != itemId
  }

  function InCart(cartId: Id): Line -> bool {
    (l: Line) => l.cartId == cartId
  }

  function OtherCart(cartId: Id): Line -> bool {
    (l: Line) => l.cartId != cartId
  }

  /** `delete().eq('id', itemId)`. */
  function DeleteLine(lines: seq<Line>, itemId: Id): seq<Line> {
    Seqs.Filter(lines, OtherId(itemId))
  }

  /** `delete().eq('cart_id', cartId)`. */
  function DeleteCartLines(lines: seq<Line>, cartId: Id): seq<Line> {
    Seqs.Filter(lines, OtherCart(cartId))
  }

  /** The lines of one cart, in insertion order. */
  function LinesOf(lines: seq<Line>, cartId: Id): seq<Line> {
    Seqs.Filter(lines, InCart(cartId))
  }

  /** `select('*').eq('cart_id', cartId).order('created_at', { ascending: false })`. */
  function Fetched(lines: seq<Line>, cartId: Id): seq<Line> {
    Seqs.Reverse(LinesOf(lines, cartId))
  }

  /** What one line adds to the cart total. */
  function Amount(l: Line): int {
    l.priceAtTime * l.quantity
  }

  /** What refresh shows for `owner`: the lines of the owner's cart, newest first, if the cart exists. */
  function ShownLines(carts: seq<Cart>, lines: seq<Line>, owner: Id): Option<seq<Line>> {
    match CartIndex(carts, owner)
    case Some(c) => Some(Fetched(lines, carts[c].id))
    case None => None
  }

  /** `reduce((total, item) => total + item.price_at_time * item.quantity, 0)`. */
  function Total(items: seq<Line>): int {
    if items == [] then 0 else Amount(items[0]) + Total(items[1..])
  }

  /** `reduce((total, item) => total + item.quantity, 0)`. */
  function Count(items: seq<Line>): int {
    if items == [] then 0 else items[0].quantity + Count(items[1..])
  }

  /** The row inserted for a variant that is not yet in the cart. */
  function NewLine(id: Id, cartId: Id, variantId: string, asin: string, quantity: int, details: Snapshot): Line {
    Line(id, cartId, variantId, asin, quantity, details.price, details.name, details.image,
         details.weight, details.weightUnit, id)
  }

  /** The lines table after a successful add: merge into the existing line of the variant, else insert. */
  function AddLine(lines: seq<Line>, cartId: Id, variantId: string, asin: string, quantity: int,
                   details: Snapshot, newId: Id): seq<Line>
  {
    match LineIndex(lines, cartId, variantId)
    case Some(k) => SetQuantity(lines, lines[k].id, lines[k].quantity + quantity)
    case None => lines + [NewLine(newId, cartId, variantId, asin, quantity, details)]
  }

  /** Of two lines in table order, the first is older, and they differ in id and in (cart, variant). */
  predicate Precedes(a: Line, b: Line) {
    a.id != b.id && a.createdAt < b.createdAt && !SameItem(a, b.cartId, b.variantId)
  }

  predicate Follows(a: Line, b: Line) {
    Precedes(b, a)
  }

  predicate LineBelow(l: Line, bound: nat) {
    l.id < bound && l.createdAt < bound
  }

  /** The invariant of the lines table: unique ids, oldest first, at most one line per (cart, variant). */
  ghost predicate TableOk(lines: seq<Line>, bound: nat) {
    && Seqs.Pairwise(lines, Precedes)
    && forall i :: 0 <= i < |lines| ==> LineBelow(lines[i], bound)
  }

  lemma {:induction false} TotalAppend(a: seq<Line>, b: seq<Line>)
    ensures Total(a + b) == Total(a) + Total(b)
    ensures Count(a + b) == Count(a) + Count(b)
  {
    if a == [] {
      assert a + b == b;
    } else {
      assert (a + b)[1..] == a[1..] + b;
      TotalAppend(a[1..], b);
    }
  }

  /** The sums do not depend on the order of the lines: the newest-first list sums like the table. */
  lemma {:induction false} TotalReverse(items: seq<Line>)
    ensures Total(Seqs.Reverse(items)) == Total(items)
    ensures Count(Seqs.Reverse(items)) == Count(items)
  {
    if items != [] {
      TotalReverse(items[1..]);
      TotalAppend(Seqs.Reverse(items[1..]), [items[0]]);
    }
  }

  lemma {:induction false} LinesOfCons(x: Line, rest: seq<Line>, cartId: Id)
    ensures LinesOf([x] + rest, cartId) == (if x.cartId == cartId then [x] else []) + LinesOf(rest, cartId)
  {
    assert ([x] + rest)[1..] == rest;
  }

  /** An id no line carries leaves the table as it was. */
  lemma SetQuantityAbsent(lines: seq<Line>, itemId: Id, quantity: int)
    requires forall i :: 0 <= i < |lines| ==> lines[i].id != itemId
    ensures SetQuantity(lines, itemId, quantity) == lines
  {
  }

  /** Changing one line's quantity shifts the cart's count by the difference and its total by price times it. */
  lemma {:induction false} SetQuantitySums(lines: seq<Line>, k: nat, quantity: int, cartId: Id)
    requires k < |lines| && lines[k].cartId == cartId
    requires forall i :: 0 <= i < |lines| && i != k ==> lines[i].id != lines[k].id
    ensures Count(LinesOf(SetQuantity(lines, lines[k].id, quantity), cartId))
         == Count(LinesOf(lines, cartId)) + quantity - lines[k].quantity
    ensures Total(LinesOf(SetQuantity(lines, lines[k].id, quantity), cartId))
         == Total(LinesOf(lines, cartId)) + Amount(lines[k].(quantity := quantity)) - Amount(lines[k])
  {
    var id := lines[k].id;
    var rest := lines[1..];
    assert lines == [lines[0]] + rest;
    var changedRest := SetQuantity(rest, id, quantity);
    LinesOfCons(lines[0], rest, cartId);
    var before := if lines[0].cartId == cartId then [lines[0]] else [];
    TotalAppend(before, LinesOf(rest, cartId));
    if k == 0 {
      var first := lines[0].(quantity := quantity);
      assert forall i :: 0 <= i < |rest| ==> rest[i].id != id by {
        forall i | 0 <= i < |rest| ensures rest[i].id != id {
          assert rest[i] == lines[i + 1];
        }
      }
      SetQuantityAbsent(rest, id, quantity);
      assert SetQuantity(lines, id, quantity) == [first] + rest;
      LinesOfCons(first, rest, cartId);
      TotalAppend([first], LinesOf(rest, cartId));
    } else {
      assert rest[k - 1] == lines[k];
      assert forall i :: 0 <= i < |rest| && i != k - 1 ==> rest[i].id != rest[k - 1].id by {
        forall i | 0 <= i < |rest| && i != k - 1 ensures rest[i].id != rest[k - 1].id {
          assert rest[i] == lines[i + 1];
        }
      }
      SetQuantitySums(rest, k - 1, quantity, cartId);
      assert SetQuantity(lines, id, quantity) == [lines[0]] + changedRest;
      LinesOfCons(lines[0], changedRest, cartId);
      TotalAppend(before, LinesOf(changedRest, cartId));
    }
  }

  /** Merging into the variant's line raises that line's quantity by exactly the added amount,
      keeps its price snapshot and leaves every other line as it was. */
  lemma AddMergesIntoExisting(lines: seq<Line>, cartId: Id, variantId: string, asin: string,
                              quantity: int, details: Snapshot, newId: Id, k: nat)
    requires TableOk(lines, newId)
    requires LineIndex(lines, cartId, variantId) == Some(k)
    ensures |AddLine(lines, cartId, variantId, asin, quantity, details, newId)| == |lines|
    ensures AddLine(lines, cartId, variantId, asin, quantity, details, newId)[k]
         == lines[k].(quantity := lines[k].quantity + quantity)
    ensures forall i :: 0 <= i < |lines| && i != k ==>
      AddLine(lines, cartId, variantId, asin, quantity, details, newId)[i] == lines[i]
  {
    IdsDistinct(lines, k, newId);
  }

  /** Merging grows the cart's count by the added amount and its total by the old snapshot price
      times it: the price passed with the second add is not used. */
  lemma AddMergeSums(lines: seq<Line>, cartId: Id, variantId: string, asin: string,
                     quantity: int, details: Snapshot, newId: Id, k: nat)
    requires TableOk(lines, newId)
    requires LineIndex(lines, cartId, variantId) == Some(k)
    ensures Count(LinesOf(AddLine(lines, cartId, variantId, asin, quantity, details, newId), cartId))
         == Count(LinesOf(lines, cartId)) + quantity
    ensures Total(LinesOf(AddLine(lines, cartId, variantId, asin, quantity, details, newId), cartId))
         == Total(LinesOf(lines, cartId)) + lines[k].priceAtTime * quantity
  {
    IdsDistinct(lines, k, newId);
    MergeSums(lines, k, quantity, cartId);
    AddLineMerges(lines, cartId, variantId, asin, quantity, details, newId, k);
  }

  lemma AddLineMerges(lines: seq<Line>, cartId: Id, variantId: string, asin: string,
                      quantity: int, details: Snapshot, newId: Id, k: nat)
    requires LineIndex(lines, cartId, variantId) == Some(k)
    ensures AddLine(lines, cartId, variantId, asin, quantity, details, newId)
         == SetQuantity(lines, lines[k].id, lines[k].quantity + quantity)
  {
  }

  lemma MergeSums(lines: seq<Line>, k: nat, quantity: int, cartId: Id)
    requires k < |lines| && lines[k].cartId == cartId
    requires forall i :: 0 <= i < |lines| && i != k ==> lines[i].id != lines[k].id
    ensures Count(LinesOf(SetQuantity(lines, lines[k].id, lines[k].quantity + quantity), cartId))
         == Count(LinesOf(lines, cartId)) + quantity
    ensures Total(LinesOf(SetQuantity(lines, lines[k].id, lines[k].quantity + quantity), cartId))
         == Total(LinesOf(lines, cartId)) + lines[k].priceAtTime * quantity
  {
    assert Count(LinesOf(SetQuantity(lines, lines[k].id, lines[k].quantity + quantity), cartId))
        == Count(LinesOf(lines, cartId)) + quantity by {
      SetQuantitySums(lines, k, lines[k].quantity + quantity, cartId);
    }
    assert Total(LinesOf(SetQuantity(lines, lines[k].id, lines[k].quantity + quantity), cartId))
        == Total(LinesOf(lines, cartId)) + lines[k].priceAtTime * quantity by {
      MergeTotal(lines, k, quantity, cartId);
    }
  }

  lemma MergeTotal(lines: seq<Line>, k: nat, quantity: int, cartId: Id)
    requires k < |lines| && lines[k].cartId == cartId
    requires forall i :: 0 <= i < |lines| && i != k ==> lines[i].id != lines[k].id
    ensures Total(LinesOf(SetQuantity(lines, lines[k].id, lines[k].quantity + quantity), cartId))
         == Total(LinesOf(lines, cartId)) + lines[k].priceAtTime * quantity
  {
    var q := lines[k].quantity + quantity;
    var after := Total(LinesOf(SetQuantity(lines, lines[k].id, q), cartId));
    var before := Total(LinesOf(lines, cartId));
    assert after == before + Amount(lines[k].(quantity := q)) - Amount(lines[k]) by {
      SetQuantitySums(lines, k, q, cartId);
    }
    assert Amount(lines[k].(quantity := q)) == Amount(lines[k]) + lines[k].priceAtTime * quantity by {
      AmountGrows(lines[k], quantity);
    }
    ShiftTotal(after, before, Amount(lines[k].(quantity := q)), Amount(lines[k]), lines[k].priceAtTime * quantity);
  }

  lemma ShiftTotal(after: int, before: int, grown: int, previous: int, delta: int)
    requires after == before + grown - previous && grown == previous + delta
    ensures after == before + delta
  {
  }

  lemma IdsDistinct(lines: seq<Line>, k: nat, bound: nat)
    requires TableOk(lines, bound) && k < |lines|
    ensures forall i :: 0 <= i < |lines| && i != k ==> lines[i].id != lines[k].id
  {
    forall i | 0 <= i < |lines| && i != k ensures lines[i].id != lines[k].id {
      if i < k { assert Precedes(lines[i], lines[k]); } else { assert Precedes(lines[k], lines[i]); }
    }
  }

  lemma AmountGrows(l: Line, quantity: int)
    ensures Amount(l.(quantity := l.quantity + quantity)) == Amount(l) + l.priceAtTime * quantity
  {
  }

  /** A variant not yet in the cart gets exactly one new line at the end of the table, carrying the
      given quantity and the snapshot's price, name, image, weight and unit; the cart's count grows
      by the quantity and its total by the snapshot price times it. */
  lemma AddInsertsNewLine(lines: seq<Line>, cartId: Id, variantId: string, asin: string,
                          quantity: int, details: Snapshot, newId: Id)
    requires LineIndex(lines, cartId, variantId).None?
    ensures |AddLine(lines, cartId, variantId, asin, quantity, details, newId)| == |lines| + 1
    ensures AddLine(lines, cartId, variantId, asin, quantity, details, newId)[..|lines|] == lines
    ensures var l := AddLine(lines, cartId, variantId, asin, quantity, details, newId)[|lines|];
      && l.id == newId && l.cartId == cartId && l.variantId == variantId && l.asin == asin
      && l.quantity == quantity && l.priceAtTime == details.price && l.productName == details.name
      && l.productImage == details.image && l.variantWeight == details.weight
      && l.variantWeightUnit == details.weightUnit
    ensures Count(LinesOf(AddLine(lines, cartId, variantId, asin, quantity, details, newId), cartId))
         == Count(LinesOf(lines, cartId)) + quantity
    ensures Total(LinesOf(AddLine(lines, cartId, variantId, asin, quantity, details, newId), cartId))
         == Total(LinesOf(lines, cartId)) + details.price * quantity
  {
    var n := NewLine(newId, cartId, variantId, asin, quantity, details);
    Seqs.FilterAppend(lines, [n], InCart(cartId));
    assert Seqs.Filter([n], InCart(cartId)) == [n];
    TotalAppend(LinesOf(lines, cartId), [n]);
  }

  /** Add keeps the table invariant; in particular there is still at most one line per (cart, variant). */
  lemma AddKeepsTableOk(lines: seq<Line>, cartId: Id, variantId: string, asin: string,
                        quantity: int, details: Snapshot, newId: Id)
    requires TableOk(lines, newId)
    ensures TableOk(AddLine(lines, cartId, variantId, asin, quantity, details, newId), newId + 1)
  {
    var r := AddLine(lines, cartId, variantId, asin, quantity, details, newId);
    match LineIndex(lines, cartId, variantId)
    case Some(k) =>
      forall i, j | 0 <= i < j < |r| ensures Precedes(r[i], r[j]) {
        assert Precedes(lines[i], lines[j]);
      }
    case None =>
      forall i, j | 0 <= i < j < |r| ensures Precedes(r[i], r[j]) {
        if j < |lines| {
          assert Precedes(lines[i], lines[j]);
        } else {
          assert LineBelow(lines[i], newId);
        }
      }
  }

  /** Adding the same new variant twice yields one line holding the summed quantity and the first
      add's snapshot. */
  lemma AddTwiceMerges(lines: seq<Line>, cartId: Id, variantId: string, asin: string,
                       first: int, firstDetails: Snapshot, second: int, secondDetails: Snapshot, newId: Id)
    requires TableOk(lines, newId)
    requires LineIndex(lines, cartId, variantId).None?
    ensures AddLine(AddLine(lines, cartId, variantId, asin, first, firstDetails, newId),
                    cartId, variantId, asin, second, secondDetails, newId + 1)
         == lines + [NewLine(newId, cartId, variantId, asin, first + second, firstDetails)]
  {
    var once := AddLine(lines, cartId, variantId, asin, first, firstDetails, newId);
    assert once == lines + [NewLine(newId, cartId, variantId, asin, first, firstDetails)];
    assert LineIndex(once, cartId, variantId) == Some(|lines|) by {
      LineIndexAfterMiss(lines, NewLine(newId, cartId, variantId, asin, first, firstDetails), cartId, variantId);
    }
    forall i | 0 <= i < |lines| ensures lines[i].id != newId {
      assert LineBelow(lines[i], newId);
    }
  }

  lemma {:induction false} LineIndexAfterMiss(lines: seq<Line>, l: Line, cartId: Id, variantId: string)
    requires LineIndex(lines, cartId, variantId).None? && SameItem(l, cartId, variantId)
    ensures LineIndex(lines + [l], cartId, variantId) == Some(|lines|)
  {
    if lines != [] {
      assert (lines + [l])[1..] == lines[1..] + [l];
      LineIndexAfterMiss(lines[1..], l, cartId, variantId);
    }
  }

  /** Update keeps the table invariant, since it touches neither ids, stamps, carts nor variants. */
  lemma SetQuantityKeepsTableOk(lines: seq<Line>, itemId: Id, quantity: int, bound: nat)
    requires TableOk(lines, bound)
    ensures TableOk(SetQuantity(lines, itemId, quantity), bound)
  {
    var r := SetQuantity(lines, itemId, quantity);
    forall i, j | 0 <= i < j < |r| ensures Precedes(r[i], r[j]) {
      assert Precedes(lines[i], lines[j]);
    }
  }

  /** Removing by id deletes exactly the line with that id, keeps the order of the rest, and
      keeps the table invariant. */
  lemma {:induction false} DeleteRemovesExactlyOne(lines: seq<Line>, k: nat, bound: nat)
    requires k < |lines| && TableOk(lines, bound)
    ensures DeleteLine(lines, lines[k].id) == lines[..k] + lines[k + 1..]
    ensures TableOk(DeleteLine(lines, lines[k].id), bound)
  {
    var id := lines[k].id;
    var keep := OtherId(id);
    var a, b := lines[..k], lines[k + 1..];
    assert lines == a + [lines[k]] + b;
    forall i | 0 <= i < |a| ensures keep(a[i]) {
      assert a[i] == lines[i];
      assert Precedes(lines[i], lines[k]);
    }
    forall i | 0 <= i < |b| ensures keep(b[i]) {
      assert b[i] == lines[k + 1 + i];
      assert Precedes(lines[k], lines[k + 1 + i]);
    }
    Seqs.FilterDropsOne(a, lines[k], b, keep);
    DeleteKeepsTableOk(lines, id, bound);
  }

  lemma DeleteKeepsTableOk(lines: seq<Line>, itemId: Id, bound: nat)
    requires TableOk(lines, bound)
    ensures TableOk(DeleteLine(lines, itemId), bound)
  {
    Seqs.FilterKeepsPairwise(lines, OtherId(itemId), Precedes);
  }

  /** Removing an id no line carries changes nothing. */
  lemma DeleteAbsentId(lines: seq<Line>, itemId: Id)
    requires forall i :: 0 <= i < |lines| ==> lines[i].id != itemId
    ensures DeleteLine(lines, itemId) == lines
  {
    Seqs.FilterAll(lines, OtherId(itemId));
  }

  /** Clearing a cart leaves it without lines, leaves every other cart's lines as they were, and
      keeps the table invariant. */
  lemma {:induction false} ClearEmptiesOnlyThatCart(lines: seq<Line>, cartId: Id, other: Id, bound: nat)
    requires TableOk(lines, bound)
    ensures LinesOf(DeleteCartLines(lines, cartId), cartId) == []
    ensures other != cartId ==> LinesOf(DeleteCartLines(lines, cartId), other) == LinesOf(lines, other)
    ensures TableOk(DeleteCartLines(lines, cartId), bound)
  {
    var r := DeleteCartLines(lines, cartId);
    Seqs.FilterKeepsPairwise(lines, OtherCart(cartId), Precedes);
    Seqs.FilterMembers(lines, OtherCart(cartId));
    ClearSelects(lines, cartId, other);
  }

  lemma {:induction false} ClearSelects(lines: seq<Line>, cartId: Id, other: Id)
    ensures LinesOf(DeleteCartLines(lines, cartId), cartId) == []
    ensures other != cartId ==> LinesOf(DeleteCartLines(lines, cartId), other) == LinesOf(lines, other)
  {
    if lines != [] {
      ClearSelects(lines[1..], cartId, other);
      var rest := DeleteCartLines(lines[1..], cartId);
      if lines[0].cartId == cartId {
        assert DeleteCartLines(lines, cartId) == rest;
      } else {
        assert DeleteCartLines(lines, cartId) == [lines[0]] + rest;
        LinesOfCons(lines[0], rest, cartId);
        LinesOfCons(lines[0], rest, other);
      }
      assert lines == [lines[0]] + lines[1..];
      LinesOfCons(lines[0], lines[1..], other);
    }
  }

  /** The refreshed list is exactly the cart's lines, newest first, and sums like the table does. */
  lemma FetchedNewestFirst(lines: seq<Line>, cartId: Id, bound: nat)
    requires TableOk(lines, bound)
    ensures forall x :: x in Fetched(lines, cartId) <==> x in lines && x.cartId == cartId
    ensures Seqs.Pairwise(Fetched(lines, cartId), Follows)
    ensures Total(Fetched(lines, cartId)) == Total(LinesOf(lines, cartId))
    ensures Count(Fetched(lines, cartId)) == Count(LinesOf(lines, cartId))
  {
    Seqs.FilterMembers(lines, InCart(cartId));
    Seqs.ReverseKeepsMembers(LinesOf(lines, cartId));
    Seqs.FilterKeepsPairwise(lines, InCart(cartId), Precedes);
    Seqs.ReverseFlipsPairwise(LinesOf(lines, cartId), Precedes, Follows);
    TotalReverse(LinesOf(lines, cartId));
  }
}
