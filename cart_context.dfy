/**
 * The cart provider: the signed-in user, the list of cart lines it last fetched, and the operations
 * that read and write the `carts` and `cart_items` tables on the user's behalf. Each operation runs
 * to completion before the next starts. A write the row store refuses is modelled by an argument
 * (`insertOk` for creating a cart, `fault` carrying the store's error message for a line write).
 */
module CartContext {
  import opened Wrappers
  import opened CartTable

  /** What the cart operations throw. */
  datatype CartError =
    | SignInRequired
    | ProfileNotFound
    | CartUnavailable
    | WriteRejected(message: string)
  {
    function Message(): string {
      match this
      case SignInRequired => "Please sign in to add items to cart"
      case ProfileNotFound => "User profile not found"
      case CartUnavailable => "Failed to create or get cart"
      case WriteRejected(m) => m
    }
  }

  /** How an asynchronous cart operation settles: it resolves, or it rejects with an error. */
  datatype Outcome = Completed | Thrown(error: CartError)

  class CartProvider {
    /** The auth user id, when someone is signed in. */
    var user: Option<string>
    /** The `users` table, as the lookup from auth id to profile id sees it. */
    var profiles: map<string, Id>
    var carts: seq<Cart>
    var lines: seq<Line>
    /** The row store's counter for ids and `created_at` stamps. */
    var nextId: nat
    /** The list last fetched by refresh, newest first. */
    var cartItems: seq<Line>
    var loading: bool

    ghost predicate Valid()
      reads this
    {
      && OneCartPerOwner(carts)
      && CartIdsBelow(carts, nextId)
      && TableOk(lines, nextId)
      && (user.None? ==> cartItems == [])
    }

    /** The signed-in user's profile id, if the `users` table has one. */
    function Profile(): Option<Id>
      reads this
    {
      if user.Some? && user.value in profiles then Some(profiles[user.value]) else None
    }

    /** `cartCount`. */
    function CartCount(): int
      reads this
    {
      Count(cartItems)
    }

    /** `getCartTotal()`. */
    function CartTotal(): int
      reads this
    {
      Total(cartItems)
    }

    constructor(profiles: map<string, Id>)
      ensures Valid()
      ensures this.profiles == profiles && user.None? && carts == [] && lines == [] && cartItems == []
    {
      this.profiles := profiles;
      user := None;
      carts := [];
      lines := [];
      nextId := 0;
      cartItems := [];
      loading := false;
    }

    /** With nobody signed in the list is empty, so the count and the total are both 0. */
    lemma SignedOutSumsZero()
      requires Valid() && user.None?
      ensures CartCount() == 0 && CartTotal() == 0
    {
    }

    /** `getOrCreateCart`: the profile's first cart, or a new one when it has none; `None` when the
        insert is refused, where the source throws 'Failed to create or get cart'. */
    method GetOrCreateCart(owner: Id, insertOk: bool) returns (cart: Option<Id>)
      requires Valid()
      modifies this
      ensures Valid()
      ensures user == old(user) && profiles == old(profiles) && lines == old(lines) && cartItems == old(cartItems)
      ensures loading == old(loading)
      ensures carts == EnsureCart(old(carts), owner, old(nextId), insertOk)
      ensures nextId == old(nextId) + |carts| - |old(carts)|
      ensures cart.Some? <==> CartIndex(carts, owner).Some?
      ensures cart.Some? ==> cart.value == carts[CartIndex(carts, owner).value].id
    {
      EnsureCartFinds(carts, owner, nextId, insertOk);
      var found := CartIndex(carts, owner);
      if found.Some? {
        return Some(carts[found.value].id);
      }
      if !insertOk {
        return None;
      }
      carts := carts + [Cart(nextId, owner)];
      cart := Some(nextId);
      nextId := nextId + 1;
    }

    /** `refreshCart`: with a user and a profile, get or create the cart and fetch its lines newest first.
        Failures are swallowed and leave the list as it was. */
    method RefreshCart(insertOk: bool)
      requires Valid()
      modifies this
      ensures Valid()
      ensures user == old(user) && profiles == old(profiles) && lines == old(lines)
      ensures loading == (old(loading) && user.None?)
      ensures old(Profile()).None? ==> carts == old(carts) && nextId == old(nextId) && cartItems == old(cartItems)
      ensures old(Profile()).Some? ==>
        && carts == EnsureCart(old(carts), old(Profile()).value, old(nextId), insertOk)
        && nextId == old(nextId) + |carts| - |old(carts)|
        && cartItems == ShownLines(carts, lines, old(Profile()).value).GetOr(old(cartItems))
    {
      if user.None? {
        return;
      }
      loading := true;
      var profile := Profile();
      if profile.Some? {
        var cart := GetOrCreateCart(profile.value, insertOk);
        if cart.Some? {
          cartItems := Fetched(lines, cart.value);
        }
      }
      loading := false;
    }

    /** The effect hook on `user`: refresh for a signed-in user, empty the list otherwise. */
    method OnUserChange(newUser: Option<string>, insertOk: bool)
      requires Valid()
      modifies this
      ensures Valid()
      ensures user == newUser && profiles == old(profiles) && lines == old(lines)
      ensures newUser.None? ==> cartItems == [] && carts == old(carts) && nextId == old(nextId) && loading == old(loading)
      ensures newUser.Some? ==> !loading
      ensures newUser.Some? && Profile().None? ==>
        carts == old(carts) && nextId == old(nextId) && cartItems == old(cartItems)
      ensures newUser.Some? && Profile().Some? ==>
        && carts == EnsureCart(old(carts), Profile().value, old(nextId), insertOk)
        && nextId == old(nextId) + |carts| - |old(carts)|
        && cartItems == ShownLines(carts, lines, Profile().value).GetOr(old(cartItems))
    {
      user := newUser;
      if newUser.Some? {
        RefreshCart(insertOk);
      } else {
        cartItems := [];
      }
    }

    /** `addToCart`: merge into the cart's line of the variant, or insert a line with the price snapshot,
        then refresh. */
    method AddToCart(variantId: string, asin: string, quantity: int, details: Snapshot,
                     insertOk: bool, fault: Option<string>) returns (outcome: Outcome)
      requires Valid()
      modifies this
      ensures Valid()
      ensures user == old(user) && profiles == old(profiles)
      ensures old(user).None? ==> outcome == Thrown(SignInRequired) && unchanged(this)
      ensures old(user).Some? && old(Profile()).None? ==> outcome == Thrown(ProfileNotFound) && unchanged(this)
      ensures old(Profile()).Some? ==>
        var owner := old(Profile()).value;
        && carts == EnsureCart(old(carts), owner, old(nextId), insertOk)
        && match CartIndex(carts, owner)
           case None =>
             outcome == Thrown(CartUnavailable) && lines == old(lines) && cartItems == old(cartItems)
           case Some(c) =>
             var cartId := carts[c].id;
             var lineId := old(nextId) + |carts| - |old(carts)|;
             if fault.Some? then
               outcome == Thrown(WriteRejected(fault.value)) && lines == old(lines)
               && cartItems == old(cartItems) && nextId == lineId
             else
               && outcome == Completed
               && lines == AddLine(old(lines), cartId, variantId, asin, quantity, details, lineId)
               && nextId == lineId + |lines| - |old(lines)|
               && cartItems == Fetched(lines, cartId)
    {
      if user.None? {
        return Thrown(SignInRequired);
      }
      var profile := Profile();
      if profile.None? {
        return Thrown(ProfileNotFound);
      }
      var cart := GetOrCreateCart(profile.value, insertOk);
      if cart.None? {
        return Thrown(CartUnavailable);
      }
      if fault.Some? {
        return Thrown(WriteRejected(fault.value));
      }
      WriteLine(cart.value, variantId, asin, quantity, details);
      EnsureCartFinds(carts, profile.value, nextId, insertOk);
      RefreshCart(insertOk);
      return Completed;
    }

    /** The write step of add: raise the quantity of the variant's line in the cart, or insert a line. */
    method WriteLine(cartId: Id, variantId: string, asin: string, quantity: int, details: Snapshot)
      requires Valid()
      modifies this
      ensures Valid()
      ensures user == old(user) && profiles == old(profiles) && carts == old(carts)
      ensures cartItems == old(cartItems) && loading == old(loading)
      ensures lines == AddLine(old(lines), cartId, variantId, asin, quantity, details, old(nextId))
      ensures nextId == old(nextId) + |lines| - |old(lines)|
    {
      AddKeepsTableOk(lines, cartId, variantId, asin, quantity, details, nextId);
      var existing := LineIndex(lines, cartId, variantId);
      match existing {
        case Some(k) =>
          lines := SetQuantity(lines, lines[k].id, lines[k].quantity + quantity);
        case None =>
          lines := lines + [NewLine(nextId, cartId, variantId, asin, quantity, details)];
          nextId := nextId + 1;
      }
    }

    /** `updateQuantity`: overwrite the quantity of the line with that id, whatever the value, then refresh. */
    method UpdateQuantity(itemId: Id, quantity: int, insertOk: bool, fault: Option<string>)
      returns (outcome: Outcome)
      requires Valid()
      modifies this
      ensures Valid()
      ensures user == old(user) && profiles == old(profiles)
      ensures fault.Some? ==> outcome == Thrown(WriteRejected(fault.value)) && unchanged(this)
      ensures fault.None? ==>
        && outcome == Completed
        && lines == SetQuantity(old(lines), itemId, quantity)
        && (old(Profile()).None? ==> carts == old(carts) && cartItems == old(cartItems))
        && (old(Profile()).Some? ==>
              && carts == EnsureCart(old(carts), old(Profile()).value, old(nextId), insertOk)
              && cartItems == ShownLines(carts, lines, old(Profile()).value).GetOr(old(cartItems)))
    {
      if fault.Some? {
        return Thrown(WriteRejected(fault.value));
      }
      SetQuantityKeepsTableOk(lines, itemId, quantity, nextId);
      lines := SetQuantity(lines, itemId, quantity);
      RefreshCart(insertOk);
      return Completed;
    }

    /** `removeFromCart`: delete the line with that id, then refresh. */
    method RemoveFromCart(itemId: Id, insertOk: bool, fault: Option<string>) returns (outcome: Outcome)
      requires Valid()
      modifies this
      ensures Valid()
      ensures user == old(user) && profiles == old(profiles)
      ensures fault.Some? ==> outcome == Thrown(WriteRejected(fault.value)) && unchanged(this)
      ensures fault.None? ==>
        && outcome == Completed
        && lines == DeleteLine(old(lines), itemId)
        && (old(Profile()).None? ==> carts == old(carts) && cartItems == old(cartItems))
        && (old(Profile()).Some? ==>
              && carts == EnsureCart(old(carts), old(Profile()).value, old(nextId), insertOk)
              && cartItems == ShownLines(carts, lines, old(Profile()).value).GetOr(old(cartItems)))
    {
      if fault.Some? {
        return Thrown(WriteRejected(fault.value));
      }
      DeleteKeepsTableOk(lines, itemId, nextId);
      lines := DeleteLine(lines, itemId);
      RefreshCart(insertOk);
      return Completed;
    }

    /** `clearCart`: delete every line of the profile's cart, keep the cart row, empty the list.
        Without a profile it returns quietly. */
    method ClearCart(insertOk: bool, fault: Option<string>) returns (outcome: Outcome)
      requires Valid()
      modifies this
      ensures Valid()
      ensures user == old(user) && profiles == old(profiles)
      ensures old(Profile()).None? ==> outcome == Completed && unchanged(this)
      ensures old(Profile()).Some? ==>
        var owner := old(Profile()).value;
        && carts == EnsureCart(old(carts), owner, old(nextId), insertOk)
        && nextId == old(nextId) + |carts| - |old(carts)|
        && loading == old(loading)
        && match CartIndex(carts, owner)
           case None => outcome == Thrown(CartUnavailable) && lines == old(lines) && cartItems == old(cartItems)
           case Some(c) =>
             if fault.Some? then
               outcome == Thrown(WriteRejected(fault.value)) && lines == old(lines) && cartItems == old(cartItems)
             else
               outcome == Completed && lines == DeleteCartLines(old(lines), carts[c].id) && cartItems == []
    {
      var profile := Profile();
      if profile.None? {
        return Completed;
      }
      var cart := GetOrCreateCart(profile.value, insertOk);
      if cart.None? {
        return Thrown(CartUnavailable);
      }
      if fault.Some? {
        return Thrown(WriteRejected(fault.value));
      }
      ClearEmptiesOnlyThatCart(lines, cart.value, cart.value, nextId);
      lines := DeleteCartLines(lines, cart.value);
      cartItems := [];
      return Completed;
    }
  }
}
