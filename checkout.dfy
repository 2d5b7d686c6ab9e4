/**
 * The checkout page: the price summary computed from the cart, the choice of delivery address, the
 * order row and order items written for the cart, and the dispatch between online payment and cash
 * on delivery. The `orders` and `order_items` tables are held as sequences; an order's id is its
 * position in `orders`.
 */
module Checkout {
  import opened Wrappers
  import opened CartTable
  import opened CartContext
  import Seqs
  import OwnedRows
  import AddressForm

  type SavedAddress = OwnedRows.Row<AddressForm.Address>

  /** Flat-rate shipping, waived only when the subtotal is strictly above 500. */
  function Shipping(subtotal: int): (r: int)
    ensures r == 0 || r == 50
    ensures r == 0 <==> subtotal > 500
  {
    if subtotal > 500 then 0 else 50
  }

  /** What the customer pays: the subtotal and the shipping charge. */
  function GrandTotal(subtotal: int): (r: int)
    ensures subtotal <= r <= subtotal + 50
    ensures r == subtotal <==> subtotal > 500
  {
    subtotal + Shipping(subtotal)
  }

  /** The threshold is strict, so the grand total drops when the subtotal crosses it. */
  lemma GrandTotalDropsAtThreshold()
    ensures GrandTotal(500) == 550 && GrandTotal(501) == 501
    ensures GrandTotal(500) > GrandTotal(501)
  {
  }

  /** The amount handed to the payment gateway, in paise. */
  function Paise(rupees: int): (r: int)
    ensures r % 100 == 0 && r / 100 == rupees
  {
    rupees * 100
  }

  /** The position of the first row flagged default (`find(addr => addr.is_default)`). */
  function FirstDefault<T>(rows: seq<OwnedRows.Row<T>>): (r: Option<nat>)
    ensures r.Some? ==> r.value < |rows| && rows[r.value].isDefault
    ensures r.Some? ==> forall j :: 0 <= j < r.value ==> !rows[j].isDefault
    ensures r.None? ==> forall j :: 0 <= j < |rows| ==> !rows[j].isDefault
  {
    if rows == [] then None
    else if rows[0].isDefault then Some(0)
    else match FirstDefault(rows[1..])
      case None => None
      case Some(k) => Some(k + 1)
  }

  /** The address selected after a fetch: the first default one, else the first one; with none
      fetched the previous selection stays. */
  function SelectAddress<T>(current: Option<OwnedRows.Row<T>>, fetched: seq<OwnedRows.Row<T>>)
    : (r: Option<OwnedRows.Row<T>>)
    ensures fetched == [] ==> r == current
    ensures fetched != [] ==> r.Some? && r.value in fetched
    ensures fetched != [] ==> (r.value.isDefault <==> exists i :: 0 <= i < |fetched| && fetched[i].isDefault)
  {
    match FirstDefault(fetched)
    case Some(i) => Some(fetched[i])
    case None => if |fetched| > 0 then Some(fetched[0]) else current
  }

  /** On the default-first listing the fetch produces, the selection is simply the head of the list,
      and it is a default address exactly when the user has one. */
  lemma SelectedIsListingHead<T>(current: Option<OwnedRows.Row<T>>, table: seq<OwnedRows.Row<T>>,
                                 owner: OwnedRows.Id)
    requires OwnedRows.Listing(table, owner) != []
    ensures SelectAddress(current, OwnedRows.Listing(table, owner)) == Some(OwnedRows.Listing(table, owner)[0])
    ensures SelectAddress(current, OwnedRows.Listing(table, owner)).value.userId == owner
    ensures SelectAddress(current, OwnedRows.Listing(table, owner)).value.isDefault <==>
      exists k :: 0 <= k < |table| && table[k].userId == owner && table[k].isDefault
  {
    var owned := OwnedRows.OwnedBy(table, owner);
    var listing := OwnedRows.Listing(table, owner);
    OwnedRows.DefaultFirstSorts(owned);
    assert listing[0] in owned by {
      assert listing[0] in multiset(listing);
    }
    Seqs.FilterMembers(table, OwnedRows.OwnedRow(owner));
    if listing[0].isDefault {
      var k :| 0 <= k < |table| && table[k] == listing[0];
      assert table[k].userId == owner && table[k].isDefault;
    }
    if exists k :: 0 <= k < |table| && table[k].userId == owner && table[k].isDefault {
      var k :| 0 <= k < |table| && table[k].userId == owner && table[k].isDefault;
      OwnedRows.ListingStartsWithDefault(table, owner, k);
    }
  }

  /** A row of `order_items`. */
  datatype OrderItem = OrderItem(orderId: Id, variantId: string, quantity: int, price: int)

  /** A row of `orders`. */
  datatype Order = Order(
    id: Id,
    userId: Id,
    addressId: Id,
    totalAmount: int,
    paymentStatus: string,
    orderStatus: string,
    shippingMethod: string,
    shippingCost: int,
    paymentMethod: string)

  /** The order items written for an order: one per cart line, in the cart's order, with the line's
      variant, quantity and snapshot price. */
  function OrderItems(orderId: Id, lines: seq<Line>): (r: seq<OrderItem>)
    ensures |r| == |lines|
    ensures forall i {:trigger r[i]} :: 0 <= i < |r| ==>
      r[i].orderId == orderId && r[i].variantId == lines[i].variantId
      && r[i].quantity == lines[i].quantity && r[i].price == lines[i].priceAtTime
  {
    if lines == [] then []
    else [OrderItem(orderId, lines[0].variantId, lines[0].quantity, lines[0].priceAtTime)]
         + OrderItems(orderId, lines[1..])
  }

  /** What a list of order items is worth. */
  function ItemsTotal(items: seq<OrderItem>): int {
    if items == [] then 0 else items[0].price * items[0].quantity + ItemsTotal(items[1..])
  }

  /** The items of an order are worth exactly the cart total they were built from. */
  lemma {:induction false} ItemsTotalMatchesCart(orderId: Id, lines: seq<Line>)
    ensures ItemsTotal(OrderItems(orderId, lines)) == Total(lines)
  {
    if lines != [] {
      var r := OrderItems(orderId, lines);
      assert r[1..] == OrderItems(orderId, lines[1..]);
      ItemsTotalMatchesCart(orderId, lines[1..]);
      assert r[0].price * r[0].quantity == Amount(lines[0]);
    }
  }

  /** The order row `createOrder` inserts for a cart. */
  function NewOrder(id: Id, userId: Id, addressId: Id, lines: seq<Line>, paymentMethod: string): Order {
    var subtotal := Total(lines);
    Order(id, userId, addressId, GrandTotal(subtotal), "pending", "processing", "standard",
          Shipping(subtotal), paymentMethod)
  }

  /** The order row's total is what its items are worth plus its shipping charge, and shipping is
      charged exactly when the items are worth 500 or less; the row starts pending and processing. */
  lemma OrderAddsUp(id: Id, userId: Id, addressId: Id, lines: seq<Line>, paymentMethod: string)
    ensures NewOrder(id, userId, addressId, lines, paymentMethod).totalAmount
      == ItemsTotal(OrderItems(id, lines)) + NewOrder(id, userId, addressId, lines, paymentMethod).shippingCost
    ensures NewOrder(id, userId, addressId, lines, paymentMethod).shippingCost == 0
      <==> ItemsTotal(OrderItems(id, lines)) > 500
    ensures NewOrder(id, userId, addressId, lines, paymentMethod).paymentStatus == "pending"
    ensures NewOrder(id, userId, addressId, lines, paymentMethod).orderStatus == "processing"
  {
    ItemsTotalMatchesCart(id, lines);
  }

  predicate OrdersNumbered(orders: seq<Order>) {
    forall j :: 0 <= j < |orders| ==> orders[j].id == j
  }

  /** Every order item belongs to an order that was inserted. */
  predicate ItemsHaveOrders(items: seq<OrderItem>, orders: seq<Order>) {
    forall i :: 0 <= i < |items| ==> items[i].orderId < |orders|
  }

  /** Where the page sends a visitor when it mounts. */
  datatype EntryStep = ToSignIn | ToCart | LoadDetails

  function Entry(user: Option<string>, cartItems: seq<Line>): (r: EntryStep)
    ensures r == LoadDetails <==> user.Some? && |cartItems| > 0
    ensures r == ToSignIn <==> user.None?
  {
    if user.None? then ToSignIn else if |cartItems| == 0 then ToCart else LoadDetails
  }

  /** How `createOrder` ends: `null` without a profile or an address, a thrown error when the insert
      is refused, or the inserted order. */
  datatype Creation = NoOrder | Rejected | Created(order: Order)

  /** How placing an order ends, as the customer sees it. */
  datatype Placement =
    | AddressPrompt                              // 'Please select a delivery address'
    | PaymentFailed                              // 'Payment failed. Please try again.'
    | GatewayOpened(orderId: Id, amount: int)    // the payment window opens for this amount
    | PlacementFailed                            // 'Failed to place order. Please try again.'
    | Placed(orderId: Id)                        // on to the order-success page

  class CheckoutPage {
    const cart: CartProvider
    var addresses: seq<SavedAddress>
    var selectedAddress: Option<SavedAddress>
    var paymentMethod: string
    var loading: bool
    var userProfile: Option<Id>
    var orders: seq<Order>
    var orderItems: seq<OrderItem>

    ghost predicate Valid()
      reads this, cart
    {
      cart.Valid() && OrdersNumbered(orders) && ItemsHaveOrders(orderItems, orders)
    }

    function Subtotal(): int
      reads cart
    {
      cart.CartTotal()
    }

    constructor(cart: CartProvider, orders: seq<Order>, orderItems: seq<OrderItem>)
      requires OrdersNumbered(orders) && ItemsHaveOrders(orderItems, orders)
      requires cart.Valid()
      ensures Valid()
      ensures this.cart == cart && this.orders == orders && this.orderItems == orderItems
      ensures addresses == [] && selectedAddress.None? && paymentMethod == "razorpay"
      ensures !loading && userProfile.None?
    {
      this.cart := cart;
      this.orders := orders;
      this.orderItems := orderItems;
      addresses := [];
      selectedAddress := None;
      paymentMethod := "razorpay";
      loading := false;
      userProfile := None;
    }

    /** `fetchUserData`: look up the profile, then list its addresses default-first and select one.
        Without a profile nothing else changes. */
    method FetchUserData(addressTable: seq<SavedAddress>)
      requires Valid()
      modifies this
      ensures Valid()
      ensures userProfile == cart.Profile()
      ensures orders == old(orders) && orderItems == old(orderItems)
      ensures paymentMethod == old(paymentMethod) && loading == old(loading)
      ensures userProfile.None? ==> addresses == old(addresses) && selectedAddress == old(selectedAddress)
      ensures userProfile.Some? ==>
        && addresses == OwnedRows.Listing(addressTable, userProfile.value)
        && selectedAddress == SelectAddress(old(selectedAddress), addresses)
    {
      userProfile := cart.Profile();
      if userProfile.Some? {
        addresses := OwnedRows.Listing(addressTable, userProfile.value);
        selectedAddress := SelectAddress(selectedAddress, addresses);
      }
    }

    /** `createOrder`: insert the order row for the cart, then its items. A refused order insert
        throws; a refused items insert (`itemsOk` false) goes unnoticed. */
    method CreateOrder(orderOk: bool, itemsOk: bool) returns (created: Creation)
      requires Valid()
      modifies this
      ensures Valid()
      ensures addresses == old(addresses) && selectedAddress == old(selectedAddress)
      ensures paymentMethod == old(paymentMethod) && userProfile == old(userProfile) && loading == old(loading)
      ensures userProfile.None? || selectedAddress.None? ==>
        created == NoOrder && orders == old(orders) && orderItems == old(orderItems)
      ensures userProfile.Some? && selectedAddress.Some? && !orderOk ==>
        created == Rejected && orders == old(orders) && orderItems == old(orderItems)
      ensures userProfile.Some? && selectedAddress.Some? && orderOk ==>
        && created == Created(NewOrder(|old(orders)|, userProfile.value, selectedAddress.value.id,
                                       cart.cartItems, paymentMethod))
        && orders == old(orders) + [created.order]
        && orderItems == old(orderItems) + (if itemsOk then OrderItems(created.order.id, cart.cartItems) else [])
    {
      if userProfile.None? || selectedAddress.None? {
        return NoOrder;
      }
      if !orderOk {
        return Rejected;
      }
      var order := NewOrder(|orders|, userProfile.value, selectedAddress.value.id, cart.cartItems, paymentMethod);
      orders := orders + [order];
      if itemsOk {
        orderItems := orderItems + OrderItems(order.id, cart.cartItems);
      }
      return Created(order);
    }

    /** `handlePlaceOrder`: without a selected address only prompt; with payment method "razorpay"
        create the order and open the gateway for the order total in paise; otherwise create the
        order, mark it cash on delivery, clear the cart and go to the success page. The gateway's
        own callback is not part of this model. */
    method PlaceOrder(orderOk: bool, itemsOk: bool, markOk: bool, insertOk: bool, clearFault: Option<string>)
      returns (result: Placement)
      requires Valid()
      modifies this, cart
      ensures Valid()
      ensures old(selectedAddress).None? ==>
        result == AddressPrompt && unchanged(this) && unchanged(cart)
      ensures old(selectedAddress).Some? ==> !loading
      ensures |orders| == |old(orders)| ==> unchanged(cart)
      ensures |orders| == |old(orders)| || |orders| == |old(orders)| + 1
      ensures |orders| == |old(orders)| + 1 ==>
        orders[..|old(orders)|] == old(orders)
        && orders[|old(orders)|].totalAmount == GrandTotal(old(cart.CartTotal()))
        && orders[|old(orders)|].shippingCost == Shipping(old(cart.CartTotal()))
      ensures old(selectedAddress).Some? && old(paymentMethod) == "razorpay" ==>
        && unchanged(cart)
        && (result == PaymentFailed || result == GatewayOpened(|old(orders)|, Paise(GrandTotal(old(cart.CartTotal())))))
        && (result == PaymentFailed <==> |orders| == |old(orders)|)
      ensures old(selectedAddress).Some? && old(paymentMethod) != "razorpay" ==>
        && (result == PlacementFailed || result == Placed(|old(orders)|))
        && (result.Placed? ==>
              && |orders| == |old(orders)| + 1
              && orders[|old(orders)|].paymentMethod == (if markOk then "cod" else old(paymentMethod))
              && cart.user == old(cart.user) && cart.profiles == old(cart.profiles)
              && (old(cart.Profile()).None? ==> cart.lines == old(cart.lines) && cart.carts == old(cart.carts))
              && (old(cart.Profile()).Some? ==>
                    var owner := old(cart.Profile()).value;
                    && cart.carts == EnsureCart(old(cart.carts), owner, old(cart.nextId), insertOk)
                    && CartIndex(cart.carts, owner).Some?
                    && cart.lines == DeleteCartLines(old(cart.lines), cart.carts[CartIndex(cart.carts, owner).value].id)
                    && cart.cartItems == []))
    {
      if selectedAddress.None? {
        return AddressPrompt;
      }
      loading := true;
      var created := CreateOrder(orderOk, itemsOk);
      if paymentMethod == "razorpay" {
        if created.Created? {
          result := GatewayOpened(created.order.id, Paise(created.order.totalAmount));
        } else {
          result := PaymentFailed;
        }
      } else {
        if !created.Created? {
          result := PlacementFailed;
        } else {
          var id := created.order.id;
          if markOk {
            orders := orders[id := orders[id].(paymentStatus := "pending", paymentMethod := "cod")];
          }
          var cleared := cart.ClearCart(insertOk, clearFault);
          if cleared.Thrown? {
            result := PlacementFailed;
          } else {
            result := Placed(id);
          }
        }
      }
      loading := false;
    }
  }
}
