/**
 * The order confirmation page: which screen it shows, and the order number and payment labels.
 */
module OrderSuccess {
  import opened Wrappers
  import opened Text

  /** The columns of `orders` the page shows. */
  datatype OrderRecord = OrderRecord(id: string, totalAmount: int, paymentStatus: string, paymentMethod: string)

  /** `"#" + id.slice(0, 8).toUpperCase()`. */
  function OrderNumber(id: string): (r: string)
    ensures |r| == 1 + (if |id| < 8 then |id| else 8) && r[0] == '#'
    ensures forall i :: 1 <= i < |r| ==> !IsAsciiLower(r[i])
    ensures forall i :: 1 <= i < |r| && !IsAsciiLower(id[i - 1]) ==> r[i] == id[i - 1]
    ensures forall i :: 1 <= i < |r| && IsAsciiLower(id[i - 1]) ==> r[i] as int == id[i - 1] as int - 32
  {
    "#" + ToUpper(Take(id, 8))
  }

  /** Only the first eight characters count: ids that agree on them get the same number. */
  lemma SharedPrefixSameNumber(a: string, b: string)
    requires |a| >= 8 && |b| >= 8 && a[..8] == b[..8]
    ensures OrderNumber(a) == OrderNumber(b)
  {
    assert Take(a, 8) == Take(b, 8);
  }

  /** Upper-casing an id first changes nothing. */
  lemma NumberIgnoresCase(id: string)
    ensures OrderNumber(ToUpper(id)) == OrderNumber(id)
  {
    assert Take(ToUpper(id), 8) == ToUpper(Take(id, 8));
    var u := ToUpper(Take(id, 8));
    assert ToUpper(u) == u;
  }

  /** "Cash on Delivery" only for "cod". */
  function PaymentMethodLabel(paymentMethod: string): (r: string)
    ensures r == "Cash on Delivery" <==> paymentMethod == "cod"
    ensures r == "Online Payment" <==> paymentMethod != "cod"
  {
    if paymentMethod == "cod" then "Cash on Delivery" else "Online Payment"
  }

  /** "Paid" only for a completed payment. */
  function PaymentStatusLabel(paymentStatus: string): (r: string)
    ensures r == "Paid" <==> paymentStatus == "completed"
    ensures r == "Pending" <==> paymentStatus != "completed"
  {
    if paymentStatus == "completed" then "Paid" else "Pending"
  }

  /** What the page shows. */
  datatype Screen = Loading | NotFound | Details(number: string, total: int, paymentLabel: string, statusLabel: string)

  /** The order is fetched only when the route carries an id; without one the page stays on its
      spinner. A fetch that finds nothing shows "Order not found". */
  function PageFor(orderId: Option<string>, fetched: Option<OrderRecord>): (s: Screen)
    ensures s == Loading <==> orderId.None?
    ensures s == NotFound <==> orderId.Some? && fetched.None?
    ensures s.Details? ==>
      && s.number == OrderNumber(fetched.value.id)
      && s.total == fetched.value.totalAmount
      && s.paymentLabel == PaymentMethodLabel(fetched.value.paymentMethod)
      && s.statusLabel == PaymentStatusLabel(fetched.value.paymentStatus)
  {
    if orderId.None? then Loading
    else if fetched.None? then NotFound
    else
      var o := fetched.value;
      Details(OrderNumber(o.id), o.totalAmount, PaymentMethodLabel(o.paymentMethod), PaymentStatusLabel(o.paymentStatus))
  }
}
