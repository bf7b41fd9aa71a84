/**
 * The checkout endpoint and the success page together: an order recorded by a successful checkout
 * is found by its session id on the success page and realised as one confirmed
 * booking for the amount that was charged.
 */
module Pipeline {
  import opened Wrappers
  import opened Records
  import opened Store
  import opened CreatePayment
  import opened BookingSuccess

  /**
   * The success page only changes order statuses, so the link between orders and the
   * provider's sessions that the checkout keeps survives a reconciliation as well.
   */
  lemma ReconcileKeepsOrdersBacked(sessions: seq<CheckoutSession>, orders: seq<Order>, bookings: seq<Booking>,
                                   sid: string, f: ReconcileFaults, bid: string)
    requires OrdersBacked(sessions, orders)
    ensures OrdersBacked(sessions, Reconcile(orders, bookings, sid, f, bid).orders)
  {
    var r := Reconcile(orders, bookings, sid, f, bid);
    assert forall i :: 0 <= i < |orders| ==>
      r.orders[i].stripeSessionId == orders[i].stripeSessionId && r.orders[i].amount == orders[i].amount;
  }

  /** A successful checkout followed by a reconciliation of its session books the charged amount. */
  lemma {:induction false} CheckoutThenReconcileBooksTheAmount(
    customers: seq<Customer>, sessions: seq<CheckoutSession>, orders: seq<Order>, bookings: seq<Booking>,
    req: HttpRequest, sid: string, url: string, oid: string, bid: string)
    requires OrdersBacked(sessions, orders) && !IsSessionId(sessions, sid)
    requires req.verb != "OPTIONS" && Validate(req.body).Some?
    ensures var out := Checkout(customers, sessions, orders, req, CheckoutFaults(None, None, None), sid, url, oid);
      && out.resp == Response(200, CheckoutCreated(url, sid, oid))
      && var r := Reconcile(out.orders, bookings, sid, NoFaults, bid);
         && |r.bookings| == |bookings| + 1 && r.bookings[..|bookings|] == bookings
         && r.bookings[|bookings|].totalAmount == req.body.totalAmount.value
         && r.bookings[|bookings|].status == Confirmed
         && r.bookings[|bookings|].facilityId == req.body.facilityId
         && r.orders[|orders|].status == Paid
  {
    var out := Checkout(customers, sessions, orders, req, CheckoutFaults(None, None, None), sid, url, oid);
    CheckoutKeepsOrdersBacked(customers, sessions, orders, req, CheckoutFaults(None, None, None), sid, url, oid);
    var n := |orders|;
    assert out.orders[n].stripeSessionId == Some(sid);
    assert OnlyMatch(out.orders, sid, n);
    PendingOrderBookedOnce(out.orders, bookings, sid, NoFaults, bid, n);
  }
}
