/**
 * The payment-success page: look up the order of the checkout session named in
 * the URL; if it is still pending, insert the confirmed booking copied from it
 * and only then mark the order paid. The result of that last update is never
 * checked, which the lemmas below make visible.
 */
module BookingSuccess {
  import opened Wrappers
  import opened Records
  import opened Store

  /** The failures the store may report: the lookup, the booking insert, the status update. */
  datatype ReconcileFaults = ReconcileFaults(selectError: bool, insertError: bool, updateError: bool)

  const NoFaults: ReconcileFaults := ReconcileFaults(false, false, false)

  /**
   * The booking realised from a paid order, under the key `id` the store generates: the
   * order's user, facility, date, time range and contact details, its amount as the
   * booking's total, and the status `confirmed`.
   */
  function ConfirmedBooking(o: Order, id: string): (b: Booking)
    ensures b.id == id && b.status == Confirmed && b.totalAmount == o.amount
    ensures b.userId == o.userId && b.facilityId == o.facilityId && b.bookingDate == o.bookingDate
    ensures b.startTime == o.startTime && b.endTime == o.endTime
    ensures b.customerEmail == o.customerEmail && b.customerPhone == o.customerPhone
  {
    Booking(id, o.userId, o.facilityId, o.bookingDate, o.startTime, o.endTime, o.amount,
            o.customerEmail, o.customerPhone, Confirmed)
  }

  /** The tables afterwards, the order shown on the page, and whether an error was reported. */
  datatype Reconciled = Reconciled(
    orders: seq<Order>, bookings: seq<Booking>, details: Option<Order>, failed: bool)

  /**
   * What one run of the reconciliation does to the two tables: no order row is added or
   * removed, at most one booking is appended after the existing ones, an error is reported
   * exactly when no order is shown, and the order shown is the one row of the session.
   */
  function Reconcile(orders: seq<Order>, bookings: seq<Booking>, sid: string,
                     f: ReconcileFaults, newBookingId: string): (r: Reconciled)
    ensures |r.orders| == |orders|
    ensures |bookings| <= |r.bookings| <= |bookings| + 1 && r.bookings[..|bookings|] == bookings
    ensures r.failed <==> r.details.None?
    ensures r.details == LookupBySession(orders, sid, f.selectError)
    ensures r.failed ==> r.orders == orders && r.bookings == bookings
  {
    var found := LookupBySession(orders, sid, f.selectError);
    if found.None? then Reconciled(orders, bookings, None, true)
    else
      var o := found.value;
      if o.status != Pending || f.insertError then Reconciled(orders, bookings, Some(o), false)
      else
        var booked := bookings + [ConfirmedBooking(o, newBookingId)];
        if f.updateError then Reconciled(orders, booked, Some(o), false)
        else Reconciled(WithStatus(orders, o.id, Paid), booked, Some(o), false)
  }

  /** A session id that matches no order, or several, writes nothing and reports an error. */
  lemma NotSingleWritesNothing(orders: seq<Order>, bookings: seq<Booking>, sid: string,
                               f: ReconcileFaults, bid: string)
    requires f.selectError || forall k :: !OnlyMatch(orders, sid, k)
    ensures Reconcile(orders, bookings, sid, f, bid) == Reconciled(orders, bookings, None, true)
  {
  }

  /** An order that is not pending (already paid) gets no booking and no update. */
  lemma NonPendingWritesNothing(orders: seq<Order>, bookings: seq<Booking>, sid: string,
                                f: ReconcileFaults, bid: string, k: nat)
    requires !f.selectError && OnlyMatch(orders, sid, k) && orders[k].status != Pending
    ensures Reconcile(orders, bookings, sid, f, bid) == Reconciled(orders, bookings, Some(orders[k]), false)
  {
  }

  /**
   * A pending order found by its session id gets exactly one booking copied from it, unless
   * the insert fails; the order becomes paid only when the booking was inserted and the update
   * went through. The page shows the row as it was read, still pending.
   */
  lemma {:induction false} PendingOrderBookedOnce(orders: seq<Order>, bookings: seq<Booking>, sid: string,
                                                  f: ReconcileFaults, bid: string, k: nat)
    requires !f.selectError && OnlyMatch(orders, sid, k) && orders[k].status == Pending
    ensures var r := Reconcile(orders, bookings, sid, f, bid);
      && r.details == Some(orders[k]) && !r.failed
      && (f.insertError ==> r.orders == orders && r.bookings == bookings)
      && (!f.insertError ==>
            && |r.bookings| == |bookings| + 1 && r.bookings[..|bookings|] == bookings
            && var b := r.bookings[|bookings|];
               && b.id == bid && b.userId == orders[k].userId && b.facilityId == orders[k].facilityId
               && b.bookingDate == orders[k].bookingDate
               && b.startTime == orders[k].startTime && b.endTime == orders[k].endTime
               && b.customerEmail == orders[k].customerEmail && b.customerPhone == orders[k].customerPhone
               && b.totalAmount == orders[k].amount && b.status == Confirmed)
      && (!f.insertError && !f.updateError ==> r.orders[k].status == Paid)
      && (f.insertError || f.updateError ==> r.orders[k].status == Pending)
  {
    var r := Reconcile(orders, bookings, sid, f, bid);
    assert SelectSingle(orders, sid) == Some(orders[k]);
    if !f.insertError {
      assert r.bookings == bookings + [ConfirmedBooking(orders[k], bid)];
    }
  }

  /**
   * With distinct order keys, a run changes at most the one matched row, and only from pending
   * to paid, and only together with inserting its booking; existing bookings stay as they were.
   */
  lemma {:induction false} OnlyMatchedRowChanges(orders: seq<Order>, bookings: seq<Booking>, sid: string,
                                                 f: ReconcileFaults, bid: string)
    requires UniqueOrderIds(orders)
    ensures var r := Reconcile(orders, bookings, sid, f, bid);
      && |r.orders| == |orders|
      && |bookings| <= |r.bookings| <= |bookings| + 1 && r.bookings[..|bookings|] == bookings
      && forall i :: 0 <= i < |orders| && r.orders[i] != orders[i] ==>
           && OnlyMatch(orders, sid, i) && orders[i].status == Pending
           && r.orders[i] == orders[i].(status := Paid)
           && r.bookings == bookings + [ConfirmedBooking(orders[i], bid)]
  {
    var r := Reconcile(orders, bookings, sid, f, bid);
    assert r.bookings[..|bookings|] == bookings by {
      if |r.bookings| > |bookings| {
        assert r.bookings == bookings + [r.bookings[|bookings|]];
      }
    }
    forall i | 0 <= i < |orders| && r.orders[i] != orders[i]
      ensures OnlyMatch(orders, sid, i) && orders[i].status == Pending
      ensures r.orders[i] == orders[i].(status := Paid)
      ensures r.bookings == bookings + [ConfirmedBooking(orders[i], bid)]
    {
      var o := LookupBySession(orders, sid, f.selectError).value;
      var k :| OnlyMatch(orders, sid, k) && orders[k] == o;
      assert orders[i].id == o.id;
      assert i == k;
    }
  }

  /** Marking the found order paid keeps it the one row of its session, now with status paid. */
  lemma FoundAgainAfterPaid(orders: seq<Order>, sid: string, k: nat)
    requires OnlyMatch(orders, sid, k)
    ensures SelectSingle(WithStatus(orders, orders[k].id, Paid), sid) == Some(orders[k].(status := Paid))
  {
    var w := WithStatus(orders, orders[k].id, Paid);
    assert forall j :: 0 <= j < |w| ==> w[j].stripeSessionId == orders[j].stripeSessionId;
    assert OnlyMatch(w, sid, k);
  }

  /**
   * Repeating a run whose booking insert and status update both succeeded (a page refresh)
   * adds no second booking and changes nothing.
   */
  lemma {:induction false} RepeatAfterPaidAddsNothing(orders: seq<Order>, bookings: seq<Booking>, sid: string,
                                                      f1: ReconcileFaults, bid1: string,
                                                      f2: ReconcileFaults, bid2: string)
    requires !f1.selectError && !f1.insertError && !f1.updateError
    ensures var r1 := Reconcile(orders, bookings, sid, f1, bid1);
            var r2 := Reconcile(r1.orders, r1.bookings, sid, f2, bid2);
            r2.orders == r1.orders && r2.bookings == r1.bookings && |r1.bookings| <= |bookings| + 1
  {
    var found := SelectSingle(orders, sid);
    if found.Some? {
      var k :| OnlyMatch(orders, sid, k) && orders[k] == found.value;
      if orders[k].status == Pending {
        FoundAgainAfterPaid(orders, sid, k);
      }
    }
  }

  /** As long as the first run's status update did not fail, two runs add at most one booking. */
  lemma {:induction false} TwoRunsAddAtMostOneBooking(orders: seq<Order>, bookings: seq<Booking>, sid: string,
                                                      f1: ReconcileFaults, bid1: string,
                                                      f2: ReconcileFaults, bid2: string)
    requires !f1.updateError
    ensures var r1 := Reconcile(orders, bookings, sid, f1, bid1);
            var r2 := Reconcile(r1.orders, r1.bookings, sid, f2, bid2);
            |bookings| <= |r2.bookings| <= |bookings| + 1
  {
    var r1 := Reconcile(orders, bookings, sid, f1, bid1);
    if !f1.selectError && !f1.insertError {
      RepeatAfterPaidAddsNothing(orders, bookings, sid, f1, bid1, f2, bid2);
    } else {
      assert r1.orders == orders && r1.bookings == bookings;
    }
  }

  /**
   * Because the update's result is never checked, a failed update leaves the order pending,
   * and a repeat run books the same order a second time.
   */
  lemma {:induction false} FailedUpdateBooksTwice(orders: seq<Order>, bookings: seq<Booking>, sid: string,
                                                  bid1: string, bid2: string, k: nat)
    requires OnlyMatch(orders, sid, k) && orders[k].status == Pending
    ensures var r1 := Reconcile(orders, bookings, sid, ReconcileFaults(false, false, true), bid1);
            var r2 := Reconcile(r1.orders, r1.bookings, sid, NoFaults, bid2);
            && r1.orders == orders
            && r2.bookings == bookings + [ConfirmedBooking(orders[k], bid1), ConfirmedBooking(orders[k], bid2)]
            && r2.orders[k].status == Paid
  {
    assert SelectSingle(orders, sid) == Some(orders[k]);
  }

  /** The success page; `sessionId` is the `session_id` query parameter. */
  class SuccessPage {
    const sessionId: Option<string>
    var orderDetails: Option<Order>
    var loading: bool
    /** The description of the error notice shown, if any. */
    var notice: Option<string>

    constructor (sessionId: Option<string>)
      ensures this.sessionId == sessionId && orderDetails.None? && loading && notice.None?
    {
      this.sessionId := sessionId;
      orderDetails := None;
      loading := true;
      notice := None;
    }

    /**
     * The effect that runs when the page mounts: without a (non-empty) session id, stop
     * loading and report the missing session without touching any table.
     */
    method OnMount(db: Database, f: ReconcileFaults, newBookingId: string)
      requires db.Valid() && !IsBookingId(db.bookings, newBookingId)
      modifies this, db
      ensures db.Valid() && !loading
      ensures sessionId.None? || sessionId == Some("") ==>
        && db.orders == old(db.orders) && db.bookings == old(db.bookings)
        && orderDetails == old(orderDetails) && notice == Some("No payment session found")
      ensures sessionId.Some? && sessionId.value != "" ==>
        var r := Reconcile(old(db.orders), old(db.bookings), sessionId.value, f, newBookingId);
        && db.orders == r.orders && db.bookings == r.bookings
        && orderDetails == (if r.details.Some? then r.details else old(orderDetails))
        && notice == (if r.failed then Some("Failed to load booking details") else old(notice))
    {
      if sessionId.Some? && sessionId.value != "" {
        FetchOrderDetails(db, f, newBookingId);
      } else {
        loading := false;
        notice := Some("No payment session found");
      }
    }

    /** Look up the order, book it if pending, then mark it paid without checking that update. */
    method FetchOrderDetails(db: Database, f: ReconcileFaults, newBookingId: string)
      requires sessionId.Some?
      requires db.Valid() && !IsBookingId(db.bookings, newBookingId)
      modifies this, db
      ensures db.Valid() && !loading
      ensures var r := Reconcile(old(db.orders), old(db.bookings), sessionId.value, f, newBookingId);
        && db.orders == r.orders && db.bookings == r.bookings
        && orderDetails == (if r.details.Some? then r.details else old(orderDetails))
        && notice == (if r.failed then Some("Failed to load booking details") else old(notice))
    {
      var data := db.SelectOrderBySession(sessionId.value, f.selectError);
      if data.None? {
        notice := Some("Failed to load booking details");
        loading := false;
        return;
      }
      var o := data.value;
      orderDetails := Some(o);
      if o.status == Pending {
        var inserted := db.InsertBooking(ConfirmedBooking(o, newBookingId), f.insertError);
        if inserted {
          db.UpdateOrderStatus(o.id, Paid, f.updateError);
        }
      }
      loading := false;
    }
  }
}
