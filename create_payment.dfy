/**
 * The checkout endpoint: validate a booking request, reuse or omit the
 * provider customer, create one checkout session with one line item, then
 * record a pending order keyed by the session id. The payment provider's
 * account (its customers and the sessions created so far) is a class, the
 * order table is the store's.
 */
module CreatePayment {
  import opened Wrappers
  import opened Records
  import Store

  /** The JSON body of the request; a field the client left out is `None`. */
  datatype Payload = Payload(
    facilityId: Option<string>,
    activityName: Option<string>,
    facilityName: Option<string>,
    bookingDate: Option<string>,
    startTime: Option<string>,
    endTime: Option<string>,
    selectedSlots: Option<seq<string>>,
    totalAmount: Option<int>,
    customerEmail: Option<string>,
    customerPhone: Option<string>,
    userId: Option<string>)

  /** An incoming request: its HTTP method, and `origin` is the Origin header as it is spliced into the redirect URLs. */
  datatype HttpRequest = HttpRequest(verb: string, origin: string, body: Payload)

  /** JavaScript truthiness of a string field: present and not empty. */
  predicate TruthyText(v: Option<string>)
  {
    v.Some? && v.value != ""
  }

  /** JavaScript truthiness of a number field: present and not zero. */
  predicate TruthyAmount(v: Option<int>)
  {
    v.Some? && v.value != 0
  }

  /** A booking request whose ten required fields passed the check. */
  datatype BookingRequest = BookingRequest(
    facilityId: string,
    activityName: string,
    facilityName: string,
    bookingDate: string,
    startTime: string,
    endTime: string,
    selectedSlots: seq<string>,
    totalAmount: int,
    customerEmail: string,
    customerPhone: string,
    userId: Option<string>)

  /**
   * The required-field check: every one of the ten fields must be truthy. An array is
   * truthy even when empty, so an empty slot list passes; `userId` is optional.
   */
  function Validate(p: Payload): (r: Option<BookingRequest>)
    ensures r.Some? <==>
      && TruthyText(p.facilityId) && TruthyText(p.activityName) && TruthyText(p.facilityName)
      && TruthyText(p.bookingDate) && TruthyText(p.startTime) && TruthyText(p.endTime)
      && p.selectedSlots.Some? && TruthyAmount(p.totalAmount)
      && TruthyText(p.customerEmail) && TruthyText(p.customerPhone)
    ensures r.Some? ==>
      && r.value.facilityId == p.facilityId.value && r.value.activityName == p.activityName.value
      && r.value.facilityName == p.facilityName.value && r.value.bookingDate == p.bookingDate.value
      && r.value.startTime == p.startTime.value && r.value.endTime == p.endTime.value
      && r.value.selectedSlots == p.selectedSlots.value && r.value.totalAmount == p.totalAmount.value
      && r.value.customerEmail == p.customerEmail.value && r.value.customerPhone == p.customerPhone.value
      && r.value.userId == p.userId
      && r.value.facilityId != "" && r.value.customerEmail != "" && r.value.totalAmount != 0
  {
    if && TruthyText(p.facilityId) && TruthyText(p.activityName) && TruthyText(p.facilityName)
       && TruthyText(p.bookingDate) && TruthyText(p.startTime) && TruthyText(p.endTime)
       && p.selectedSlots.Some? && TruthyAmount(p.totalAmount)
       && TruthyText(p.customerEmail) && TruthyText(p.customerPhone)
    then
      Some(BookingRequest(
        p.facilityId.value, p.activityName.value, p.facilityName.value, p.bookingDate.value,
        p.startTime.value, p.endTime.value, p.selectedSlots.value, p.totalAmount.value,
        p.customerEmail.value, p.customerPhone.value, p.userId))
    else None
  }

  /**
   * `userId || "guest"`: the metadata always names a user, the supplied one when it is
   * truthy and "guest" otherwise.
   */
  function MetadataUser(userId: Option<string>): (u: string)
    ensures u != ""
    ensures u == "guest" <==> !TruthyText(userId) || userId == Some("guest")
    ensures u != "guest" ==> Some(u) == userId
  {
    if TruthyText(userId) then userId.value else "guest"
  }

  /** `userId || null`: the order's `user_id` is null exactly when no user id was supplied or it is empty. */
  function OrderUser(userId: Option<string>): (u: Option<string>)
    ensures u.None? <==> !TruthyText(userId)
    ensures u.Some? ==> u == userId && u.value != ""
  {
    if TruthyText(userId) then userId else None
  }

  datatype Customer = Customer(id: string, email: string)

  datatype LineItem = LineItem(
    currency: string, productName: string, productDescription: string,
    unitAmount: int, quantity: int)

  datatype Metadata = Metadata(
    facilityId: string, bookingDate: string, startTime: string, endTime: string,
    customerEmail: string, customerPhone: string, userId: string)

  /** What the handler asks the provider to create. */
  datatype SessionParams = SessionParams(
    customer: Option<string>,
    customerEmail: Option<string>,
    lineItems: seq<LineItem>,
    mode: string,
    successUrl: string,
    cancelUrl: string,
    metadata: Metadata)

  /** A checkout session as the provider records it. */
  datatype CheckoutSession = CheckoutSession(id: string, url: string, params: SessionParams)

  /** The first customer with this email, as a list call limited to one result returns it. */
  function FindCustomer(customers: seq<Customer>, email: string): (r: Option<Customer>)
    ensures r.None? <==> forall i :: 0 <= i < |customers| ==> customers[i].email != email
    ensures r.Some? ==> exists k :: 0 <= k < |customers| && customers[k] == r.value
                          && r.value.email == email
                          && forall j :: 0 <= j < k ==> customers[j].email != email
  {
    if customers == [] then None
    else if customers[0].email == email then Some(customers[0])
    else
      var r := FindCustomer(customers[1..], email);
      if r.Some? then
        var k :| 0 <= k < |customers[1..]| && customers[1..][k] == r.value
                 && forall j :: 0 <= j < k ==> customers[1..][j].email != email;
        assert customers[k + 1] == r.value;
        assert forall j :: 0 <= j < k + 1 ==> customers[j].email != email by {
          forall j | 0 <= j < k + 1 ensures customers[j].email != email {
            if j > 0 { assert customers[j] == customers[1..][j - 1]; }
          }
        }
        r
      else
        assert forall i :: 0 <= i < |customers| ==> customers[i].email != email by {
          forall i | 0 <= i < |customers| ensures customers[i].email != email {
            if i > 0 { assert customers[i] == customers[1..][i - 1]; }
          }
        }
        r
  }

  /** The one line item of a booking: the whole amount, once, in rupees (amount in paise). */
  function BookingLineItem(b: BookingRequest): (item: LineItem)
    ensures item.currency == Inr && item.quantity == 1 && item.unitAmount == b.totalAmount
    ensures item.quantity * item.unitAmount == b.totalAmount
  {
    LineItem(Inr, b.activityName + " - " + b.facilityName,
             "Gaming session on " + b.bookingDate + " from " + b.startTime + " to " + b.endTime,
             b.totalAmount, 1)
  }

  /**
   * The session request: an existing customer's id when there is one, otherwise the email;
   * one line item; redirect URLs back to the site; the booking as metadata.
   */
  function SessionParamsFor(b: BookingRequest, customerId: Option<string>, origin: string): (sp: SessionParams)
    ensures |sp.lineItems| == 1 && sp.lineItems[0].quantity == 1
    ensures sp.lineItems[0].unitAmount == b.totalAmount && sp.lineItems[0].currency == Inr
    ensures sp.customer == customerId
    ensures sp.customerEmail == (if TruthyText(customerId) then None else Some(b.customerEmail))
    ensures sp.metadata.userId == "guest" <==> !TruthyText(b.userId) || b.userId == Some("guest")
  {
    SessionParams(
      customerId,
      if TruthyText(customerId) then None else Some(b.customerEmail),
      [BookingLineItem(b)],
      "payment",
      origin + "/booking-success?session_id={CHECKOUT_SESSION_ID}",
      origin + "/booking",
      Metadata(b.facilityId, b.bookingDate, b.startTime, b.endTime,
               b.customerEmail, b.customerPhone, MetadataUser(b.userId)))
  }

  /** The pending order recorded for a created session, under the key `orderId` the store generates. */
  function PendingOrder(b: BookingRequest, sessionId: string, orderId: string): (o: Order)
    ensures o.id == orderId && o.stripeSessionId == Some(sessionId)
    ensures o.amount == b.totalAmount && o.currency == Inr && o.status == Pending
    ensures o.userId.None? <==> !TruthyText(b.userId)
    ensures o.userId.Some? ==> o.userId == b.userId
    ensures o.facilityId == Some(b.facilityId) && o.bookingDate == b.bookingDate
    ensures o.startTime == b.startTime && o.endTime == b.endTime && o.selectedSlots == b.selectedSlots
    ensures o.customerEmail == b.customerEmail && o.customerPhone == b.customerPhone
    ensures o.activityName == b.activityName && o.facilityName == b.facilityName
  {
    Order(orderId, OrderUser(b.userId), Some(b.facilityId), Some(sessionId),
          b.bookingDate, b.startTime, b.endTime, b.selectedSlots, b.totalAmount, Inr,
          b.customerEmail, b.customerPhone, b.activityName, b.facilityName, Pending)
  }

  predicate IsSessionId(sessions: seq<CheckoutSession>, id: string)
  {
    exists i :: 0 <= i < |sessions| && sessions[i].id == id
  }

  /** The session exists and charges exactly `amount` in one line item of quantity one. */
  predicate ChargesFor(sessions: seq<CheckoutSession>, id: string, amount: int)
  {
    exists i :: 0 <= i < |sessions| && sessions[i].id == id
      && |sessions[i].params.lineItems| == 1
      && sessions[i].params.lineItems[0].quantity == 1
      && sessions[i].params.lineItems[0].unitAmount == amount
  }

  /** The payment provider's account. */
  class StripeAccount {
    var customers: seq<Customer>
    var sessions: seq<CheckoutSession>

    ghost predicate Valid()
      reads this
    {
      forall i, j :: 0 <= i < j < |sessions| ==> sessions[i].id != sessions[j].id
    }

    constructor (customers: seq<Customer>)
      ensures Valid() && this.customers == customers && sessions == []
    {
      this.customers := customers;
      sessions := [];
    }

    /** `customers.list({ email, limit: 1 })`; `error` is a failed call. */
    method ListCustomers(email: string, error: Option<string>) returns (r: Result<seq<Customer>>)
      ensures error.Some? ==> r == Err(error.value)
      ensures error.None? ==> r.Ok? && |r.value| <= 1
      ensures error.None? ==> (r.value == [] <==> FindCustomer(customers, email).None?)
      ensures error.None? && r.value != [] ==> r.value[0] == FindCustomer(customers, email).value
    {
      if error.Some? {
        return Err(error.value);
      }
      var c := FindCustomer(customers, email);
      r := Ok(if c.Some? then [c.value] else []);
    }

    /** `checkout.sessions.create(params)`; the provider picks the new id and url; `error` is a failed call. */
    method CreateSession(params: SessionParams, id: string, url: string, error: Option<string>)
      returns (r: Result<CheckoutSession>)
      requires Valid() && !IsSessionId(sessions, id)
      modifies this
      ensures Valid() && customers == old(customers)
      ensures error.Some? ==> r == Err(error.value) && sessions == old(sessions)
      ensures error.None? ==> r == Ok(CheckoutSession(id, url, params))
                              && sessions == old(sessions) + [r.value]
    {
      if error.Some? {
        return Err(error.value);
      }
      var s := CheckoutSession(id, url, params);
      sessions := sessions + [s];
      r := Ok(s);
    }
  }

  /**
   * The link between the two systems that the handler keeps: every order names a session
   * of the provider that charges the order's amount, and no two orders share a session.
   */
  predicate OrdersBacked(sessions: seq<CheckoutSession>, orders: seq<Order>)
  {
    && (forall i :: 0 <= i < |orders| ==>
          orders[i].stripeSessionId.Some?
          && ChargesFor(sessions, orders[i].stripeSessionId.value, orders[i].amount))
    && (forall i, j :: 0 <= i < j < |orders| ==>
          orders[i].stripeSessionId != orders[j].stripeSessionId)
  }

  datatype ResponseBody =
    | NoBody
    | CheckoutCreated(url: string, sessionId: string, orderId: string)
    | ErrorBody(error: string)

  datatype Response = Response(status: int, body: ResponseBody)

  const MissingInformation: string := "Missing required booking information"

  /** The failures the provider and the store may report, one per call. */
  datatype CheckoutFaults = CheckoutFaults(
    listError: Option<string>, sessionError: Option<string>, orderError: Option<string>)

  /** The response and the provider's sessions and the order table after one request. */
  datatype Outcome = Outcome(resp: Response, sessions: seq<CheckoutSession>, orders: seq<Order>)

  /**
   * The id of the provider customer the handler reuses: none exactly when no customer has
   * the email, otherwise the id of the first one listed with it.
   */
  function CustomerIdFor(customers: seq<Customer>, email: string): (id: Option<string>)
    ensures id.None? <==> forall i :: 0 <= i < |customers| ==> customers[i].email != email
    ensures id.Some? ==> exists k :: 0 <= k < |customers| && customers[k].email == email
                          && customers[k].id == id.value
                          && forall j :: 0 <= j < k ==> customers[j].email != email
  {
    var c := FindCustomer(customers, email);
    if c.Some? then Some(c.value.id) else None
  }

  /**
   * What one request does, as a function of the provider's customers and sessions and of the
   * order table. `newSessionId` and `newSessionUrl` are what the provider assigns to a
   * session it creates, `newOrderId` the key the store assigns to an order.
   */
  function Checkout(customers: seq<Customer>, sessions: seq<CheckoutSession>, orders: seq<Order>,
                    req: HttpRequest, faults: CheckoutFaults,
                    newSessionId: string, newSessionUrl: string, newOrderId: string): (out: Outcome)
    ensures out.resp.status == 200 || out.resp.status == 500
    ensures out.resp.status == 500 ==> out.resp.body.ErrorBody?
    ensures |sessions| <= |out.sessions| <= |sessions| + 1 && out.sessions[..|sessions|] == sessions
    ensures |orders| <= |out.orders| <= |orders| + 1 && out.orders[..|orders|] == orders
    ensures |out.orders| > |orders| ==> |out.sessions| > |sessions| && out.resp.status == 200
    ensures |out.sessions| > |sessions| ==> out.sessions[|sessions|].id == newSessionId
  {
    if req.verb == "OPTIONS" then Outcome(Response(200, NoBody), sessions, orders)
    else
      var checked := Validate(req.body);
      if checked.None? then Outcome(Response(500, ErrorBody(MissingInformation)), sessions, orders)
      else if faults.listError.Some? then
        Outcome(Response(500, ErrorBody(faults.listError.value)), sessions, orders)
      else if faults.sessionError.Some? then
        Outcome(Response(500, ErrorBody(faults.sessionError.value)), sessions, orders)
      else
        var b := checked.value;
        var session := CheckoutSession(newSessionId, newSessionUrl,
          SessionParamsFor(b, CustomerIdFor(customers, b.customerEmail), req.origin));
        if faults.orderError.Some? then
          Outcome(Response(500, ErrorBody("Failed to create order record: " + faults.orderError.value)),
                  sessions + [session], orders)
        else
          Outcome(Response(200, CheckoutCreated(newSessionUrl, newSessionId, newOrderId)),
                  sessions + [session], orders + [PendingOrder(b, newSessionId, newOrderId)])
  }

  /** An empty slot array is truthy, so a request whose other fields are truthy passes with no slots. */
  lemma EmptySlotListPasses(p: Payload)
    requires TruthyText(p.facilityId) && TruthyText(p.activityName) && TruthyText(p.facilityName)
    requires TruthyText(p.bookingDate) && TruthyText(p.startTime) && TruthyText(p.endTime)
    requires TruthyAmount(p.totalAmount) && TruthyText(p.customerEmail) && TruthyText(p.customerPhone)
    requires p.selectedSlots == Some([])
    ensures Validate(p).Some? && Validate(p).value.selectedSlots == []
  {
  }

  /** An empty string is falsy: an empty email alone fails the check. */
  lemma EmptyTextFails(p: Payload)
    requires p.customerEmail == Some("")
    ensures Validate(p).None?
  {
  }

  /** Zero is falsy: a zero amount alone fails the check (a negative amount is truthy and passes it). */
  lemma ZeroAmountFails(p: Payload)
    requires p.totalAmount == Some(0)
    ensures Validate(p).None?
  {
  }

  /** A preflight request returns only the CORS headers and touches neither system. */
  lemma PreflightHasNoEffect(customers: seq<Customer>, sessions: seq<CheckoutSession>, orders: seq<Order>,
                             req: HttpRequest, faults: CheckoutFaults, sid: string, url: string, oid: string)
    requires req.verb == "OPTIONS"
    ensures Checkout(customers, sessions, orders, req, faults, sid, url, oid)
         == Outcome(Response(200, NoBody), sessions, orders)
  {
  }

  /** A falsy required field fails the request before any provider call or order insert. */
  lemma MissingFieldRejected(customers: seq<Customer>, sessions: seq<CheckoutSession>, orders: seq<Order>,
                             req: HttpRequest, faults: CheckoutFaults, sid: string, url: string, oid: string)
    requires req.verb != "OPTIONS"
    requires !TruthyText(req.body.facilityId) || !TruthyText(req.body.customerEmail)
          || !TruthyText(req.body.customerPhone) || !TruthyAmount(req.body.totalAmount)
          || req.body.selectedSlots.None? || !TruthyText(req.body.activityName)
          || !TruthyText(req.body.facilityName) || !TruthyText(req.body.bookingDate)
          || !TruthyText(req.body.startTime) || !TruthyText(req.body.endTime)
    ensures Checkout(customers, sessions, orders, req, faults, sid, url, oid)
         == Outcome(Response(500, ErrorBody(MissingInformation)), sessions, orders)
  {
  }

  /**
   * Each request creates at most one session and at most one order, and an order only
   * together with its session: the order then carries that session's id and the request's
   * booking, and the 200 response carries the session's url and id and the order's key.
   */
  lemma OrderOnlyWithItsSession(customers: seq<Customer>, sessions: seq<CheckoutSession>, orders: seq<Order>,
                                req: HttpRequest, faults: CheckoutFaults, sid: string, url: string, oid: string)
    ensures var out := Checkout(customers, sessions, orders, req, faults, sid, url, oid);
      && (out.sessions == sessions || (|out.sessions| == |sessions| + 1 && out.sessions[..|sessions|] == sessions))
      && (out.orders == orders || out.orders == orders + [out.orders[|orders|]])
      && (out.resp.status == 200 <==> req.verb == "OPTIONS" || out.orders != orders)
    ensures var out := Checkout(customers, sessions, orders, req, faults, sid, url, oid);
      out.orders != orders ==>
        && Validate(req.body).Some?
        && var b := Validate(req.body).value;
           && out.sessions == sessions + [CheckoutSession(sid, url,
                SessionParamsFor(b, CustomerIdFor(customers, b.customerEmail), req.origin))]
           && out.orders == orders + [PendingOrder(b, sid, oid)]
           && out.resp == Response(200, CheckoutCreated(url, sid, oid))
  {
    var out := Checkout(customers, sessions, orders, req, faults, sid, url, oid);
    if |out.sessions| != |sessions| {
      assert out.sessions[..|sessions|] == sessions;
    }
  }

  /**
   * A failed order insert after the session was created: the response is a 500 although
   * exactly one session was created, and no order is stored for it.
   */
  lemma FailedInsertOrphansSession(customers: seq<Customer>, sessions: seq<CheckoutSession>, orders: seq<Order>,
                                   req: HttpRequest, faults: CheckoutFaults, sid: string, url: string, oid: string)
    requires req.verb != "OPTIONS" && Validate(req.body).Some?
    requires faults.listError.None? && faults.sessionError.None? && faults.orderError.Some?
    requires OrdersBacked(sessions, orders) && !IsSessionId(sessions, sid)
    ensures var out := Checkout(customers, sessions, orders, req, faults, sid, url, oid);
      && out.resp == Response(500, ErrorBody("Failed to create order record: " + faults.orderError.value))
      && |out.sessions| == |sessions| + 1 && out.sessions[|sessions|].id == sid
      && out.orders == orders
      && forall i :: 0 <= i < |out.orders| ==> out.orders[i].stripeSessionId != Some(sid)
  {
    forall i | 0 <= i < |orders| ensures orders[i].stripeSessionId != Some(sid) {
      var k :| 0 <= k < |sessions| && sessions[k].id == orders[i].stripeSessionId.value
        && |sessions[k].params.lineItems| == 1
        && sessions[k].params.lineItems[0].quantity == 1
        && sessions[k].params.lineItems[0].unitAmount == orders[i].amount;
    }
  }

  /** The provider may fail either call; then neither a session nor an order is created. */
  lemma ProviderFailureWritesNoOrder(customers: seq<Customer>, sessions: seq<CheckoutSession>, orders: seq<Order>,
                                     req: HttpRequest, faults: CheckoutFaults, sid: string, url: string, oid: string)
    requires req.verb != "OPTIONS" && Validate(req.body).Some?
    requires faults.listError.Some? || faults.sessionError.Some?
    ensures var out := Checkout(customers, sessions, orders, req, faults, sid, url, oid);
      && out.resp.status == 500
      && out.resp.body == ErrorBody(if faults.listError.Some? then faults.listError.value else faults.sessionError.value)
      && out.sessions == sessions && out.orders == orders
  {
  }

  /** A request keeps every order backed by a provider session charging its amount. */
  lemma {:induction false} CheckoutKeepsOrdersBacked(
    customers: seq<Customer>, sessions: seq<CheckoutSession>, orders: seq<Order>,
    req: HttpRequest, faults: CheckoutFaults, sid: string, url: string, oid: string)
    requires OrdersBacked(sessions, orders) && !IsSessionId(sessions, sid)
    ensures var out := Checkout(customers, sessions, orders, req, faults, sid, url, oid);
      OrdersBacked(out.sessions, out.orders)
  {
    var out := Checkout(customers, sessions, orders, req, faults, sid, url, oid);
    if out.sessions != sessions {
      var s := out.sessions[|sessions|];
      assert out.sessions == sessions + [s] && s.id == sid;
      forall i | 0 <= i < |orders|
        ensures ChargesFor(out.sessions, orders[i].stripeSessionId.value, orders[i].amount)
        ensures orders[i].stripeSessionId != Some(sid)
      {
        var k :| 0 <= k < |sessions| && sessions[k].id == orders[i].stripeSessionId.value
          && |sessions[k].params.lineItems| == 1
          && sessions[k].params.lineItems[0].quantity == 1
          && sessions[k].params.lineItems[0].unitAmount == orders[i].amount;
        assert out.sessions[k] == sessions[k];
      }
      if out.orders != orders {
        var o := out.orders[|orders|];
        assert out.orders == orders + [o];
        assert o.stripeSessionId == Some(sid) && s.params.lineItems == [BookingLineItem(Validate(req.body).value)];
        assert ChargesFor(out.sessions, sid, o.amount) by {
          assert out.sessions[|sessions|] == s;
        }
      }
    }
  }

  /**
   * The request handler, proved to do what `Checkout` says and to keep both systems
   * consistent.
   */
  method Serve(req: HttpRequest, stripe: StripeAccount, db: Store.Database, faults: CheckoutFaults,
               newSessionId: string, newSessionUrl: string, newOrderId: string)
    returns (resp: Response)
    requires stripe.Valid() && db.Valid()
    requires !IsSessionId(stripe.sessions, newSessionId) && !Store.IsOrderId(db.orders, newOrderId)
    modifies stripe, db
    ensures stripe.Valid() && db.Valid()
    ensures old(OrdersBacked(stripe.sessions, db.orders)) ==> OrdersBacked(stripe.sessions, db.orders)
    ensures stripe.customers == old(stripe.customers) && db.bookings == old(db.bookings)
    ensures Outcome(resp, stripe.sessions, db.orders)
         == Checkout(old(stripe.customers), old(stripe.sessions), old(db.orders),
                     req, faults, newSessionId, newSessionUrl, newOrderId)
  {
    if OrdersBacked(stripe.sessions, db.orders) {
      CheckoutKeepsOrdersBacked(stripe.customers, stripe.sessions, db.orders,
                                req, faults, newSessionId, newSessionUrl, newOrderId);
    }
    if req.verb == "OPTIONS" {
      return Response(200, NoBody);
    }
    var checked := Validate(req.body);
    if checked.None? {
      return Response(500, ErrorBody(MissingInformation));
    }
    var b := checked.value;

    var listed := stripe.ListCustomers(b.customerEmail, faults.listError);
    if listed.Err? {
      return Response(500, ErrorBody(listed.message));
    }
    var customerId: Option<string> := None;
    if |listed.value| > 0 {
      customerId := Some(listed.value[0].id);
    }

    var params := SessionParamsFor(b, customerId, req.origin);
    var created := stripe.CreateSession(params, newSessionId, newSessionUrl, faults.sessionError);
    if created.Err? {
      return Response(500, ErrorBody(created.message));
    }
    var session := created.value;

    var order := PendingOrder(b, session.id, newOrderId);
    var inserted := db.InsertOrder(order, faults.orderError);
    if inserted.Err? {
      return Response(500, ErrorBody("Failed to create order record: " + inserted.message));
    }
    resp := Response(200, CheckoutCreated(session.url, session.id, inserted.value.id));
  }
}
