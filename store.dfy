/**
 * The two tables of the relational store that the pipeline writes, `orders` and
 * `bookings`, and the queries it runs against them.
 */
module Store {
  import opened Wrappers
  import opened Records

  /** Primary keys of `orders` are distinct. */
  predicate UniqueOrderIds(orders: seq<Order>)
  {
    forall i, j :: 0 <= i < j < |orders| ==> orders[i].id != orders[j].id
  }

  /** Primary keys of `bookings` are distinct. */
  predicate UniqueBookingIds(bookings: seq<Booking>)
  {
    forall i, j :: 0 <= i < j < |bookings| ==> bookings[i].id != bookings[j].id
  }

  predicate IsOrderId(orders: seq<Order>, id: string)
  {
    exists i :: 0 <= i < |orders| && orders[i].id == id
  }

  predicate IsBookingId(bookings: seq<Booking>, id: string)
  {
    exists i :: 0 <= i < |bookings| && bookings[i].id == id
  }

  /** Row `k` is the one and only row whose `stripe_session_id` equals `sid`. */
  predicate OnlyMatch(orders: seq<Order>, sid: string, k: int)
  {
    && 0 <= k < |orders|
    && orders[k].stripeSessionId == Some(sid)
    && forall j :: 0 <= j < |orders| && orders[j].stripeSessionId == Some(sid) ==> j == k
  }

  /** The positions of the rows whose `stripe_session_id` is `sid`, in increasing order. */
  function MatchingRows(orders: seq<Order>, sid: string): (r: seq<nat>)
    ensures forall k :: k in r <==> 0 <= k < |orders| && orders[k].stripeSessionId == Some(sid)
    ensures forall i, j :: 0 <= i < j < |r| ==> r[i] < r[j]
  {
    if orders == [] then []
    else
      var n := |orders| - 1;
      var front := MatchingRows(orders[..n], sid);
      assert |orders[..n]| == n;
      forall i | 0 <= i < |front| ensures front[i] < n {
        assert front[i] in front;
      }
      front + (if orders[n].stripeSessionId == Some(sid) then [n] else [])
  }

  /**
   * `.eq('stripe_session_id', sid).single()`: the matching row when exactly one row
   * matches, and an error (here `None`) when none or several do.
   */
  function SelectSingle(orders: seq<Order>, sid: string): (r: Option<Order>)
    ensures r.Some? ==> exists k :: OnlyMatch(orders, sid, k) && orders[k] == r.value
    ensures r.None? ==> forall k :: !OnlyMatch(orders, sid, k)
  {
    var m := MatchingRows(orders, sid);
    if |m| == 1 then
      assert m[0] in m;
      assert OnlyMatch(orders, sid, m[0]);
      Some(orders[m[0]])
    else
      assert forall k :: OnlyMatch(orders, sid, k) ==> k in m;
      assert |m| > 1 ==> m[0] in m && m[1] in m && m[0] != m[1];
      None
  }

  /**
   * The lookup `.eq('stripe_session_id', sid).single()` as the client sees it: the request
   * itself may fail (`error`), and otherwise it is `SelectSingle`.
   */
  function LookupBySession(orders: seq<Order>, sid: string, error: bool): (r: Option<Order>)
    ensures r.Some? ==> !error && exists k :: OnlyMatch(orders, sid, k) && orders[k] == r.value
    ensures r.None? <==> error || forall k :: !OnlyMatch(orders, sid, k)
  {
    if error then None else SelectSingle(orders, sid)
  }

  /**
   * `.update({ status }).eq('id', id)`: every row with that id gets the new status; no
   * other column and no other row changes, and no row is added or removed.
   */
  function WithStatus(orders: seq<Order>, id: string, status: string): (r: seq<Order>)
    ensures |r| == |orders|
    ensures forall i :: 0 <= i < |orders| ==> r[i].(status := orders[i].status) == orders[i]
    ensures forall i :: 0 <= i < |orders| ==>
      r[i].status == if orders[i].id == id then status else orders[i].status
  {
    seq(|orders|, i requires 0 <= i < |orders| =>
      if orders[i].id == id then orders[i].(status := status) else orders[i])
  }

  /** The store itself; its two fields are the current contents of the tables. */
  class Database {
    var orders: seq<Order>
    var bookings: seq<Booking>

    ghost predicate Valid()
      reads this
    {
      UniqueOrderIds(orders) && UniqueBookingIds(bookings)
    }

    constructor (orders: seq<Order>, bookings: seq<Booking>)
      requires UniqueOrderIds(orders) && UniqueBookingIds(bookings)
      ensures Valid() && this.orders == orders && this.bookings == bookings
    {
      this.orders := orders;
      this.bookings := bookings;
    }

    /** Insert one booking row under the key `b.id` the store generates; `error` is a failed write. */
    method InsertBooking(b: Booking, error: bool) returns (ok: bool)
      requires Valid() && !IsBookingId(bookings, b.id)
      modifies this
      ensures Valid() && ok == !error && orders == old(orders)
      ensures bookings == if ok then old(bookings) + [b] else old(bookings)
    {
      ok := !error;
      if ok {
        bookings := bookings + [b];
      }
    }

    /** Insert one order row under the key `o.id` the store generates; `error` is a failed write. */
    method InsertOrder(o: Order, error: Option<string>) returns (r: Result<Order>)
      requires Valid() && !IsOrderId(orders, o.id)
      modifies this
      ensures Valid() && bookings == old(bookings)
      ensures error.Some? ==> r == Err(error.value) && orders == old(orders)
      ensures error.None? ==> r == Ok(o) && orders == old(orders) + [o]
    {
      if error.Some? {
        r := Err(error.value);
      } else {
        orders := orders + [o];
        r := Ok(o);
      }
    }

    /** Look up the single order of a checkout session; `error` is a failed request. */
    method SelectOrderBySession(sid: string, error: bool) returns (r: Option<Order>)
      ensures r == LookupBySession(orders, sid, error)
    {
      r := LookupBySession(orders, sid, error);
    }

    /** Set the status of the rows with key `id`; `error` is a failed write, which leaves the table as it was. */
    method UpdateOrderStatus(id: string, status: string, error: bool)
      requires Valid()
      modifies this
      ensures Valid() && bookings == old(bookings)
      ensures orders == if error then old(orders) else WithStatus(old(orders), id, status)
    {
      if !error {
        orders := WithStatus(orders, id, status);
      }
    }
  }
}
