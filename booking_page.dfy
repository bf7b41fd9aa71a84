/**
 * The four-step booking wizard: choose an activity, a facility, a date and
 * slots, then contact details, then book. The page state is a class whose
 * fields are the component's state variables; each UI event is a method that
 * performs what the source's event handler does, behind the same rendering
 * and click guards (a card that is not on screen cannot be clicked).
 */
module BookingFlow {
  import opened Wrappers
  import opened Records
  import opened Slots
  import Store

  /**
   * `selectedActivity?.hourly_rate || 0`: the rate when it is truthy, else 0. A zero rate
   * falls back to 0 as well, so this is simply the selected activity's rate.
   */
  function RateOf(activity: Option<Activity>): (rate: int)
    ensures rate == if activity.Some? then activity.value.hourlyRate else 0
  {
    if activity.Some? && activity.value.hourlyRate != 0 then activity.value.hourlyRate else 0
  }

  /**
   * Reference definition: each row of the slot table shows the price of one hourly rate,
   * and a booking costs the sum of the prices of the rows selected.
   */
  function PerSlotCharge(slots: seq<string>, rate: int): int
  {
    if slots == [] then 0 else rate + PerSlotCharge(slots[1..], rate)
  }

  /** Arithmetic helper: one more factor adds one more rate. */
  lemma MulSucc(n: int, r: int)
    ensures (n + 1) * r == n * r + r
  {
  }

  /** Charging one rate per slot is the slot count times the rate. */
  lemma {:induction false} AmountIsPerSlotCharge(slots: seq<string>, rate: int)
    ensures PerSlotCharge(slots, rate) == |slots| * rate
  {
    if slots != [] {
      AmountIsPerSlotCharge(slots[1..], rate);
      MulSucc(|slots[1..]|, rate);
    }
  }

  /**
   * `selectedSlots.length * (selectedActivity?.hourly_rate || 0)`, the amount shown and
   * booked: one hourly rate per selected slot, and nothing while no activity is selected.
   */
  function TotalAmount(slots: seq<string>, activity: Option<Activity>): (amount: int)
    ensures amount == PerSlotCharge(slots, RateOf(activity))
    ensures activity.None? || slots == [] ==> amount == 0
  {
    AmountIsPerSlotCharge(slots, RateOf(activity));
    |slots| * RateOf(activity)
  }

  /** On a selection without duplicates, one toggle moves the amount by exactly one hourly rate. */
  lemma ToggleMovesAmountByOneRate(slots: seq<string>, x: string, activity: Option<Activity>)
    requires NoDuplicates(slots)
    ensures TotalAmount(Toggle(slots, x), activity)
         == TotalAmount(slots, activity) + (if x in slots then -RateOf(activity) else RateOf(activity))
  {
    ToggleLength(slots, x);
    var t := Toggle(slots, x);
    if x in slots {
      MulSucc(|t|, RateOf(activity));
    } else {
      MulSucc(|slots|, RateOf(activity));
    }
  }

  /** The selections the page has accumulated. */
  datatype Draft = Draft(
    step: int,
    activity: Option<Activity>,
    facility: Option<Facility>,
    date: Option<string>,
    slots: seq<string>,
    email: string,
    phone: string,
    facilities: seq<Facility>)

  /**
   * What the wizard keeps true between events: the step is 1 to 4; an activity is chosen
   * from step 2 on, an available facility from step 3 on, at least one slot at step 4;
   * the selected slots are distinct, available labels of the slot table.
   */
  predicate WellFormed(d: Draft)
    ensures WellFormed(d) ==> "07:00 PM" !in d.slots
  {
    SevenPmNotSelectable();
    && 1 <= d.step <= 4
    && (d.step >= 2 ==> d.activity.Some?)
    && (d.step >= 3 ==> d.facility.Some? && d.facility.value.isAvailable)
    && (d.step == 4 ==> |d.slots| > 0)
    && NoDuplicates(d.slots)
    && (forall t :: t in d.slots ==> Selectable(t))
  }

  /**
   * A wizard state holds at most seven slots, one per available row of the table, so a
   * booking costs at most seven hourly rates.
   */
  lemma SelectionBounded(d: Draft)
    requires WellFormed(d)
    ensures |d.slots| <= 7
    ensures RateOf(d.activity) >= 0 ==> TotalAmount(d.slots, d.activity) <= 7 * RateOf(d.activity)
  {
    AtMostSevenSlots(d.slots);
    var rate := RateOf(d.activity);
    if rate >= 0 {
      assert |d.slots| * rate <= 7 * rate by {
        assert (7 - |d.slots|) * rate >= 0;
      }
    }
  }

  /** What a click on "Confirm Booking" led to. */
  datatype BookingOutcome =
    | NotShown     // the button is rendered only at step 4
    | Disabled     // the button is disabled while loading or without email and phone
    | Incomplete   // "Please complete all required fields": nothing is written
    | Booked       // the row was inserted; the page navigates to the dashboard
    | Failed       // "Failed to create booking": the insert returned an error

  class BookingPage {
    /** The signed-in user's id, if any (from the identity provider). */
    const user: Option<string>
    /** The activities loaded when the page mounted (an empty list if loading failed). */
    const activities: seq<Activity>

    var step: int
    var selectedActivity: Option<Activity>
    var selectedFacility: Option<Facility>
    var selectedDate: Option<string>
    var selectedSlots: seq<string>
    var customerEmail: string
    var customerPhone: string
    var facilities: seq<Facility>
    var loading: bool

    function State(): Draft
      reads this
    {
      Draft(step, selectedActivity, selectedFacility, selectedDate, selectedSlots,
            customerEmail, customerPhone, facilities)
    }

    ghost predicate Valid()
      reads this
    {
      WellFormed(State()) && !loading
    }

    /** The page as first rendered: step 1 and nothing selected. */
    constructor (user: Option<string>, activities: seq<Activity>)
      ensures Valid() && this.user == user && this.activities == activities
      ensures State() == Draft(1, None, None, None, [], "", "", [])
    {
      this.user := user;
      this.activities := activities;
      step := 1;
      selectedActivity := None;
      selectedFacility := None;
      selectedDate := None;
      selectedSlots := [];
      customerEmail := "";
      customerPhone := "";
      facilities := [];
      loading := false;
    }

    /**
     * A click on an activity card (shown at step 1 only): remember the activity, load its
     * facilities and move to step 2. `loaded` is what the facility query returned, `None`
     * when it failed (the old list then stays).
     */
    method HandleActivitySelect(activity: Activity, loaded: Option<seq<Facility>>)
      requires Valid()
      modifies this
      ensures Valid()
      ensures State() ==
        if old(step) == 1 && activity in activities then
          old(State()).(step := 2, activity := Some(activity),
                        facilities := if loaded.Some? then loaded.value else old(facilities))
        else old(State())
    {
      if step == 1 && activity in activities {
        selectedActivity := Some(activity);
        if loaded.Some? {
          facilities := loaded.value;
        }
        step := 2;
      }
    }

    /**
     * A click on a facility card (shown at step 2 only); a facility that is not available
     * ignores the click, an available one is selected and the wizard moves to step 3.
     */
    method HandleFacilitySelect(facility: Facility)
      requires Valid()
      modifies this
      ensures Valid()
      ensures State() ==
        if old(step) == 2 && facility in facilities && facility.isAvailable then
          old(State()).(step := 3, facility := Some(facility))
        else old(State())
    {
      if step == 2 && facility in facilities && facility.isAvailable {
        selectedFacility := Some(facility);
        step := 3;
      }
    }

    /** The calendar's selection at step 3 (`None` when the day is deselected). */
    method SelectDate(date: Option<string>)
      requires Valid()
      modifies this
      ensures Valid()
      ensures State() == if old(step) == 3 then old(State()).(date := date) else old(State())
    {
      if step == 3 {
        selectedDate := date;
      }
    }

    /**
     * A click on a row of the slot table (shown at step 3 only); a row that is not available
     * ignores the click, an available one toggles its label in the selection.
     */
    method HandleSlotToggle(slot: TimeSlot)
      requires Valid() && slot in TimeSlots
      modifies this
      ensures Valid()
      ensures State() ==
        if old(step) == 3 && slot.available then
          old(State()).(slots := Toggle(old(selectedSlots), slot.time))
        else old(State())
    {
      if step == 3 && slot.available {
        TogglePreservesNoDuplicates(selectedSlots, slot.time);
        selectedSlots := Toggle(selectedSlots, slot.time);
      }
    }

    /** "Continue to Payment", shown at step 3 only once a slot is selected. */
    method ContinueToPayment()
      requires Valid()
      modifies this
      ensures Valid()
      ensures State() ==
        if old(step) == 3 && |old(selectedSlots)| > 0 then old(State()).(step := 4) else old(State())
    {
      if step == 3 && |selectedSlots| > 0 {
        step := 4;
      }
    }

    /**
     * The back arrow: one step back, keeping every selection; at step 1 it leaves the page
     * (navigation home), and the state is untouched.
     */
    method Back() returns (leavesPage: bool)
      requires Valid()
      modifies this
      ensures Valid()
      ensures leavesPage <==> old(step) == 1
      ensures State() == if old(step) > 1 then old(State()).(step := old(step) - 1) else old(State())
    {
      leavesPage := step <= 1;
      if step > 1 {
        step := step - 1;
      }
    }

    /** Typing into the email field (shown at step 4 only). */
    method SetCustomerEmail(email: string)
      requires Valid()
      modifies this
      ensures Valid()
      ensures State() == if old(step) == 4 then old(State()).(email := email) else old(State())
    {
      if step == 4 {
        customerEmail := email;
      }
    }

    /** Typing into the phone field (shown at step 4 only). */
    method SetCustomerPhone(phone: string)
      requires Valid()
      modifies this
      ensures Valid()
      ensures State() == if old(step) == 4 then old(State()).(phone := phone) else old(State())
    {
      if step == 4 {
        customerPhone := phone;
      }
    }

    /**
     * "Confirm Booking" at step 4: with a user, facility, date and at least one slot, insert
     * one confirmed booking directly (no payment). `newBookingId` is the key the store
     * generates and `insertError` a failed insert. No selection ever changes.
     */
    method HandleBooking(db: Store.Database, newBookingId: string, insertError: bool)
      returns (outcome: BookingOutcome)
      requires Valid() && db.Valid() && !Store.IsBookingId(db.bookings, newBookingId)
      modifies this, db
      ensures Valid() && db.Valid()
      ensures State() == old(State()) && db.orders == old(db.orders)
      ensures outcome == NotShown <==> step != 4
      ensures outcome == Disabled <==> step == 4 && (customerEmail == "" || customerPhone == "")
      ensures outcome == Incomplete <==>
        && step == 4 && customerEmail != "" && customerPhone != ""
        && (user.None? || selectedFacility.None? || selectedDate.None? || |selectedSlots| == 0)
      ensures outcome == Incomplete ==> user.None? || selectedDate.None?
      ensures outcome == Failed ==> insertError
      ensures outcome == Booked ==> !insertError
      ensures outcome != Booked ==> db.bookings == old(db.bookings)
      ensures outcome == Booked ==>
        && user.Some? && selectedFacility.Some? && selectedDate.Some? && |selectedSlots| > 0
        && db.bookings == old(db.bookings) + [Booking(
             newBookingId, user, Some(selectedFacility.value.id), selectedDate.value,
             selectedSlots[0], selectedSlots[|selectedSlots| - 1],
             TotalAmount(selectedSlots, selectedActivity),
             customerEmail, customerPhone, Confirmed)]
    {
      if step != 4 {
        return NotShown;
      }
      if loading || customerEmail == "" || customerPhone == "" {
        return Disabled;
      }
      if user.None? || selectedFacility.None? || selectedDate.None? || |selectedSlots| == 0 {
        return Incomplete;
      }
      loading := true;
      var amount := TotalAmount(selectedSlots, selectedActivity);
      var row := Booking(
        newBookingId, user, Some(selectedFacility.value.id), selectedDate.value,
        selectedSlots[0], selectedSlots[|selectedSlots| - 1], amount,
        customerEmail, customerPhone, Confirmed);
      var ok := db.InsertBooking(row, insertError);
      outcome := if ok then Booked else Failed;
      loading := false;
    }
  }

  /**
   * The booked time range follows click order, not the order of the slot table: after
   * clicking two new slots, the one clicked last is the booking's end time, whatever its
   * place in the table, and from an empty selection the one clicked first is its start time.
   * So clicking 06:00 PM and then 05:00 PM books from 06:00 PM to 05:00 PM.
   */
  lemma BookedRangeFollowsClickOrder(s: seq<string>, first: string, second: string)
    requires first != second && first !in s && second !in s
    ensures var t := Toggle(Toggle(s, first), second);
      && |t| == |s| + 2 && t[..|s|] == s
      && t[|t| - 2] == first && t[|t| - 1] == second
      && (s == [] ==> t[0] == first)
  {
    var once := Toggle(s, first);
    assert once == s + [first];
    assert second !in once;
    assert Toggle(once, second) == s + [first, second];
  }
}
