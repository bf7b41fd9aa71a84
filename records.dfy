/**
 * The rows of the tables the booking pipeline reads and writes, with only the
 * columns the pipeline touches (creation and update timestamps are left out).
 */
module Records {
  import opened Wrappers

  /** A row of `activities`; the hourly rate is in paise. */
  datatype Activity = Activity(id: string, name: string, description: string, hourlyRate: int)

  /** A row of `facilities`. */
  datatype Facility = Facility(id: string, activityId: string, name: string, isAvailable: bool)

  /** A row of `orders`: a checkout attempt waiting for its payment. */
  datatype Order = Order(
    id: string,
    userId: Option<string>,
    facilityId: Option<string>,
    stripeSessionId: Option<string>,
    bookingDate: string,
    startTime: string,
    endTime: string,
    selectedSlots: seq<string>,
    amount: int,
    currency: string,
    customerEmail: string,
    customerPhone: string,
    activityName: string,
    facilityName: string,
    status: string)

  /** A row of `bookings`: a reserved facility for a time range. */
  datatype Booking = Booking(
    id: string,
    userId: Option<string>,
    facilityId: Option<string>,
    bookingDate: string,
    startTime: string,
    endTime: string,
    totalAmount: int,
    customerEmail: string,
    customerPhone: string,
    status: string)

  const Pending: string := "pending"
  const Paid: string := "paid"
  const Confirmed: string := "confirmed"
  /** The one currency the checkout uses. */
  const Inr: string := "inr"
}
