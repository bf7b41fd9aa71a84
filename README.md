# Gaming-cafe booking pipeline: a verified model

This project models, in Dafny, the booking-to-payment-to-confirmation pipeline of a
gaming-cafe reservation web application:

- **The booking wizard** (`src/pages/Booking.tsx`). The user picks an activity, then a
  facility, then a date and time slots, then enters contact details. It also has a direct
  "Confirm Booking" path that inserts a confirmed booking without payment. The page state
  is the class `BookingFlow.BookingPage`, one field per state variable. Each UI event is a
  method that runs the source's handler behind the same rendering and click guards. A card
  that is not on screen, a facility that is not available, or a greyed-out slot ignores
  the click. The slot toggle is the pure function `Slots.Toggle` over `seq<string>`. The
  fixed slot table is the constant `Slots.TimeSlots`.
- **The checkout endpoint** (`supabase/functions/create-payment/index.ts`). It validates
  the request with JavaScript truthiness, reuses a payment-provider (Stripe) customer found
  by email, creates one checkout session with one line item, then records a `pending`
  order keyed by the session id. The provider account is the class
  `CreatePayment.StripeAccount`: its customers and the sessions created so far. The tables
  are the class `Store.Database`. `CreatePayment.Checkout` states what one request does.
  `CreatePayment.Serve` is the handler, proved to do just that.
- **Payment reconciliation** (`src/pages/BookingSuccess.tsx`). It looks up the order by
  its session id. For a `pending` order it inserts a `confirmed` booking copied from the
  order. Only if that insert succeeds does it mark the order `paid`, and it never checks
  that update. `BookingSuccess.Reconcile` states one run. The page method
  `BookingSuccess.SuccessPage.FetchOrderDetails` is proved to do just that. The lemmas
  cover repeated runs.

Amounts are integers in paise. Dates are opaque strings. Generated keys are parameters of
the methods that create rows: database uuids and Stripe session ids. Each comes with a
precondition that it is fresh, which is what the database or the provider guarantees. The
session URL the provider returns is a parameter too, with no constraint on it.
Every failure of a provider call or a store call is a parameter: an error message or a
flag. So the failure paths are explicit outcomes, including "session created but no
order stored".

The model follows the code in these places, which a reader might not expect:
- an empty `selectedSlots` array (it is truthy) and any non-zero amount, negative ones
  included, pass the checkout's required-field check;
- the success page displays the order row as it was read, still `pending`, not the row
  after the update;
- the contact step only requires non-empty email and phone (the button's `disabled`
  guard), with no further syntax check;
- the booking page shown inserts into `bookings` directly and does not call the checkout
  endpoint.

## Model

| member | source | states |
|---|---|---|
| Slots.RemoveAll | src/pages/Booking.tsx:110 | the filtered list has no occurrence of the label. Every other label keeps its count. The length drops by the label's count |
| Slots.Toggle | src/pages/Booking.tsx:107-113 | after a toggle a label is selected iff it was not before (for the toggled label) or it was before (for any other). An absent label is appended at the end after the earlier entries, unchanged. A present label disappears and the list gets shorter |
| Slots.RemoveAllAppend | src/pages/Booking.tsx:110 | removal distributes over concatenation, so the remaining labels keep their relative order |
| Slots.RemoveAllNoDuplicates | src/pages/Booking.tsx:110 | removing a label from a duplicate-free list leaves it duplicate-free |
| Slots.TogglePreservesNoDuplicates | src/pages/Booking.tsx:107-113 | toggling preserves "no duplicates" |
| Slots.ToggleLength | src/pages/Booking.tsx:107-113 | on a duplicate-free selection a toggle changes the slot count by exactly one |
| Slots.ToggleTwiceFromAbsent | src/pages/Booking.tsx:107-113 | toggling an absent label twice returns exactly the original sequence |
| Slots.ToggleTwiceFromPresent | src/pages/Booking.tsx:107-113 | toggling a present label twice moves it to the end: the other labels keep their order. On a duplicate-free list the multiset of labels is unchanged |
| Slots.SevenPmNotSelectable | src/pages/Booking.tsx:48-57 | '07:00 PM' is marked unavailable, so it is not a selectable label |
| Slots.SelectableLabel | src/pages/Booking.tsx:48-57 | a label names an available row of the slot table iff it is one of the seven labels other than '07:00 PM' |
| Slots.SelectableLabels | src/pages/Booking.tsx:48-57 | the clickable labels are exactly seven, and '07:00 PM' is not among them |
| Slots.AtMostSevenSlots | src/pages/Booking.tsx:322-330 | a duplicate-free selection made only of clickable rows holds at most seven slots |
| Store.SelectSingle | src/pages/BookingSuccess.tsx:46-52 | `.single()` yields a row iff exactly one row has that session id, and then it yields that row. Otherwise it yields an error |
| Store.Database.InsertBooking | src/pages/BookingSuccess.tsx:58-70 | a successful insert appends exactly the row. A failed one changes nothing. Keys stay distinct |
| Store.Database.InsertOrder | supabase/functions/create-payment/index.ts:101-125 | a successful insert appends exactly the row and returns it. A failed one returns the error and changes nothing |
| Store.LookupBySession | src/pages/BookingSuccess.tsx:46-52 | the lookup yields a row only if the request did not fail, and then the one row of that session. It yields nothing iff the request failed or no single row matches |
| Store.Database.SelectOrderBySession | src/pages/BookingSuccess.tsx:46-52 | the method returns what `LookupBySession` yields |
| Store.WithStatus | src/pages/BookingSuccess.tsx:76-79 | the update keeps the row count and every column except `status`. Exactly the rows with that key get the new status; the others keep theirs |
| Store.Database.UpdateOrderStatus | src/pages/BookingSuccess.tsx:76-79 | a successful update sets the status of the rows with that key. A failed one changes nothing. Bookings are untouched |
| BookingFlow.RateOf | src/pages/Booking.tsx:169 | the rate used is the selected activity's hourly rate (its fallback to 0 when the rate is 0 changes nothing), and 0 with no activity |
| BookingFlow.AmountIsPerSlotCharge | src/pages/Booking.tsx:169 | charging one hourly rate per selected slot is the slot count times the rate |
| BookingFlow.TotalAmount | src/pages/Booking.tsx:169 | the amount shown and booked is one hourly rate per selected slot. It is 0 with no activity or no slots |
| BookingFlow.WellFormed | src/pages/Booking.tsx:322-330 | in every wizard state the selection never contains '07:00 PM', the greyed-out row |
| BookingFlow.SelectionBounded | src/pages/Booking.tsx:48-57 | a wizard state selects at most seven slots, so with a non-negative rate the amount is at most seven hourly rates |
| BookingFlow.ToggleMovesAmountByOneRate | src/pages/Booking.tsx:169 | on a duplicate-free selection, one toggle moves the displayed amount by exactly one hourly rate, down or up |
| BookingFlow.BookingPage.constructor | src/pages/Booking.tsx:36-45 | the page starts at step 1 with nothing selected and empty contact fields |
| BookingFlow.BookingPage.HandleActivitySelect | src/pages/Booking.tsx:96-100 | at step 1, clicking a listed activity selects it, installs the loaded facilities (keeping the old list if loading failed) and moves to step 2. Nothing else changes. Step stays in 1..4 |
| BookingFlow.BookingPage.HandleFacilitySelect | src/pages/Booking.tsx:269 | at step 2, only an `is_available` facility is selected, moving to step 3. Any other click changes nothing |
| BookingFlow.BookingPage.SelectDate | src/pages/Booking.tsx:310-316 | at step 3 the calendar sets or clears the date and nothing else |
| BookingFlow.BookingPage.HandleSlotToggle | src/pages/Booking.tsx:322-330 | at step 3 a click on an available row toggles its label. A greyed-out row does nothing. The selection stays duplicate-free and within the available labels, so '07:00 PM' never enters it |
| BookingFlow.BookingPage.ContinueToPayment | src/pages/Booking.tsx:345-362 | step 3 moves to step 4 only with a non-empty selection |
| BookingFlow.BookingPage.Back | src/pages/Booking.tsx:182 | back subtracts 1 only when step > 1 and keeps every selection. At step 1 it leaves the page |
| BookingFlow.BookingPage.SetCustomerEmail | src/pages/Booking.tsx:386-393 | at step 4 the email field changes the email and nothing else |
| BookingFlow.BookingPage.SetCustomerPhone | src/pages/Booking.tsx:401-408 | at step 4 the phone field changes the phone and nothing else |
| BookingFlow.BookingPage.HandleBooking | src/pages/Booking.tsx:115-161 | no selection ever changes. With no email or phone the button is disabled. With no user, facility or date, or no slots, nothing is inserted (at step 4 only a missing user or date can trigger this). Otherwise exactly one booking is inserted: first-selected slot as start, last-selected as end, the computed amount, status 'confirmed'. A failed insert writes nothing |
| BookingFlow.BookedRangeFollowsClickOrder | src/pages/Booking.tsx:136-137 | start/end follow click order, not table order. Clicking two new labels appends them in that order after the earlier ones, so the last clicked is the end time, and from an empty selection the first clicked is the start time (06:00 PM then 05:00 PM books 06:00 PM to 05:00 PM) |
| CreatePayment.Validate | supabase/functions/create-payment/index.ts:42-46 | a request passes iff all ten required fields are truthy: non-empty strings, a non-zero amount, and any slot array, empty included. The validated fields are the request's own. `userId` is optional |
| CreatePayment.EmptySlotListPasses | supabase/functions/create-payment/index.ts:42-46 | an empty slot array is truthy: with every other field truthy the request passes with no slots |
| CreatePayment.EmptyTextFails | supabase/functions/create-payment/index.ts:42-46 | an empty string is falsy: an empty email alone fails the check |
| CreatePayment.ZeroAmountFails | supabase/functions/create-payment/index.ts:42-46 | zero is falsy: a zero amount alone fails the check |
| CreatePayment.MetadataUser | supabase/functions/create-payment/index.ts:94 | the metadata always names a user: "guest" iff no truthy user id was supplied (or it is "guest"), otherwise the supplied id |
| CreatePayment.OrderUser | supabase/functions/create-payment/index.ts:104 | the order's `user_id` is null iff the user id is absent or empty, otherwise it is the supplied id |
| CreatePayment.BookingLineItem | supabase/functions/create-payment/index.ts:71-83 | the one line item charges the whole amount once, in "inr" |
| CreatePayment.CustomerIdFor | supabase/functions/create-payment/index.ts:56-65 | no customer id iff no customer has the email. Otherwise the id of the first customer listed with that email |
| CreatePayment.FindCustomer | supabase/functions/create-payment/index.ts:56-65 | returns no customer iff none has the email. Otherwise it returns the first one listed with that email |
| CreatePayment.StripeAccount.ListCustomers | supabase/functions/create-payment/index.ts:56-59 | the limit-1 list holds the first customer with the email, or is empty iff none exists. A failed call returns its error |
| CreatePayment.StripeAccount.CreateSession | supabase/functions/create-payment/index.ts:68-96 | a successful call records exactly one new session with the given parameters. A failed one records none |
| CreatePayment.SessionParamsFor | supabase/functions/create-payment/index.ts:68-96 | exactly one line item: quantity 1, `unit_amount` = total amount, currency "inr". A found customer id is reused and `customer_email` omitted, otherwise the email is set. Metadata `userId` is "guest" when no user id is supplied |
| CreatePayment.PendingOrder | supabase/functions/create-payment/index.ts:103-118 | the order carries the session id, amount = total amount, currency "inr", status "pending" and the request's booking fields verbatim. `user_id` is null iff `userId` is absent or empty |
| CreatePayment.Checkout | supabase/functions/create-payment/index.ts:10-147 | every response is a 200 or a 500 with an error body. A request adds at most one session, with the new session id, and at most one order, keeping the earlier ones. An order is added only with a session and only for a 200 |
| CreatePayment.PreflightHasNoEffect | supabase/functions/create-payment/index.ts:12-14 | an OPTIONS request returns only the CORS response and touches neither the provider nor the order table |
| CreatePayment.MissingFieldRejected | supabase/functions/create-payment/index.ts:42-46 | any falsy required field gives a 500 "Missing required booking information", with no session and no order |
| CreatePayment.ProviderFailureWritesNoOrder | supabase/functions/create-payment/index.ts:138-146 | when the customer lookup or the session creation fails, the response is a 500 with the provider's message. No session and no order are created |
| CreatePayment.OrderOnlyWithItsSession | supabase/functions/create-payment/index.ts:101-136 | each request creates at most one session and one order, and an order only with its session. The order is the pending order for that session. The 200 response carries the session's url and id and the order id, and a 200 (other than preflight) occurs iff an order was stored |
| CreatePayment.FailedInsertOrphansSession | supabase/functions/create-payment/index.ts:122-125 | if the order insert fails, the response is a 500 although exactly one session was created, and no order refers to that session |
| CreatePayment.CheckoutKeepsOrdersBacked | supabase/functions/create-payment/index.ts:68-118 | every order names a provider session charging exactly its amount, and no two orders share a session. Every request keeps this |
| CreatePayment.Serve | supabase/functions/create-payment/index.ts:10-147 | the handler's response, sessions and orders are exactly those of `Checkout`. Customers and bookings are unchanged. If every order was backed by a session charging its amount before the request, that still holds after it |
| BookingSuccess.ConfirmedBooking | src/pages/BookingSuccess.tsx:60-70 | the booking copies the order's user, facility, date, time range and contact details, takes its amount as the total, and is 'confirmed' |
| BookingSuccess.Reconcile | src/pages/BookingSuccess.tsx:44-93 | a run adds or removes no order row and appends at most one booking after the existing ones. The order shown is the lookup's result, and an error is reported iff none is shown, in which case nothing is written |
| BookingSuccess.NotSingleWritesNothing | src/pages/BookingSuccess.tsx:46-52 | a lookup that does not match exactly one order (or fails) writes nothing and reports an error |
| BookingSuccess.NonPendingWritesNothing | src/pages/BookingSuccess.tsx:57 | for a found order that is not 'pending', no booking is inserted and no order updated |
| BookingSuccess.PendingOrderBookedOnce | src/pages/BookingSuccess.tsx:54-80 | a pending order gets exactly one booking copied from it (user, facility, date, start/end, contact, `total_amount` = amount, 'confirmed'). It becomes 'paid' only if that insert and the update succeed, and stays 'pending' otherwise. The page shows the row as read |
| BookingSuccess.OnlyMatchedRowChanges | src/pages/BookingSuccess.tsx:76-79 | with distinct order keys only the matched row can change, pending to paid, and only with its booking inserted. Existing bookings are untouched |
| BookingSuccess.FoundAgainAfterPaid | src/pages/BookingSuccess.tsx:76-79 | marking the found order paid keeps it the one row of its session, now with status 'paid', so the lookup finds it again |
| BookingSuccess.RepeatAfterPaidAddsNothing | src/pages/BookingSuccess.tsx:57 | after a run whose insert and update succeeded, a second run with the same session id adds no booking and changes nothing |
| BookingSuccess.TwoRunsAddAtMostOneBooking | src/pages/BookingSuccess.tsx:57-80 | if the first run's update went through, two runs add at most one booking |
| BookingSuccess.FailedUpdateBooksTwice | src/pages/BookingSuccess.tsx:76-79 | because the update result is unchecked, a failed update leaves the order pending and a repeat run adds a second booking for the same order |
| BookingSuccess.SuccessPage.constructor | src/pages/BookingSuccess.tsx:27-29 | the page starts loading, with no details and no notice |
| BookingSuccess.SuccessPage.OnMount | src/pages/BookingSuccess.tsx:31-42 | with no (or an empty) `session_id`, no table is read or written, loading ends and "No payment session found" is reported. Otherwise the page runs the reconciliation |
| BookingSuccess.SuccessPage.FetchOrderDetails | src/pages/BookingSuccess.tsx:44-93 | the tables, the displayed order and the error notice afterwards are exactly those of `Reconcile`. Loading ends |
| Pipeline.ReconcileKeepsOrdersBacked | src/pages/BookingSuccess.tsx:76-79 | a reconciliation touches only order statuses, so every order stays backed by a session charging its amount and no two orders share a session; with `CheckoutKeepsOrdersBacked` the invariant holds across the checkout endpoint and the success page |
| Pipeline.CheckoutThenReconcileBooksTheAmount | supabase/functions/create-payment/index.ts:101-136 | after a successful checkout, reconciling its session id finds the new order, books it once for the charged amount with status 'confirmed', and marks it 'paid' |

## Left out

- Loading activities and facilities (`loadActivities`, `loadFacilities`) is a network fetch. Its results are inputs: the constructor's activity list and the `loaded` parameter of `HandleActivitySelect`.
- Clock and locale: `toISOString().split('T')`, the calendar's `date < new Date()` guard and `toLocaleDateString` are not modelled. Dates are opaque strings, so past dates are not excluded.
- `formatPrice` (`price / 100`) is display-only floating point.
- Toasts, `navigate` and console logging are I/O. A toast is modelled only as the outcome or the notice text it carries, and navigation as an outcome or a flag.
- The response's CORS header values, `Deno.env`, client construction, and parsing of the JSON body are plumbing. A body that fails to parse is not modelled.
- The request fields have fixed JSON types: strings, an integer and a string array. A field of another JSON type (a string amount, `NaN`) is not modelled, and a fractional amount cannot be represented.
- Stripe's own validation of the line item (`unit_amount` a non-negative integer at least the minimum charge) is not modelled. Such a rejection appears only as some `sessionError`; with no faults, `Checkout` creates a session and a pending order even for a negative amount.
- Errors that are not `Error` instances ("Unknown error occurred") are not modelled. Every provider and store failure carries a message.
- The `async` handlers are treated as atomic: other events that arrive during an `await` are not modelled. So `loading` is false between events.
- Two reconciliations running at the same time for one session are a concurrency race and are not modelled. Only sequential runs are.
- The `created_at`/`updated_at` columns, the `profiles` table and null values in `status` or `currency` are not modelled. This core never writes those nulls.
- A null `is_available` on a facility is modelled as `false`: the page treats the two alike (the `is_available &&` click guard and the `disabled` flag).
- The reconciliation runs in the user's browser and writes through the client-side store connection, so `Pipeline.ReconcileKeepsOrdersBacked` covers only the success page's own writes; nothing on the server enforces the invariant against other clients.
- Stripe's ordering of the customer list is left to the provider: `FindCustomer` returns the first customer in the account's list order.
- Rendering the success page (the markup from `src/pages/BookingSuccess.tsx:95-255`) is display only.
