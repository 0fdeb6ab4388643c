# Online ticket marketplace: booking and payment rules

This project models the business rules inside the route handlers of the
ticket marketplace server (`index.js`). Vendors list transport tickets, admins
moderate them, customers book them, vendors accept or reject the bookings,
and accepted bookings are paid through a hosted checkout.

The MongoDB collections become fields of a `Marketplace.Store` object:
- `tickets` is a map from id to `Ticket`. A counter stands for fresh object ids.
- `bookings` and `payments` are sequences. The handlers never delete from them, so a booking's id is its position.
- `users` is a map from email to `User`. Every user update in the source is `updateOne({email})`.

Each mutating handler is a method of the store. It answers with an `Outcome`
(`Ok`, `NotFound`, `BadRequest`, `Forbidden`), the HTTP status it sends.
The contract of each method gives the whole new state of the tables it may
modify, and its `modifies` clause frames everything else. These inputs are
plain parameters:
- the caller's email, already verified by the identity provider;
- the current time, as an integer;
- the client URL;
- the checkout session retrieved from the payment gateway.

Modules:
- `Types`: the records and status enumerations.
- `Inventory`: the quantity check and decrement of booking creation, and what a run of bookings against one ticket does to it.
- `Tickets`: the `$set` of a ticket update, hiding a fraudulent seller's tickets, and the approved-only listings.
- `Payments`: lookup and counting of payments by transaction id, and the uniqueness invariant.
- `Revenue`: the vendor revenue overview as recursive filters and folds, proved equal to a per-booking reference sum, and how each booking handler moves the totals.
- `Checkout`: the request body, the session parameters sent to the gateway, and the departure-time test.
- `Marketplace`: the store class and its handlers.
- `Scenarios`: client methods that chain the handlers. One confirms a payment twice. One walks a booking from creation to payment. One rejects a booking and then marks its seller as fraud.

The model keeps the code's behaviour even where it is looser than a strict booking lifecycle:
- Accept and reject do not look at the booking's current status. A paid booking can be set back to accepted or rejected.
- Reject does not return the reserved quantity to the ticket.
- The payment handler does not check that the booking is accepted, nor that it is already paid. A second session with a different payment intent for a paid booking records a second payment, so a paid booking can have more than one payment.
- The payment's `title` is the booking's `title` field from the booking request body. It is not the snapshotted `ticketTitle`.
- The checkout line item takes its price, title and quantity from the checkout request body, and the session's customer email is the body's `userEmail`. None of them comes from the booking.
- A booking with no departure time passes the departure check. Comparing a date with an invalid date is false.
- The booking quantity is not checked to be positive. A negative quantity passes the check and the `$inc` then raises the ticket's quantity; a zero quantity leaves it unchanged. `Inventory.Reserve` keeps this.
- `POST /tickets` stores the seller email sent in the body. It does not use the caller's email.
- `PATCH /ticket/:id` may `$set` any field once the seller check passes, including `status`, the seller email and the quantity.
- The admin approve, reject and advertise routes answer Ok for an id that matches no ticket, and change nothing.
- Checkout and ticket creation do not read the caller's email, so those methods take no caller.
- Booking creation does not look at the ticket's moderation status. A pending, rejected or hidden ticket can still be booked by its id.
- After the fraud action the seller can still `$set` a hidden ticket's `status` back to approved through `PATCH /ticket/:id`. `Tickets.HideSellerDelists` is only about the listings right after the fraud action.
- Remaining quantities are integers that can be negative: `POST /tickets` stores whatever `ticket_quantity` the body sends, and the patch route can `$set` any value. The booking handler keeps a non-negative quantity non-negative.

Amounts are integer cents. The line item's unit amount is `price * 100`, with `price` in whole currency units. A payment's `amount` keeps the gateway's `amount_total` in cents and does not divide it by 100.

## Model

| member | source | states |
|---|---|---|
| Inventory.Reserve | index.js:218-220 | a request is refused exactly when it asks for more than remains; otherwise the remaining quantity drops by exactly the requested quantity and stays non-negative if it was |
| Inventory.ReserveAllNonNegative | index.js:218-220 | over any run of booking requests against one ticket, a remaining quantity that starts non-negative never goes negative |
| Inventory.ReserveAllTakesGranted | index.js:218-220 | over any run of booking requests, the remaining quantity drops by exactly the sum of the granted quantities |
| Types.IsAdmin | index.js:57-62 | the admin guard passes exactly when the caller has a user record whose role is admin |
| Tickets.ApplyPatch | index.js:182 | `$set` takes the fields the body names, including seller email, quantity and status, and keeps the ticket's value for the others |
| Tickets.PatchIdempotent | index.js:182 | applying the same update twice equals applying it once; an update that names no field changes nothing |
| Tickets.HideSeller | index.js:111 | every ticket of the given seller has its status set to hidden and keeps all other fields, every other ticket is unchanged, and no ticket is added or removed |
| Tickets.ApprovedIds | index.js:202 | the public ticket listing holds exactly the tickets whose status is approved |
| Tickets.AdvertisedIds | index.js:151 | the advertised listing holds exactly the approved tickets with the advertise flag set, a subset of the approved listing |
| Tickets.ApprovedTicket | index.js:208-209 | a ticket's detail is found exactly when the ticket exists and is approved; otherwise the result is a 404 |
| Tickets.HideSellerDelists | index.js:108-113 | after the fraud action a ticket is in the approved and advertised listings exactly when it was before and its seller is someone else |
| Payments.HasTransaction | index.js:353-355 | the transaction-id lookup finds a document exactly when some recorded payment carries that id |
| Payments.CountZeroIffAbsent | index.js:353-358 | the transaction-id lookup finds nothing exactly when no payment carries that id |
| Payments.CountAppend | index.js:367 | inserting a payment adds one to the count of its own transaction id and leaves every other count unchanged |
| Payments.UniqueCountAtMostOne | index.js:352-374 | when transaction ids are unique, no id has more than one payment |
| Payments.UniqueAppend | index.js:357-367 | inserting only when the lookup found nothing keeps transaction ids unique |
| Revenue.SoldBookings | index.js:284 | the sold-bookings query holds a booking exactly when it is one of the vendor's accepted or paid bookings, and has no more bookings than its input |
| Revenue.PaidBookings | index.js:288 | the paid filter holds a booking exactly when it is a paid booking of its input |
| Revenue.SoldQuantity | index.js:284-285 | the quantity reduce over the sold bookings equals the per-booking sum of quantities over the vendor's accepted or paid bookings |
| Revenue.SoldRevenue | index.js:288-289 | the revenue reduce over the paid sold bookings equals the per-booking sum of unit price times quantity over the vendor's paid bookings only |
| Revenue.RevenueOverview | index.js:276-295 | totalTicketsSold is the quantity summed over the vendor's accepted or paid bookings; totalRevenue is unit price times quantity summed over the vendor's paid bookings only; totalTicketsAdded is at most the number of tickets |
| Revenue.TicketsAddedInsert | index.js:281 | inserting a ticket under a fresh id adds one to its seller's count of tickets added and leaves every other vendor's count unchanged |
| Revenue.NewBookingCountsNothing | index.js:284-289 | appending a new pending booking changes neither totalTicketsSold nor totalRevenue |
| Revenue.AcceptCountsSold | index.js:284-289 | accepting a pending booking raises its seller's totalTicketsSold by its quantity and leaves totalRevenue unchanged |
| Revenue.PaymentEarns | index.js:284-289 | marking an accepted booking paid leaves totalTicketsSold unchanged and raises totalRevenue by unit price times quantity |
| Revenue.OtherVendorUnaffected | index.js:284-289 | a status change on another vendor's booking leaves this vendor's overview unchanged |
| Checkout.DeparturePassed | index.js:311 | a missing departure time never counts as passed; a present one has passed exactly when it is before now |
| Checkout.SessionParamsFor | index.js:313-328 | the session has one card line item in usd with unit amount price*100 and the request's quantity, the request's customer email and metadata bookingId |
| Marketplace.NewBooking | index.js:222-230 | a new booking is pending, belongs to the caller, copies the ticket's title, price and seller email at booking time, keeps the request's ticket id, quantity, title and departure time, and is stamped with the current time |
| Marketplace.Store.CreateTicket | index.js:158-164 | the body is inserted under a fresh id with status pending and not advertised; no other ticket changes |
| Marketplace.Store.UpdateTicket | index.js:173-184 | a missing ticket gives NotFound and a caller who is not the seller gives Forbidden, both with no change; otherwise only that ticket is patched |
| Marketplace.Store.DeleteTicket | index.js:186-196 | a missing ticket gives NotFound and a caller who is not the seller gives Forbidden, both with no change; otherwise only that ticket is removed |
| Marketplace.Store.ModerateTicket | index.js:123-133 | a caller who is not an admin gives Forbidden with no change; an admin gets Ok and only that ticket's status becomes approved or rejected, if it exists |
| Marketplace.Store.SetAdvertise | index.js:143-148 | a caller who is not an admin gives Forbidden with no change; an admin gets Ok and only that ticket's advertise flag is set, if it exists |
| Marketplace.Store.MarkFraud | index.js:108-113 | a caller who is not an admin gives Forbidden with no change; otherwise the user's role becomes fraud, if the user exists, and every ticket of that seller is hidden |
| Marketplace.Store.CreateBooking | index.js:214-234 | a missing ticket gives NotFound and a quantity above the remaining one gives BadRequest, both with no change; otherwise only that ticket's quantity drops by the requested quantity and one pending snapshot booking is appended |
| Marketplace.Store.Decide | index.js:251-272 | a missing booking gives NotFound and a caller who is not its seller gives Forbidden, both with no change; otherwise only that booking's status becomes accepted or rejected, and tickets and payments are untouched |
| Marketplace.Store.StartCheckout | index.js:305-331 | a session is produced exactly when the booking exists, is accepted and its departure time is not before now; its line item has unit amount price*100, the given quantity and metadata bookingId; no table changes |
| Marketplace.Store.ConfirmPayment | index.js:333-382 | a missing booking gives NotFound and records nothing; a known transaction id changes nothing; otherwise one payment is appended and the booking becomes paid; on Ok exactly one payment has that transaction id |
| Scenarios.ConfirmTwice | index.js:352-374 | confirming one session twice appends exactly one payment, built from the booking and the first call's time, and marks the booking paid; the second call changes nothing |

## Left out

- Express setup, CORS, dotenv and `app.listen` (index.js:1-17, 415-417) are plumbing.
- Firebase initialisation and `verifyJWT` (index.js:22-37) call the identity provider. The verified email is a parameter.
- The MongoDB client, `ObjectId` parsing and the sort orders of the listings (index.js:42-52) are replaced by maps and sequences. The listings are sets of ids.
- Tickets.AdvertisedIds: the `.limit(10)` of the advertised listing (index.js:151) depends on the database's order. `Tickets.AdvertisedIds` returns every candidate.
- The gateway's `sessions.create` and `sessions.retrieve` (index.js:313, 338) are external. `StartCheckout` returns the parameters it would pass. `ConfirmPayment` takes the retrieved session as a value.
- The returned `session.url` is the gateway's and is not modelled.
- The float arithmetic of `price * 100` and `amount_total / 100` (index.js:318, 362) is kept in integer cents.
- The race between the quantity check and the `$inc` in booking creation (index.js:218-220) is a concurrency issue. So is the race between the payment lookup and insert (index.js:353-367). The model runs one handler at a time, so it does not express either.
- `new Date()` timestamps are an integer `now` parameter.
- `console.log` and the 500 paths of the catch blocks are not modelled.
- An unparseable `ObjectId` throws. This is not modelled. Only `/payment-success` builds its `ObjectId` inside a `try` (index.js:334-346); the booking, accept, reject, checkout, ticket update and delete, and admin routes have no catch block around it.
- `POST /user`, `GET /user/role`, `make-admin` and `make-vendor` (index.js:67-106) only maintain the users table outside the booking and payment rules. The store starts from a given users table.
- The read listings `/my-tickets`, `/my-bookings`, `/vendor/bookings`, `/transactions`, `/admin/users`, `/admin/tickets` and `/admin/advertise-tickets` read without changing anything and are not modelled.
- Fields of the request bodies that no handler reads back (images, routes, transport type) are not part of the records.
- Revenue.RevenueOverview: its contract only bounds `totalTicketsAdded` by the size of the tickets table. `Revenue.TicketsAddedInsert` states how a ticket insert moves it.
- Numbers in request bodies are assumed to be JSON integers. The source never validates them, so these paths are not modelled:
  - a booking body without `quantity`, where `undefined > ticket_quantity` is false and the `$inc` then writes NaN, after which every later request passes the check;
  - a string quantity, which the revenue reduce would concatenate instead of add;
  - fractional quantities and prices.
- Ticket documents are assumed to carry `seller.email`, since `POST /tickets` stores any body. For a ticket without `seller`, booking creation throws at index.js:227 after the `$inc` at index.js:220 has already taken the quantity, and no booking is inserted. The update and delete routes throw at index.js:180 and index.js:192. These paths are not modelled.
