/** The route handlers that change the marketplace's tables, as methods of a
    store that holds the four collections in memory. The caller's verified
    email, the current time and the gateway's session are parameters. */
module Marketplace {
  import opened Types
  import opened Inventory
  import opened Tickets
  import opened Payments
  import opened Checkout

  /** Which of the two vendor routes is taken. */
  datatype Decision = Accept | Reject

  /** Which of the two admin moderation routes is taken. */
  datatype Verdict = Approve | Disapprove

  function DecisionStatus(d: Decision): BookingStatus
  {
    match d
    case Accept => BookingStatus.Accepted
    case Reject => BookingStatus.Rejected
  }

  function VerdictStatus(v: Verdict): TicketStatus
  {
    match v
    case Approve => TicketStatus.Approved
    case Disapprove => TicketStatus.Rejected
  }

  /** The booking the booking handler inserts: the request's own fields, then
      the buyer and a snapshot of the ticket. */
  function NewBooking(caller: string, req: BookingRequest, t: Ticket, now: int): (b: Booking)
    ensures b.status == BookingStatus.Pending && b.userEmail == caller
    ensures b.ticketTitle == t.title && b.ticketUnitPrice == t.price && b.ticketSellerEmail == t.sellerEmail
    ensures b.ticketId == req.ticketId && b.quantity == req.quantity
    ensures b.title == req.title && b.departureTime == req.departureTime && b.createdAt == now
  {
    Booking(req.ticketId, req.quantity, req.title, req.departureTime,
            caller, t.title, t.price, t.sellerEmail, BookingStatus.Pending, now)
  }

  class Store {
    var tickets: map<nat, Ticket>
    /** Stands for the database's fresh object ids. */
    var nextTicketId: nat
    /** Bookings are never deleted; a booking's id is its position. */
    var bookings: seq<Booking>
    var payments: seq<Payment>
    var users: map<string, User>

    ghost predicate Valid()
      reads this
    {
      && (forall id :: id in tickets ==> id < nextTicketId)
      && UniqueTransactions(payments)
    }

    /** A store with the given users and no tickets, bookings or payments. */
    constructor (initialUsers: map<string, User>)
      ensures Valid()
      ensures tickets == map[] && bookings == [] && payments == [] && users == initialUsers
    {
      tickets := map[];
      nextTicketId := 0;
      bookings := [];
      payments := [];
      users := initialUsers;
    }

    /** POST /tickets: the body is stored as sent, except that it starts
        pending and not advertised. */
    method CreateTicket(body: Ticket) returns (id: nat)
      requires Valid()
      modifies this`tickets, this`nextTicketId
      ensures Valid()
      ensures id !in old(tickets)
      ensures tickets == old(tickets)[id := body.(status := TicketStatus.Pending, advertise := false)]
    {
      id := nextTicketId;
      tickets := tickets[id := body.(status := TicketStatus.Pending, advertise := false)];
      nextTicketId := nextTicketId + 1;
    }

    /** PATCH /ticket/:id: only the ticket's seller may update it. */
    method UpdateTicket(caller: string, id: nat, patch: TicketPatch) returns (o: Outcome)
      requires Valid()
      modifies this`tickets
      ensures Valid()
      ensures id !in old(tickets) ==> o == NotFound && tickets == old(tickets)
      ensures id in old(tickets) && old(tickets)[id].sellerEmail != caller ==>
                o == Forbidden && tickets == old(tickets)
      ensures id in old(tickets) && old(tickets)[id].sellerEmail == caller ==>
                o == Ok && tickets == old(tickets)[id := ApplyPatch(old(tickets)[id], patch)]
    {
      if id !in tickets {
        return NotFound;
      }
      if tickets[id].sellerEmail != caller {
        return Forbidden;
      }
      tickets := tickets[id := ApplyPatch(tickets[id], patch)];
      o := Ok;
    }

    /** DELETE /ticket/:id: only the ticket's seller may delete it. */
    method DeleteTicket(caller: string, id: nat) returns (o: Outcome)
      requires Valid()
      modifies this`tickets
      ensures Valid()
      ensures id !in old(tickets) ==> o == NotFound && tickets == old(tickets)
      ensures id in old(tickets) && old(tickets)[id].sellerEmail != caller ==>
                o == Forbidden && tickets == old(tickets)
      ensures id in old(tickets) && old(tickets)[id].sellerEmail == caller ==>
                o == Ok && tickets == old(tickets) - {id}
    {
      if id !in tickets {
        return NotFound;
      }
      if tickets[id].sellerEmail != caller {
        return Forbidden;
      }
      tickets := tickets - {id};
      o := Ok;
    }

    /** PATCH /admin/ticket/approve/:id and /admin/ticket/reject/:id. An
        unknown id matches nothing and still answers Ok. */
    method ModerateTicket(caller: string, id: nat, v: Verdict) returns (o: Outcome)
      requires Valid()
      modifies this`tickets
      ensures Valid()
      ensures !IsAdmin(users, caller) ==> o == Forbidden && tickets == old(tickets)
      ensures IsAdmin(users, caller) ==> o == Ok
      ensures IsAdmin(users, caller) && id !in old(tickets) ==> tickets == old(tickets)
      ensures IsAdmin(users, caller) && id in old(tickets) ==>
                tickets == old(tickets)[id := old(tickets)[id].(status := VerdictStatus(v))]
    {
      if !IsAdmin(users, caller) {
        return Forbidden;
      }
      if id in tickets {
        tickets := tickets[id := tickets[id].(status := VerdictStatus(v))];
      }
      o := Ok;
    }

    /** PATCH /admin/ticket/advertise/:id. */
    method SetAdvertise(caller: string, id: nat, advertise: bool) returns (o: Outcome)
      requires Valid()
      modifies this`tickets
      ensures Valid()
      ensures !IsAdmin(users, caller) ==> o == Forbidden && tickets == old(tickets)
      ensures IsAdmin(users, caller) ==> o == Ok
      ensures IsAdmin(users, caller) && id !in old(tickets) ==> tickets == old(tickets)
      ensures IsAdmin(users, caller) && id in old(tickets) ==>
                tickets == old(tickets)[id := old(tickets)[id].(advertise := advertise)]
    {
      if !IsAdmin(users, caller) {
        return Forbidden;
      }
      if id in tickets {
        tickets := tickets[id := tickets[id].(advertise := advertise)];
      }
      o := Ok;
    }

    /** PATCH /admin/mark-fraud/:email: the user's role becomes fraud and
        every ticket of that seller is hidden. */
    method MarkFraud(caller: string, email: string) returns (o: Outcome)
      requires Valid()
      modifies this`users, this`tickets
      ensures Valid()
      ensures !IsAdmin(old(users), caller) ==>
                o == Forbidden && users == old(users) && tickets == old(tickets)
      ensures IsAdmin(old(users), caller) ==> o == Ok && tickets == HideSeller(old(tickets), email)
      ensures IsAdmin(old(users), caller) && email in old(users) ==>
                users == old(users)[email := old(users)[email].(role := Fraud)]
      ensures IsAdmin(old(users), caller) && email !in old(users) ==> users == old(users)
    {
      if !IsAdmin(users, caller) {
        return Forbidden;
      }
      if email in users {
        users := users[email := users[email].(role := Fraud)];
      }
      tickets := HideSeller(tickets, email);
      o := Ok;
    }

    /** POST /bookings: reserve the requested quantity of the ticket and
        insert a pending booking that snapshots it. `id` is the new booking's
        id when the outcome is Ok. */
    method CreateBooking(caller: string, req: BookingRequest, now: int) returns (o: Outcome, id: nat)
      requires Valid()
      modifies this`tickets, this`bookings
      ensures Valid()
      ensures req.ticketId !in old(tickets) ==>
                o == NotFound && tickets == old(tickets) && bookings == old(bookings)
      ensures req.ticketId in old(tickets) && req.quantity > old(tickets)[req.ticketId].ticketQuantity ==>
                o == BadRequest && tickets == old(tickets) && bookings == old(bookings)
      ensures o == Ok <==>
                req.ticketId in old(tickets) && Reserve(old(tickets)[req.ticketId].ticketQuantity, req.quantity).Some?
      ensures o == Ok ==>
                var t := old(tickets)[req.ticketId];
                && tickets == old(tickets)[req.ticketId := t.(ticketQuantity := t.ticketQuantity - req.quantity)]
                && id == |old(bookings)|
                && bookings == old(bookings) + [NewBooking(caller, req, t, now)]
      ensures o == Ok && 0 <= old(tickets)[req.ticketId].ticketQuantity ==>
                0 <= tickets[req.ticketId].ticketQuantity
    {
      id := 0;
      if req.ticketId !in tickets {
        return NotFound, id;
      }
      var t := tickets[req.ticketId];
      var left := Reserve(t.ticketQuantity, req.quantity);
      if left.None? {
        return BadRequest, id;
      }
      tickets := tickets[req.ticketId := t.(ticketQuantity := left.value)];
      id := |bookings|;
      bookings := bookings + [NewBooking(caller, req, t, now)];
      o := Ok;
    }

    /** PATCH /vendor/accept/:id and /vendor/reject/:id: only the booking's
        seller may decide, whatever the booking's current status. `view` is
        the booking as re-read after the update. */
    method Decide(caller: string, id: nat, d: Decision) returns (o: Outcome, view: Option<Booking>)
      requires Valid()
      modifies this`bookings
      ensures Valid()
      ensures id >= |old(bookings)| ==> o == NotFound && view == None && bookings == old(bookings)
      ensures id < |old(bookings)| && old(bookings)[id].ticketSellerEmail != caller ==>
                o == Forbidden && view == None && bookings == old(bookings)
      ensures id < |old(bookings)| && old(bookings)[id].ticketSellerEmail == caller ==>
                && o == Ok
                && bookings == old(bookings)[id := old(bookings)[id].(status := DecisionStatus(d))]
                && view == Some(bookings[id])
    {
      if id >= |bookings| {
        return NotFound, None;
      }
      if bookings[id].ticketSellerEmail != caller {
        return Forbidden, None;
      }
      bookings := bookings[id := bookings[id].(status := DecisionStatus(d))];
      o, view := Ok, Some(bookings[id]);
    }

    /** POST /create-checkout-session: a session is opened only for an
        existing, accepted booking whose departure time has not passed, and it
        changes no table. `session` is what is passed to the gateway. */
    method StartCheckout(info: CheckoutRequest, now: int, clientUrl: string)
      returns (o: Outcome, session: Option<SessionParams>)
      ensures o == Ok <==>
                && info.bookingId < |bookings|
                && bookings[info.bookingId].status == BookingStatus.Accepted
                && !DeparturePassed(bookings[info.bookingId].departureTime, now)
      ensures o == NotFound <==> info.bookingId >= |bookings|
      ensures o != Ok && o != NotFound ==> o == BadRequest
      ensures session.Some? <==> o == Ok
      ensures session.Some? ==>
                && session.value.lineItems == [LineItem("usd", info.price * 100, info.title, [info.image], info.quantity)]
                && session.value.metadataBookingId == info.bookingId
                && session.value.customerEmail == info.userEmail
    {
      if info.bookingId >= |bookings| {
        return NotFound, None;
      }
      var b := bookings[info.bookingId];
      if b.status != BookingStatus.Accepted {
        return BadRequest, None;
      }
      if DeparturePassed(b.departureTime, now) {
        return BadRequest, None;
      }
      o, session := Ok, Some(SessionParamsFor(info, clientUrl));
    }

    /** POST /payment-success: record one payment per transaction id and mark
        the booking paid. A transaction id already recorded changes nothing. */
    method ConfirmPayment(s: GatewaySession, now: int) returns (o: Outcome)
      requires Valid()
      modifies this`bookings, this`payments
      ensures Valid()
      ensures s.bookingId >= |old(bookings)| ==>
                o == NotFound && bookings == old(bookings) && payments == old(payments)
      ensures s.bookingId < |old(bookings)| ==> o == Ok
      ensures s.bookingId < |old(bookings)| && HasTransaction(old(payments), s.paymentIntent) ==>
                bookings == old(bookings) && payments == old(payments)
      ensures s.bookingId < |old(bookings)| && !HasTransaction(old(payments), s.paymentIntent) ==>
                var b := old(bookings)[s.bookingId];
                && payments == old(payments) + [Payment(s.paymentIntent, b.userEmail, s.amountTotal, b.title, now)]
                && bookings == old(bookings)[s.bookingId := b.(status := BookingStatus.Paid)]
      ensures o == Ok ==> CountTransaction(payments, s.paymentIntent) == 1
    {
      if s.bookingId >= |bookings| {
        return NotFound;
      }
      var b := bookings[s.bookingId];
      if !HasTransaction(payments, s.paymentIntent) {
        var p := Payment(s.paymentIntent, b.userEmail, s.amountTotal, b.title, now);
        CountZeroIffAbsent(payments, s.paymentIntent);
        CountAppend(payments, p, s.paymentIntent);
        UniqueAppend(payments, p);
        payments := payments + [p];
        bookings := bookings[s.bookingId := b.(status := BookingStatus.Paid)];
      } else {
        CountZeroIffAbsent(payments, s.paymentIntent);
        UniqueCountAtMostOne(payments, s.paymentIntent);
      }
      o := Ok;
    }
  }
}
