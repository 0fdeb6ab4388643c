/** Clients of the store: what a caller can conclude from the handlers'
    contracts alone when it chains them. */
module Scenarios {
  import opened Types
  import opened Payments
  import opened Checkout
  import opened Revenue
  import opened Marketplace

  /** Confirming the same session twice records exactly one payment for its
      transaction id and marks the booking paid once; the second call changes
      nothing. */
  method ConfirmTwice(store: Store, s: GatewaySession, first: int, second: int) returns (o1: Outcome, o2: Outcome)
    requires store.Valid()
    requires s.bookingId < |store.bookings| && !HasTransaction(store.payments, s.paymentIntent)
    modifies store`bookings, store`payments
    ensures store.Valid()
    ensures o1 == Ok && o2 == Ok
    ensures CountTransaction(store.payments, s.paymentIntent) == 1
    ensures store.payments == old(store.payments) +
              [Payment(s.paymentIntent, old(store.bookings)[s.bookingId].userEmail, s.amountTotal,
                       old(store.bookings)[s.bookingId].title, first)]
    ensures store.bookings ==
              old(store.bookings)[s.bookingId := old(store.bookings)[s.bookingId].(status := BookingStatus.Paid)]
  {
    o1 := store.ConfirmPayment(s, first);
    assert store.payments[|store.payments| - 1].transactionId == s.paymentIntent;
    ghost var bookingsAfterFirst, paymentsAfterFirst := store.bookings, store.payments;
    o2 := store.ConfirmPayment(s, second);
    assert store.bookings == bookingsAfterFirst && store.payments == paymentsAfterFirst;
  }

  /** A ticket of 3 seats sold by y; x books 2 of them, z may not accept the
      booking, y does; checkout is refused while pending and opened once
      accepted; the payment arrives twice and is recorded once. */
  method Lifecycle()
  {
    var admins := map["a@example.com" := User("a", Admin)];
    var store := new Store(admins);
    var tid := store.CreateTicket(Ticket("y@example.com", "Dhaka-Sylhet", 20, 3, TicketStatus.Approved, true));
    assert store.tickets[tid].status == TicketStatus.Pending && !store.tickets[tid].advertise;

    var req := BookingRequest(tid, 2, Some("Dhaka-Sylhet"), Some(100));
    var o, bid := store.CreateBooking("x@example.com", req, 10);
    assert o == Ok && store.tickets[tid].ticketQuantity == 1;
    assert store.bookings[bid].status == BookingStatus.Pending;
    var o2, _ := store.CreateBooking("x@example.com", req, 11);
    assert o2 == BadRequest && store.tickets[tid].ticketQuantity == 1;

    var info := CheckoutRequest(bid, 20, "Dhaka-Sylhet", "img", 2, "x@example.com");
    var c, session := store.StartCheckout(info, 12, "https://client");
    assert c == BadRequest && session == None;

    var d, view := store.Decide("z@example.com", bid, Accept);
    assert d == Forbidden && store.bookings[bid].status == BookingStatus.Pending;
    d, view := store.Decide("y@example.com", bid, Accept);
    assert d == Ok && store.bookings[bid].status == BookingStatus.Accepted;

    c, session := store.StartCheckout(info, 12, "https://client");
    assert c == Ok && session.value.lineItems[0].unitAmount == 2000;
    c, session := store.StartCheckout(info, 101, "https://client");
    assert c == BadRequest;

    var gateway := GatewaySession("pi_1", bid, 4000);
    var p1, p2 := ConfirmTwice(store, gateway, 13, 14);
    assert |store.payments| == 1 && store.bookings[bid].status == BookingStatus.Paid;

    assert store.bookings == [store.bookings[0]] && store.bookings[1..] == [];
    assert store.bookings[0].ticketUnitPrice == 20 && store.bookings[0].quantity == 2;
    assert Share(store.bookings[0], "y@example.com", Earned) == 40;
    assert Total(store.bookings, "y@example.com", Earned) == 40;
    assert Share(store.bookings[0], "y@example.com", TicketsSold) == 2;
    assert Total(store.bookings, "y@example.com", TicketsSold) == 2;
    var overview := RevenueOverview(store.tickets, store.bookings, "y@example.com");
    assert overview.totalTicketsSold == 2 && overview.totalRevenue == 40;
  }

  /** Rejecting a booking leaves the reserved quantity taken; marking the
      seller as fraud then hides the ticket from the public listing. */
  method RejectThenFraud()
  {
    var store := new Store(map["a@example.com" := User("a", Admin), "y@example.com" := User("y", Vendor)]);
    var tid := store.CreateTicket(Ticket("y@example.com", "Ctg-Dhaka", 15, 5, TicketStatus.Pending, false));
    var m := store.ModerateTicket("a@example.com", tid, Approve);
    assert m == Ok && tid in Tickets.ApprovedIds(store.tickets);

    var o, bid := store.CreateBooking("x@example.com", BookingRequest(tid, 4, None, None), 1);
    var d, _ := store.Decide("y@example.com", bid, Reject);
    assert d == Ok && store.bookings[bid].status == BookingStatus.Rejected;
    assert store.tickets[tid].ticketQuantity == 1;

    var f := store.MarkFraud("x@example.com", "y@example.com");
    assert f == Forbidden && store.users["y@example.com"].role == Vendor;
    f := store.MarkFraud("a@example.com", "y@example.com");
    assert f == Ok && store.users["y@example.com"].role == Fraud;
    assert tid !in Tickets.ApprovedIds(store.tickets);
  }
}
