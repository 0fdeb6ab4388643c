/** GET /vendor/revenue-overview: a filter and two reduces over the bookings
    collection, with a reference definition as a per-booking sum and the way
    the booking handlers move the totals. */
module Revenue {
  import opened Types

  /** `{ticketSellerEmail: vendor, status: {$in: ["accepted", "paid"]}}` */
  predicate IsSold(b: Booking, vendor: string)
  {
    b.ticketSellerEmail == vendor && (b.status == BookingStatus.Accepted || b.status == BookingStatus.Paid)
  }

  /** The bookings the overview's query returns, in collection order. */
  function SoldBookings(bs: seq<Booking>, vendor: string): (r: seq<Booking>)
    ensures |r| <= |bs|
    ensures forall i :: 0 <= i < |r| ==> IsSold(r[i], vendor)
    ensures forall b :: b in r <==> b in bs && IsSold(b, vendor)
  {
    if bs == [] then []
    else (if IsSold(bs[0], vendor) then [bs[0]] else []) + SoldBookings(bs[1..], vendor)
  }

  /** `soldBookings.filter(b => b.status === "paid")` */
  function PaidBookings(bs: seq<Booking>): (r: seq<Booking>)
    ensures |r| <= |bs|
    ensures forall i :: 0 <= i < |r| ==> r[i].status == BookingStatus.Paid
    ensures forall b :: b in r <==> b in bs && b.status == BookingStatus.Paid
  {
    if bs == [] then []
    else (if bs[0].status == BookingStatus.Paid then [bs[0]] else []) + PaidBookings(bs[1..])
  }

  /** `reduce((sum, b) => sum + b.quantity, 0)` */
  function SumQuantity(bs: seq<Booking>): int
  {
    if bs == [] then 0 else bs[0].quantity + SumQuantity(bs[1..])
  }

  /** `reduce((sum, b) => sum + b.ticketUnitPrice * b.quantity, 0)` */
  function SumRevenue(bs: seq<Booking>): int
  {
    if bs == [] then 0 else bs[0].ticketUnitPrice * bs[0].quantity + SumRevenue(bs[1..])
  }

  /** `tickets.countDocuments({"seller.email": vendor})` */
  function TicketsAdded(tickets: map<nat, Ticket>, vendor: string): nat
  {
    |OwnTickets(tickets, vendor)|
  }

  function OwnTickets(tickets: map<nat, Ticket>, vendor: string): set<nat>
  {
    set id | id in tickets && tickets[id].sellerEmail == vendor
  }

  datatype Overview = Overview(totalTicketsAdded: nat, totalTicketsSold: int, totalRevenue: int)

  /** The two totals, stated booking by booking. */
  datatype Measure = TicketsSold | Earned

  /** What one booking contributes to a vendor's total. */
  function Share(b: Booking, vendor: string, m: Measure): int
  {
    match m
    case TicketsSold => if IsSold(b, vendor) then b.quantity else 0
    case Earned =>
      if b.ticketSellerEmail == vendor && b.status == BookingStatus.Paid
      then b.ticketUnitPrice * b.quantity else 0
  }

  function Total(bs: seq<Booking>, vendor: string, m: Measure): int
  {
    if bs == [] then 0 else Share(bs[0], vendor, m) + Total(bs[1..], vendor, m)
  }

  /** The whole overview: totalTicketsSold sums the quantity of the vendor's
      accepted or paid bookings, totalRevenue sums price times quantity over
      only the vendor's paid ones, and totalTicketsAdded counts tickets of the
      table. */
  function RevenueOverview(tickets: map<nat, Ticket>, bs: seq<Booking>, vendor: string): (r: Overview)
    ensures r.totalTicketsAdded <= |tickets|
    ensures r.totalTicketsSold == Total(bs, vendor, TicketsSold)
    ensures r.totalRevenue == Total(bs, vendor, Earned)
  {
    SoldQuantity(bs, vendor);
    SoldRevenue(bs, vendor);
    TicketsAddedBound(tickets, vendor);
    var sold := SoldBookings(bs, vendor);
    Overview(TicketsAdded(tickets, vendor), SumQuantity(sold), SumRevenue(PaidBookings(sold)))
  }

  lemma TicketsAddedBound(tickets: map<nat, Ticket>, vendor: string)
    ensures TicketsAdded(tickets, vendor) <= |tickets|
  {
    SubsetCardinality(OwnTickets(tickets, vendor), tickets.Keys);
  }

  /** Inserting a ticket under a fresh id adds one to its seller's count of
      tickets added and leaves every other vendor's count alone. */
  lemma TicketsAddedInsert(tickets: map<nat, Ticket>, id: nat, t: Ticket, vendor: string)
    requires id !in tickets
    ensures TicketsAdded(tickets[id := t], vendor) ==
            TicketsAdded(tickets, vendor) + (if t.sellerEmail == vendor then 1 else 0)
  {
    if t.sellerEmail == vendor {
      assert OwnTickets(tickets[id := t], vendor) == OwnTickets(tickets, vendor) + {id};
    } else {
      assert OwnTickets(tickets[id := t], vendor) == OwnTickets(tickets, vendor);
    }
  }

  lemma {:induction false} SubsetCardinality(a: set<nat>, b: set<nat>)
    requires a <= b
    ensures |a| <= |b|
    decreases |b|
  {
    if a != {} {
      var x :| x in a;
      SubsetCardinality(a - {x}, b - {x});
    }
  }

  lemma {:induction false} SoldQuantity(bs: seq<Booking>, vendor: string)
    ensures SumQuantity(SoldBookings(bs, vendor)) == Total(bs, vendor, TicketsSold)
  {
    if bs != [] {
      SoldQuantity(bs[1..], vendor);
      var head := if IsSold(bs[0], vendor) then [bs[0]] else [];
      SumQuantityAppend(head, SoldBookings(bs[1..], vendor));
    }
  }

  lemma {:induction false} SoldRevenue(bs: seq<Booking>, vendor: string)
    ensures SumRevenue(PaidBookings(SoldBookings(bs, vendor))) == Total(bs, vendor, Earned)
  {
    if bs != [] {
      SoldRevenue(bs[1..], vendor);
      var head := if IsSold(bs[0], vendor) then [bs[0]] else [];
      var rest := SoldBookings(bs[1..], vendor);
      PaidAppend(head, rest);
      SumRevenueAppend(PaidBookings(head), PaidBookings(rest));
      assert PaidBookings(head) == (if IsSold(bs[0], vendor) && bs[0].status == BookingStatus.Paid then [bs[0]] else []) by {
        if head != [] {
          assert head[1..] == [];
        }
      }
    }
  }

  lemma {:induction false} SumQuantityAppend(a: seq<Booking>, b: seq<Booking>)
    ensures SumQuantity(a + b) == SumQuantity(a) + SumQuantity(b)
  {
    if a != [] {
      assert (a + b)[1..] == a[1..] + b;
      SumQuantityAppend(a[1..], b);
    } else {
      assert a + b == b;
    }
  }

  lemma {:induction false} SumRevenueAppend(a: seq<Booking>, b: seq<Booking>)
    ensures SumRevenue(a + b) == SumRevenue(a) + SumRevenue(b)
  {
    if a != [] {
      assert (a + b)[1..] == a[1..] + b;
      SumRevenueAppend(a[1..], b);
    } else {
      assert a + b == b;
    }
  }

  lemma {:induction false} PaidAppend(a: seq<Booking>, b: seq<Booking>)
    ensures PaidBookings(a + b) == PaidBookings(a) + PaidBookings(b)
  {
    if a != [] {
      assert (a + b)[1..] == a[1..] + b;
      PaidAppend(a[1..], b);
    } else {
      assert a + b == b;
    }
  }

  /** Replacing one booking moves a total by the difference of the two shares. */
  lemma {:induction false} TotalUpdate(bs: seq<Booking>, i: nat, b: Booking, vendor: string, m: Measure)
    requires i < |bs|
    ensures Total(bs[i := b], vendor, m) == Total(bs, vendor, m) - Share(bs[i], vendor, m) + Share(b, vendor, m)
  {
    if i == 0 {
      assert bs[i := b][1..] == bs[1..];
    } else {
      assert bs[i := b][1..] == bs[1..][i - 1 := b];
      TotalUpdate(bs[1..], i - 1, b, vendor, m);
    }
  }

  /** Appending one booking adds its share. */
  lemma {:induction false} TotalAppend(bs: seq<Booking>, b: Booking, vendor: string, m: Measure)
    ensures Total(bs + [b], vendor, m) == Total(bs, vendor, m) + Share(b, vendor, m)
  {
    if bs != [] {
      assert (bs + [b])[1..] == bs[1..] + [b];
      TotalAppend(bs[1..], b, vendor, m);
    }
  }

  /** A new, pending booking moves neither total. */
  lemma NewBookingCountsNothing(tickets: map<nat, Ticket>, bs: seq<Booking>, b: Booking, vendor: string)
    requires b.status == BookingStatus.Pending
    ensures RevenueOverview(tickets, bs + [b], vendor).totalTicketsSold == RevenueOverview(tickets, bs, vendor).totalTicketsSold
    ensures RevenueOverview(tickets, bs + [b], vendor).totalRevenue == RevenueOverview(tickets, bs, vendor).totalRevenue
  {
    TotalAppend(bs, b, vendor, TicketsSold);
    TotalAppend(bs, b, vendor, Earned);
  }

  /** A vendor accepting one of their pending bookings counts its quantity as
      sold, and earns nothing yet. */
  lemma AcceptCountsSold(tickets: map<nat, Ticket>, bs: seq<Booking>, i: nat)
    requires i < |bs| && bs[i].status == BookingStatus.Pending
    ensures var vendor := bs[i].ticketSellerEmail;
            var after := RevenueOverview(tickets, bs[i := bs[i].(status := BookingStatus.Accepted)], vendor);
            var before := RevenueOverview(tickets, bs, vendor);
            after.totalTicketsSold == before.totalTicketsSold + bs[i].quantity &&
            after.totalRevenue == before.totalRevenue
  {
    var vendor := bs[i].ticketSellerEmail;
    var bs' := bs[i := bs[i].(status := BookingStatus.Accepted)];
    TotalUpdate(bs, i, bs'[i], vendor, TicketsSold);
    TotalUpdate(bs, i, bs'[i], vendor, Earned);
  }

  /** Paying an accepted booking keeps the tickets sold and earns its unit
      price times its quantity. */
  lemma PaymentEarns(tickets: map<nat, Ticket>, bs: seq<Booking>, i: nat)
    requires i < |bs| && bs[i].status == BookingStatus.Accepted
    ensures var vendor := bs[i].ticketSellerEmail;
            var after := RevenueOverview(tickets, bs[i := bs[i].(status := BookingStatus.Paid)], vendor);
            var before := RevenueOverview(tickets, bs, vendor);
            after.totalTicketsSold == before.totalTicketsSold &&
            after.totalRevenue == before.totalRevenue + bs[i].ticketUnitPrice * bs[i].quantity
  {
    var vendor := bs[i].ticketSellerEmail;
    var bs' := bs[i := bs[i].(status := BookingStatus.Paid)];
    TotalUpdate(bs, i, bs'[i], vendor, TicketsSold);
    TotalUpdate(bs, i, bs'[i], vendor, Earned);
  }

  /** A status change on another vendor's booking leaves this vendor's
      overview as it was. */
  lemma OtherVendorUnaffected(tickets: map<nat, Ticket>, bs: seq<Booking>, i: nat, s: BookingStatus, vendor: string)
    requires i < |bs| && bs[i].ticketSellerEmail != vendor
    ensures RevenueOverview(tickets, bs[i := bs[i].(status := s)], vendor) == RevenueOverview(tickets, bs, vendor)
  {
    var bs' := bs[i := bs[i].(status := s)];
    TotalUpdate(bs, i, bs'[i], vendor, TicketsSold);
    TotalUpdate(bs, i, bs'[i], vendor, Earned);
  }
}
