/** Pure functions over the tickets table: the `$set` of a ticket update, the
    `updateMany` of the fraud action, and the approved-only listings. */
module Tickets {
  import opened Types

  /** The body of a ticket update: the fields it names are `$set`, the
      others are left alone. Nothing restricts which fields a vendor names. */
  datatype TicketPatch = TicketPatch(
    sellerEmail: Option<string>,
    title: Option<string>,
    price: Option<int>,
    ticketQuantity: Option<int>,
    status: Option<TicketStatus>,
    advertise: Option<bool>)

  const NoChange := TicketPatch(None, None, None, None, None, None)

  function Pick<T>(field: Option<T>, current: T): T
  {
    match field
    case Some(v) => v
    case None => current
  }

  /** `$set: updateData` on one ticket. */
  function ApplyPatch(t: Ticket, p: TicketPatch): (r: Ticket)
    ensures p.sellerEmail.Some? ==> r.sellerEmail == p.sellerEmail.value
    ensures p.sellerEmail.None? ==> r.sellerEmail == t.sellerEmail
    ensures p.title.Some? ==> r.title == p.title.value
    ensures p.title.None? ==> r.title == t.title
    ensures p.price.Some? ==> r.price == p.price.value
    ensures p.price.None? ==> r.price == t.price
    ensures p.ticketQuantity.Some? ==> r.ticketQuantity == p.ticketQuantity.value
    ensures p.ticketQuantity.None? ==> r.ticketQuantity == t.ticketQuantity
    ensures p.status.Some? ==> r.status == p.status.value
    ensures p.status.None? ==> r.status == t.status
    ensures p.advertise.Some? ==> r.advertise == p.advertise.value
    ensures p.advertise.None? ==> r.advertise == t.advertise
  {
    Ticket(
      Pick(p.sellerEmail, t.sellerEmail),
      Pick(p.title, t.title),
      Pick(p.price, t.price),
      Pick(p.ticketQuantity, t.ticketQuantity),
      Pick(p.status, t.status),
      Pick(p.advertise, t.advertise))
  }

  /** Setting the same fields twice is the same as setting them once, and a
      patch that names no field changes nothing. */
  lemma PatchIdempotent(t: Ticket, p: TicketPatch)
    ensures ApplyPatch(ApplyPatch(t, p), p) == ApplyPatch(t, p)
    ensures ApplyPatch(t, NoChange) == t
  {
  }

  /** `updateMany({"seller.email": email}, {$set: {status: "hidden"}})`. */
  function HideSeller(tickets: map<nat, Ticket>, email: string): (r: map<nat, Ticket>)
    ensures r.Keys == tickets.Keys
    ensures forall id :: id in tickets && tickets[id].sellerEmail == email ==> r[id] == tickets[id].(status := Hidden)
    ensures forall id :: id in tickets && tickets[id].sellerEmail != email ==> r[id] == tickets[id]
  {
    map id | id in tickets ::
      if tickets[id].sellerEmail == email then tickets[id].(status := Hidden) else tickets[id]
  }

  /** GET /tickets: the ids of the approved tickets (the sort is left out). */
  function ApprovedIds(tickets: map<nat, Ticket>): (r: set<nat>)
    ensures forall id :: id in r <==> id in tickets && tickets[id].status == Approved
  {
    set id | id in tickets && tickets[id].status == Approved
  }

  /** GET /advertised-tickets: approved tickets with the advertise flag. */
  function AdvertisedIds(tickets: map<nat, Ticket>): (r: set<nat>)
    ensures r <= ApprovedIds(tickets)
    ensures forall id :: id in r <==> id in tickets && tickets[id].advertise && tickets[id].status == Approved
  {
    set id | id in tickets && tickets[id].advertise && tickets[id].status == Approved
  }

  /** GET /ticket/:id: the ticket, only when it exists and is approved. */
  function ApprovedTicket(tickets: map<nat, Ticket>, id: nat): (r: Option<Ticket>)
    ensures r.Some? <==> id in ApprovedIds(tickets)
    ensures r.Some? ==> r.value == tickets[id]
  {
    if id in tickets && tickets[id].status == Approved then Some(tickets[id]) else None
  }

  /** After the fraud action, a ticket is listed exactly when it was listed
      before and its seller is someone else. */
  lemma HideSellerDelists(tickets: map<nat, Ticket>, email: string, id: nat)
    ensures id in ApprovedIds(HideSeller(tickets, email)) <==>
            id in ApprovedIds(tickets) && tickets[id].sellerEmail != email
    ensures id in AdvertisedIds(HideSeller(tickets, email)) <==>
            id in AdvertisedIds(tickets) && tickets[id].sellerEmail != email
    ensures ApprovedTicket(HideSeller(tickets, email), id).None? <==>
            id !in ApprovedIds(tickets) || tickets[id].sellerEmail == email
  {
  }
}
