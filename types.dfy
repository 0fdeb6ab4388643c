/** The records of the marketplace's four collections, and the result kinds a
    route handler answers with. */
module Types {

  datatype Option<+T> = None | Some(value: T)

  /** The HTTP status a handler answers with: 200, 404, 400 or 403. */
  datatype Outcome = Ok | NotFound | BadRequest | Forbidden

  /** Moderation status of a ticket ("pending", "approved", "rejected", "hidden"). */
  datatype TicketStatus = Pending | Approved | Rejected | Hidden

  /** Lifecycle status of a booking ("pending", "accepted", "rejected", "paid"). */
  datatype BookingStatus = Pending | Accepted | Rejected | Paid

  /** Role of a user ("customer", "vendor", "admin", "fraud"). */
  datatype Role = Customer | Vendor | Admin | Fraud

  /** A ticket document. Prices are whole currency units; `ticketQuantity` is the
      remaining sellable quantity, an integer the source never clamps. */
  datatype Ticket = Ticket(
    sellerEmail: string,
    title: string,
    price: int,
    ticketQuantity: int,
    status: TicketStatus,
    advertise: bool)

  /** The fields of a booking request body that the handlers read back later. */
  datatype BookingRequest = BookingRequest(
    ticketId: nat,
    quantity: int,
    title: Option<string>,
    departureTime: Option<int>)

  /** A booking document: the request body spread, then the snapshot fields
      written by the booking handler. */
  datatype Booking = Booking(
    ticketId: nat,
    quantity: int,
    title: Option<string>,
    departureTime: Option<int>,
    userEmail: string,
    ticketTitle: string,
    ticketUnitPrice: int,
    ticketSellerEmail: string,
    status: BookingStatus,
    createdAt: int)

  /** A payment document; `amount` is kept in cents. */
  datatype Payment = Payment(
    transactionId: string,
    email: string,
    amount: int,
    title: Option<string>,
    date: int)

  /** A user document; the users table is keyed by email. */
  datatype User = User(name: string, role: Role)

  /** verifyAdmin: the caller has a user record whose role is admin. */
  predicate IsAdmin(users: map<string, User>, email: string)
  {
    email in users && users[email].role == Admin
  }
}
