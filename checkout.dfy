/** The records exchanged with the payment gateway: the request body of a
    checkout, the session parameters built from it, and the fields of a
    retrieved session that the payment handler reads. */
module Checkout {
  import opened Types

  /** The request body of POST /create-checkout-session. */
  datatype CheckoutRequest = CheckoutRequest(
    bookingId: nat,
    price: int,
    title: string,
    image: string,
    quantity: int,
    userEmail: string)

  datatype LineItem = LineItem(
    currency: string,
    unitAmount: int,
    productName: string,
    images: seq<string>,
    quantity: int)

  /** The argument the handler passes to the gateway's session creation. */
  datatype SessionParams = SessionParams(
    paymentMethodTypes: seq<string>,
    lineItems: seq<LineItem>,
    mode: string,
    successUrl: string,
    cancelUrl: string,
    customerEmail: string,
    metadataBookingId: nat)

  /** A retrieved session: its payment intent, the booking id from its
      metadata, and its total in cents. */
  datatype GatewaySession = GatewaySession(paymentIntent: string, bookingId: nat, amountTotal: int)

  /** The session parameters for a checkout request. Every figure comes from
      the request body, not from the booking. */
  function SessionParamsFor(info: CheckoutRequest, clientUrl: string): (p: SessionParams)
    ensures p.paymentMethodTypes == ["card"] && p.mode == "payment"
    ensures |p.lineItems| == 1
    ensures p.lineItems[0].currency == "usd"
    ensures p.lineItems[0].unitAmount == info.price * 100
    ensures p.lineItems[0].quantity == info.quantity
    ensures p.customerEmail == info.userEmail
    ensures p.metadataBookingId == info.bookingId
  {
    SessionParams(
      ["card"],
      [LineItem("usd", info.price * 100, info.title, [info.image], info.quantity)],
      "payment",
      clientUrl + "/payment-success?session_id={CHECKOUT_SESSION_ID}",
      clientUrl + "/dashboard/my-bookings",
      info.userEmail,
      info.bookingId)
  }

  /** `new Date(booking.departureTime) < new Date()`: a missing departure time
      makes an invalid date, and comparing with it is false. */
  predicate DeparturePassed(departureTime: Option<int>, now: int): (r: bool)
    ensures departureTime.None? ==> !r
    ensures departureTime.Some? ==> (r <==> departureTime.value < now)
  {
    departureTime.Some? && departureTime.value < now
  }
}
