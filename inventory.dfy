/** The inventory side of booking creation: the quantity check against a
    ticket's remaining quantity followed by the `$inc` that takes the requested
    quantity off it. */
module Inventory {
  import opened Types

  /** One reservation: refused when more is asked than remains, otherwise the
      remaining quantity after the decrement. */
  function Reserve(remaining: int, quantity: int): (r: Option<int>)
    ensures r.Some? <==> quantity <= remaining
    ensures r.Some? ==> r.value + quantity == remaining
    ensures r.Some? && 0 <= remaining ==> 0 <= r.value
  {
    if quantity > remaining then None else Some(remaining - quantity)
  }

  /** The remaining quantity after a run of booking requests against one
      ticket, each refused or granted in turn. */
  function ReserveAll(remaining: int, quantities: seq<int>): int
    decreases |quantities|
  {
    if quantities == [] then remaining
    else match Reserve(remaining, quantities[0])
      case None => ReserveAll(remaining, quantities[1..])
      case Some(left) => ReserveAll(left, quantities[1..])
  }

  /** The quantities of a run that were granted, in order. */
  function Granted(remaining: int, quantities: seq<int>): seq<int>
    decreases |quantities|
  {
    if quantities == [] then []
    else match Reserve(remaining, quantities[0])
      case None => Granted(remaining, quantities[1..])
      case Some(left) => [quantities[0]] + Granted(left, quantities[1..])
  }

  function Sum(s: seq<int>): int
  {
    if s == [] then 0 else s[0] + Sum(s[1..])
  }

  /** However many requests arrive one after another, a remaining quantity that
      starts non-negative never goes below zero. */
  lemma {:induction false} ReserveAllNonNegative(remaining: int, quantities: seq<int>)
    requires 0 <= remaining
    ensures 0 <= ReserveAll(remaining, quantities)
    decreases |quantities|
  {
    if quantities != [] {
      match Reserve(remaining, quantities[0])
      case None => ReserveAllNonNegative(remaining, quantities[1..]);
      case Some(left) => ReserveAllNonNegative(left, quantities[1..]);
    }
  }

  /** The remaining quantity drops by exactly what was granted. */
  lemma {:induction false} ReserveAllTakesGranted(remaining: int, quantities: seq<int>)
    ensures ReserveAll(remaining, quantities) + Sum(Granted(remaining, quantities)) == remaining
    decreases |quantities|
  {
    if quantities != [] {
      match Reserve(remaining, quantities[0])
      case None =>
        ReserveAllTakesGranted(remaining, quantities[1..]);
      case Some(left) =>
        ReserveAllTakesGranted(left, quantities[1..]);
        var g := Granted(left, quantities[1..]);
        assert ([quantities[0]] + g)[1..] == g;
    }
  }
}
