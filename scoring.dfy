/** `delivery_priority_score`: priority dominates, lateness is penalised,
    tonnage breaks ties. */
module Scoring {
  import opened Records

  /** Hours past the deadline; never negative. */
  function Lateness(order: Order, etaHour: int): (r: nat)
    ensures r == 0 <==> etaHour <= order.deadlineHour
    ensures r > 0 ==> order.deadlineHour + r == etaHour
  {
    if etaHour > order.deadlineHour then etaHour - order.deadlineHour else 0
  }

  /** The score exactly as the source's formula defines it, over the reals. */
  function DeliveryScore(order: Order, etaHour: int): real {
    order.priority as real * 100.0
    - Lateness(order, etaHour) as real * 30.0
    - order.tons as real * 0.1
  }

  /** The score in integer tenths: ten times DeliveryScore, with no rounding.
      An arrival at or before the deadline earns the full priority value;
      every hour late costs 30 points. */
  function ScoreTenths(order: Order, etaHour: int): (r: int)
    ensures r as real == 10.0 * DeliveryScore(order, etaHour)
    ensures etaHour <= order.deadlineHour ==> r == order.priority * 1000 - order.tons
    ensures etaHour > order.deadlineHour ==>
      r == order.priority * 1000 - order.tons - 300 * (etaHour - order.deadlineHour)
  {
    order.priority * 1000 - Lateness(order, etaHour) * 300 - order.tons
  }

  /** Comparing two arrivals for the same order in tenths decides exactly as
      comparing the source's scores does, and it prefers the less late one. */
  lemma ScoreComparisonFaithful(order: Order, eta1: int, eta2: int)
    ensures ScoreTenths(order, eta1) > ScoreTenths(order, eta2)
      <==> DeliveryScore(order, eta1) > DeliveryScore(order, eta2)
    ensures ScoreTenths(order, eta1) > ScoreTenths(order, eta2)
      <==> Lateness(order, eta1) < Lateness(order, eta2)
  {
  }

  /** The score never increases as the arrival hour grows. */
  lemma ScoreNonIncreasing(order: Order, eta1: int, eta2: int)
    requires eta1 <= eta2
    ensures ScoreTenths(order, eta2) <= ScoreTenths(order, eta1)
    ensures DeliveryScore(order, eta2) <= DeliveryScore(order, eta1)
  {
  }

  /** All on-time arrivals score the same. */
  lemma OnTimeScoresEqual(order: Order, eta1: int, eta2: int)
    requires eta1 <= order.deadlineHour && eta2 <= order.deadlineHour
    ensures ScoreTenths(order, eta1) == ScoreTenths(order, eta2)
    ensures DeliveryScore(order, eta1) == DeliveryScore(order, eta2)
  {
  }
}
