/** What `dispatch_orders` guarantees for a whole run, from the caller's
    point of view: stated on the orders and trucks it is given. */
module Guarantees {
  import opened Records
  import opened Routes
  import opened OrderSort
  import opened Planner
  import opened PlanProperties

  lemma UniqueCons(y: Order, t: seq<Order>)
    requires UniqueOrderIds(t)
    requires forall z :: z in t ==> z.id != y.id
    ensures UniqueOrderIds([y] + t)
  {
    var r := [y] + t;
    forall i, j | 0 <= i < j < |r| ensures r[i].id != r[j].id {
      assert r[j] == t[j - 1];
      if i > 0 {
        assert r[i] == t[i - 1];
      }
    }
  }

  lemma {:induction false} InsertKeepsIdsUnique(x: Order, s: seq<Order>)
    requires Sorted(s) && UniqueOrderIds(s)
    requires forall z :: z in s ==> z.id != x.id
    ensures UniqueOrderIds(Insert(x, s))
  {
    if s == [] {
    } else if ServedBefore(s[0], x) {
      var tail := s[1..];
      assert forall z :: z in tail ==> z in s;
      assert UniqueOrderIds(tail);
      InsertKeepsIdsUnique(x, tail);
      forall z | z in Insert(x, tail) ensures z.id != s[0].id {
        assert z in multiset(Insert(x, tail));
        if z != x {
          assert z in tail;
          var m :| 0 <= m < |tail| && tail[m] == z;
          assert s[m + 1] == z;
        } else {
          assert s[0] in s;
        }
      }
      UniqueCons(s[0], Insert(x, tail));
      assert Insert(x, s) == [s[0]] + Insert(x, tail);
    } else {
      UniqueCons(x, s);
    }
  }

  /** Sorting keeps the order ids distinct. */
  lemma {:induction false} SortKeepsIdsUnique(orders: seq<Order>)
    requires UniqueOrderIds(orders)
    ensures UniqueOrderIds(SortOrders(orders))
  {
    if orders != [] {
      var tail := orders[1..];
      assert UniqueOrderIds(tail);
      SortKeepsIdsUnique(tail);
      var rest := SortOrders(tail);
      forall z | z in rest ensures z.id != orders[0].id {
        assert z in multiset(rest);
        var m :| 0 <= m < |tail| && tail[m] == z;
        assert orders[m + 1] == z;
      }
      InsertKeepsIdsUnique(orders[0], rest);
    }
  }

  /** Every entry of the initial fleet is the starting state of a truck with that id. */
  lemma {:induction false} InitialFleetOrigin(trucks: seq<Truck>)
    ensures forall id :: id in InitialFleet(trucks) ==>
      exists t :: t in trucks && t.id == id && InitialFleet(trucks)[id] == TruckState(t.location, t.availableHour)
  {
    if trucks != [] {
      var n := |trucks| - 1;
      var front := trucks[..n];
      InitialFleetOrigin(front);
      assert forall t :: t in front ==> t in trucks;
      assert trucks[n] in trucks;
    }
  }

  /** An order with a unique id starts with all its tons remaining. */
  lemma InitialRemainingOfUnique(orders: seq<Order>, o: Order)
    requires UniqueOrderIds(orders) && o in orders
    ensures o.id in InitialRemaining(orders) && InitialRemaining(orders)[o.id] == o.tons
  {
    var i :| 0 <= i < |orders| && orders[i] == o;
    InitialRemainingOfLast(orders, i);
  }

  lemma InSorted(orders: seq<Order>, o: Order)
    requires o in orders
    ensures o in SortOrders(orders)
  {
    assert o in multiset(orders);
  }

  /** Every dispatch is for one of the orders and carries at least one ton
      and no more than the capacity of a truck with its truck id. */
  lemma DispatchesCarried(orders: seq<Order>, trucks: seq<Truck>, travel: DurationTable, reposition: DurationTable)
    requires CapacitiesPositive(trucks) && UniqueOrderIds(orders)
    ensures var r := Plan(orders, trucks, travel, reposition);
      r.Ok? ==> forall d :: d in r.value ==>
        Carried(d, trucks) && exists o :: o in orders && o.id == d.orderId
  {
    var sorted := SortOrders(orders);
    SortedOrdersTracked(orders);
    SortKeepsIdsUnique(orders);
    PlanFromCarried(sorted, InitialRemaining(orders), trucks, InitialFleet(trucks), travel, reposition);
    var r := Plan(orders, trucks, travel, reposition);
    if r.Ok? {
      forall d | d in r.value ensures exists o :: o in orders && o.id == d.orderId {
        var o := sorted[Rank(sorted, d.orderId)];
        assert o in multiset(sorted);
      }
    }
  }

  /** Each order receives exactly its tons in total when there is a truck
      (nothing when its tons are not positive), and nothing when there is none. */
  lemma AssignedTonsPerOrder(orders: seq<Order>, trucks: seq<Truck>, travel: DurationTable, reposition: DurationTable,
                             o: Order)
    requires CapacitiesPositive(trucks) && UniqueOrderIds(orders)
    requires o in orders
    ensures var r := Plan(orders, trucks, travel, reposition);
      r.Ok? ==> SumTons(r.value, o.id) == if |trucks| > 0 && o.tons > 0 then o.tons else 0
  {
    var sorted := SortOrders(orders);
    SortedOrdersTracked(orders);
    SortKeepsIdsUnique(orders);
    PlanFromTonnage(sorted, InitialRemaining(orders), trucks, InitialFleet(trucks), travel, reposition);
    InSorted(orders, o);
    InitialRemainingOfUnique(orders, o);
    var i :| 0 <= i < |sorted| && sorted[i] == o;
  }

  /** Ranks in WithKey follow positions in the list, for orders of one key. */
  lemma {:induction false} WithKeyRank(s: seq<Order>, k: (int, int), p: int, q: int)
    requires UniqueOrderIds(s)
    requires 0 <= p < q < |s| && SortKey(s[p]) == k && SortKey(s[q]) == k
    ensures Rank(WithKey(s, k), s[p].id) < Rank(WithKey(s, k), s[q].id)
  {
    var tail := s[1..];
    WithKeyCons(s[0], tail, k);
    var w := WithKey(tail, k);
    assert s[q] == tail[q - 1];
    assert s[0].id != s[q].id;
    if p == 0 {
      RankCons(s[0], w, s[q].id);
    } else {
      assert s[p] == tail[p - 1];
      assert s[0].id != s[p].id;
      UniqueTail(s);
      WithKeyRank(tail, k, p - 1, q - 1);
      if SortKey(s[0]) == k {
        RankCons(s[0], w, s[p].id);
        RankCons(s[0], w, s[q].id);
      } else {
        assert WithKey(s, k) == w;
      }
    }
  }

  /** The stable sort serves orders[i] before orders[j]: it has a strictly
      smaller key, or the same key and comes first in the input. */
  predicate ServedEarlier(orders: seq<Order>, i: int, j: int)
    requires 0 <= i < |orders| && 0 <= j < |orders|
  {
    ServedBefore(orders[i], orders[j]) || (SortKey(orders[i]) == SortKey(orders[j]) && i < j)
  }

  /** The position of an order in the sorted list follows the sort key, and
      the input order among equal keys. */
  lemma SortPosition(orders: seq<Order>, i: int, j: int)
    requires UniqueOrderIds(orders)
    requires 0 <= i < |orders| && 0 <= j < |orders| && ServedEarlier(orders, i, j)
    ensures Rank(SortOrders(orders), orders[i].id) < Rank(SortOrders(orders), orders[j].id)
  {
    var sorted := SortOrders(orders);
    SortKeepsIdsUnique(orders);
    InSorted(orders, orders[i]);
    InSorted(orders, orders[j]);
    var p :| 0 <= p < |sorted| && sorted[p] == orders[i];
    var q :| 0 <= q < |sorted| && sorted[q] == orders[j];
    RankOfUnique(sorted, p);
    RankOfUnique(sorted, q);
    assert p != q;
    if q < p && !ServedBefore(orders[i], orders[j]) {
      var k := SortKey(orders[i]);
      WithKeyRank(sorted, k, q, p);
      WithKeyRank(orders, k, i, j);
    }
  }

  /** Dispatches follow the sorted order: every dispatch of an order served
      earlier comes before every dispatch of an order served later. */
  lemma EarlierServedDispatchedFirst(orders: seq<Order>, trucks: seq<Truck>,
                                     travel: DurationTable, reposition: DurationTable,
                                     i: int, j: int, a: int, b: int)
    requires CapacitiesPositive(trucks) && UniqueOrderIds(orders)
    requires 0 <= i < |orders| && 0 <= j < |orders| && ServedEarlier(orders, i, j)
    requires Plan(orders, trucks, travel, reposition).Ok?
    requires 0 <= a < |Plan(orders, trucks, travel, reposition).value|
    requires 0 <= b < |Plan(orders, trucks, travel, reposition).value|
    requires Plan(orders, trucks, travel, reposition).value[a].orderId == orders[i].id
    requires Plan(orders, trucks, travel, reposition).value[b].orderId == orders[j].id
    ensures a < b
  {
    var sorted := SortOrders(orders);
    SortedOrdersTracked(orders);
    SortKeepsIdsUnique(orders);
    PlanFromGrouped(sorted, InitialRemaining(orders), trucks, InitialFleet(trucks), travel, reposition);
    SortPosition(orders, i, j);
  }

  /** No truck is given two overlapping trips, and no trip starts before its
      truck was first free. */
  lemma TruckTripsDoNotOverlap(orders: seq<Order>, trucks: seq<Truck>, travel: DurationTable, reposition: DurationTable)
    requires CapacitiesPositive(trucks)
    ensures var r := Plan(orders, trucks, travel, reposition);
      r.Ok? ==>
        && NoOverlap(r.value)
        && forall d :: d in r.value ==>
             d.pickupHour <= d.etaHour
             && exists t :: t in trucks && t.id == d.truckId && t.availableHour <= d.pickupHour
  {
    var sorted := SortOrders(orders);
    SortedOrdersTracked(orders);
    var fleet := InitialFleet(trucks);
    PlanFromHours(sorted, InitialRemaining(orders), trucks, fleet, travel, reposition);
    PlanFromNoOverlap(sorted, InitialRemaining(orders), trucks, fleet, travel, reposition);
    InitialFleetOrigin(trucks);
  }

  /** A run fails only on a route that one of the orders needs and the
      relevant table lacks. */
  lemma PlanFailsOnlyOnMissingRoute(orders: seq<Order>, trucks: seq<Truck>, travel: DurationTable, reposition: DurationTable)
    requires CapacitiesPositive(trucks)
    ensures var r := Plan(orders, trucks, travel, reposition);
      r.Err? ==> exists o :: o in orders && MissingRouteOf(r.error, o, travel, reposition)
  {
    var sorted := SortOrders(orders);
    SortedOrdersTracked(orders);
    PlanFromFails(sorted, InitialRemaining(orders), trucks, InitialFleet(trucks), travel, reposition);
    var r := Plan(orders, trucks, travel, reposition);
    if r.Err? {
      var o :| o in sorted && MissingRouteOf(r.error, o, travel, reposition);
      assert o in multiset(sorted);
    }
  }

  /** A run succeeds when every order's haul route is known and every truck
      can reposition from its start and from every order's mine to every
      order's mine. */
  lemma PlanSucceedsWhenRoutesKnown(orders: seq<Order>, trucks: seq<Truck>, travel: DurationTable,
                                    reposition: DurationTable, locs: set<string>)
    requires CapacitiesPositive(trucks)
    requires forall t :: t in trucks ==> t.location in locs
    requires Reachable(orders, locs, travel, reposition)
    ensures Plan(orders, trucks, travel, reposition).Ok?
  {
    var sorted := SortOrders(orders);
    SortedOrdersTracked(orders);
    InitialFleetOrigin(trucks);
    forall o | o in sorted ensures o in orders {
      assert o in multiset(sorted);
    }
    PlanFromSucceeds(sorted, InitialRemaining(orders), trucks, InitialFleet(trucks), travel, reposition, locs);
  }

  /** An order with tons to move whose haul route is missing aborts the run
      whenever there is a truck. */
  lemma MissingHaulRouteAborts(orders: seq<Order>, trucks: seq<Truck>, travel: DurationTable,
                               reposition: DurationTable, o: Order)
    requires CapacitiesPositive(trucks) && UniqueOrderIds(orders)
    requires o in orders && o.tons > 0 && |trucks| > 0
    requires (o.mine, o.destination) !in travel
    ensures Plan(orders, trucks, travel, reposition).Err?
  {
    var sorted := SortOrders(orders);
    SortedOrdersTracked(orders);
    SortKeepsIdsUnique(orders);
    InSorted(orders, o);
    InitialRemainingOfUnique(orders, o);
    var i :| 0 <= i < |sorted| && sorted[i] == o;
    PlanFromAbortsOnMissingHaul(sorted, InitialRemaining(orders), trucks, InitialFleet(trucks), travel, reposition, i);
  }

  /** With no trucks nothing is dispatched, and the run cannot fail. */
  lemma EmptyFleetPlansNothing(orders: seq<Order>, travel: DurationTable, reposition: DurationTable)
    ensures Plan(orders, [], travel, reposition) == Ok([])
  {
    SortedOrdersTracked(orders);
    PlanFromNoTrucks(SortOrders(orders), InitialRemaining(orders), InitialFleet([]), travel, reposition);
  }

  /** The order the sort serves first, if it has tons to move and there is a
      truck, receives the first dispatch of the run. */
  lemma FirstDispatchServesFirstOrder(orders: seq<Order>, trucks: seq<Truck>,
                                      travel: DurationTable, reposition: DurationTable, i: int)
    requires CapacitiesPositive(trucks) && UniqueOrderIds(orders)
    requires 0 <= i < |orders| && orders[i].tons > 0 && |trucks| > 0
    requires forall j :: 0 <= j < |orders| && j != i ==> ServedEarlier(orders, i, j)
    ensures var r := Plan(orders, trucks, travel, reposition);
      r.Ok? ==> |r.value| > 0 && r.value[0].orderId == orders[i].id
  {
    var r := Plan(orders, trucks, travel, reposition);
    if r.Ok? {
      var ds := r.value;
      AssignedTonsPerOrder(orders, trucks, travel, reposition, orders[i]);
      SumTonsPositive(ds, orders[i].id);
      var a :| 0 <= a < |ds| && ds[a].orderId == orders[i].id;
      DispatchesCarried(orders, trucks, travel, reposition);
      assert ds[0] in ds;
      var o :| o in orders && o.id == ds[0].orderId;
      var j :| 0 <= j < |orders| && orders[j] == o;
      if j != i {
        EarlierServedDispatchedFirst(orders, trucks, travel, reposition, i, j, a, 0);
      }
    }
  }
}
