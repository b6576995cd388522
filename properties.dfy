/** What the plan promises: tonnage bounds, full delivery when trucks exist,
    trips of one truck that never overlap, dispatches grouped in sorted order,
    and failure exactly on an undefined route. */
module PlanProperties {
  import opened Records
  import opened Routes
  import opened Scoring
  import opened OrderSort
  import opened Planner

  /** The tons assigned to order `id` over a sequence of dispatches. */
  function SumTons(ds: seq<Dispatch>, id: string): int {
    if ds == [] then 0
    else (if ds[0].orderId == id then ds[0].assignedTons else 0) + SumTons(ds[1..], id)
  }

  lemma {:induction false} SumTonsAppend(a: seq<Dispatch>, b: seq<Dispatch>, id: string)
    ensures SumTons(a + b, id) == SumTons(a, id) + SumTons(b, id)
  {
    if a == [] {
      assert a + b == b;
    } else {
      assert (a + b)[1..] == a[1..] + b;
      SumTonsAppend(a[1..], b, id);
    }
  }

  lemma {:induction false} SumTonsOfOthers(ds: seq<Dispatch>, id: string)
    requires forall d :: d in ds ==> d.orderId != id
    ensures SumTons(ds, id) == 0
  {
    if ds != [] {
      assert ds[0] in ds;
      assert forall d :: d in ds[1..] ==> d in ds;
      SumTonsOfOthers(ds[1..], id);
    }
  }

  /** An order with tons assigned has a dispatch. */
  lemma {:induction false} SumTonsPositive(ds: seq<Dispatch>, id: string)
    requires SumTons(ds, id) > 0
    ensures exists a :: 0 <= a < |ds| && ds[a].orderId == id
  {
    if ds[0].orderId != id {
      SumTonsPositive(ds[1..], id);
      var a :| 0 <= a < |ds[1..]| && ds[1..][a].orderId == id;
      assert ds[a + 1] == ds[1..][a];
    }
  }

  /** At least one ton, and no more than some truck with the dispatch's id can carry. */
  predicate Carried(d: Dispatch, trucks: seq<Truck>) {
    && d.assignedTons >= 1
    && exists t :: t in trucks && t.id == d.truckId && d.assignedTons <= t.capacityTons
  }

  /** What is left of an order's demand after the `while` loop: nothing when
      there are trucks, everything when there are none. */
  function Delivered(remaining: int, trucks: seq<Truck>): int {
    if remaining > 0 && |trucks| > 0 then remaining else 0
  }

  /** Serving one order: every dispatch is for that order, carries at least
      one ton and no more than the capacity of the truck it names. */
  lemma {:induction false} FillOrderCarried(order: Order, remaining: map<string, int>, trucks: seq<Truck>,
                                            fleet: Fleet, travel: DurationTable, reposition: DurationTable)
    requires order.id in remaining
    requires Tracked(trucks, fleet)
    requires CapacitiesPositive(trucks)
    ensures var r := FillOrder(order, remaining, trucks, fleet, travel, reposition);
      r.Ok? ==> forall d :: d in r.value.dispatches ==> d.orderId == order.id && Carried(d, trucks)
    decreases if remaining[order.id] > 0 then remaining[order.id] else 0
  {
    var r := FillOrder(order, remaining, trucks, fleet, travel, reposition);
    if remaining[order.id] > 0 && r.Ok? {
      var step := Step(order, remaining, trucks, fleet, travel, reposition);
      if step.value.Some? {
        var p := step.value.value;
        StepProgress(order, remaining, trucks, fleet, travel, reposition);
        assert trucks[p.chosen] in trucks;
        assert Carried(p.dispatch, trucks);
        FillOrderCarried(order, p.remaining, trucks, p.fleet, travel, reposition);
        var rest := FillOrder(order, p.remaining, trucks, p.fleet, travel, reposition).value;
        assert r.value.dispatches == [p.dispatch] + rest.dispatches;
      }
    }
  }

  /** Serving one order: the dispatches carry exactly what remained of it,
      or nothing when there is no truck. */
  lemma {:induction false} FillOrderTonnage(order: Order, remaining: map<string, int>, trucks: seq<Truck>,
                                            fleet: Fleet, travel: DurationTable, reposition: DurationTable)
    requires order.id in remaining
    requires Tracked(trucks, fleet)
    requires CapacitiesPositive(trucks)
    ensures var r := FillOrder(order, remaining, trucks, fleet, travel, reposition);
      r.Ok? ==> SumTons(r.value.dispatches, order.id) == Delivered(remaining[order.id], trucks)
    decreases if remaining[order.id] > 0 then remaining[order.id] else 0
  {
    var r := FillOrder(order, remaining, trucks, fleet, travel, reposition);
    if remaining[order.id] > 0 && r.Ok? {
      var step := Step(order, remaining, trucks, fleet, travel, reposition);
      if step.value.Some? {
        var p := step.value.value;
        StepProgress(order, remaining, trucks, fleet, travel, reposition);
        FillOrderTonnage(order, p.remaining, trucks, p.fleet, travel, reposition);
        var rest := FillOrder(order, p.remaining, trucks, p.fleet, travel, reposition).value;
        assert r.value.dispatches == [p.dispatch] + rest.dispatches;
        SumTonsAppend([p.dispatch], rest.dispatches, order.id);
      }
    }
  }

  /** No two trips of one truck overlap: a later trip is picked up no
      earlier than an earlier trip arrives. */
  predicate NoOverlap(ds: seq<Dispatch>) {
    forall a, b :: 0 <= a < b < |ds| && ds[a].truckId == ds[b].truckId ==> ds[a].etaHour <= ds[b].pickupHour
  }

  /** A trip that ends before every later trip of its truck starts can go in front. */
  lemma NoOverlapCons(d: Dispatch, rest: seq<Dispatch>)
    requires NoOverlap(rest)
    requires forall e :: e in rest && e.truckId == d.truckId ==> d.etaHour <= e.pickupHour
    ensures NoOverlap([d] + rest)
  {
    var ds := [d] + rest;
    forall a, b | 0 <= a < b < |ds| && ds[a].truckId == ds[b].truckId
      ensures ds[a].etaHour <= ds[b].pickupHour
    {
      assert ds[b] == rest[b - 1];
      if a > 0 {
        assert ds[a] == rest[a - 1];
      }
    }
  }

  /** One pass of the loop: the trip starts when the truck is free or later,
      arrives no earlier than it starts, and the truck is next free at the
      arrival; no other truck changes. */
  lemma StepTiming(order: Order, remaining: map<string, int>, trucks: seq<Truck>,
                   fleet: Fleet, travel: DurationTable, reposition: DurationTable)
    requires order.id in remaining
    requires Tracked(trucks, fleet)
    requires Step(order, remaining, trucks, fleet, travel, reposition).Ok?
    requires Step(order, remaining, trucks, fleet, travel, reposition).value.Some?
    ensures var p := Step(order, remaining, trucks, fleet, travel, reposition).value.value;
      var d := p.dispatch;
      && d.truckId in fleet
      && fleet[d.truckId].availableHour <= d.pickupHour <= d.etaHour
      && p.fleet.Keys == fleet.Keys
      && p.fleet[d.truckId].availableHour == d.etaHour
      && (forall id :: id in fleet ==> fleet[id].availableHour <= p.fleet[id].availableHour)
  {
    var p := Step(order, remaining, trucks, fleet, travel, reposition).value.value;
    assert trucks[p.chosen] in trucks;
  }

  /** Serving one order: each trip starts no earlier than its truck is free,
      arrives no earlier than it starts, and leaves the truck free no earlier
      than its arrival; trucks' free hours only move forward. */
  lemma {:induction false} FillOrderHours(order: Order, remaining: map<string, int>, trucks: seq<Truck>,
                                          fleet: Fleet, travel: DurationTable, reposition: DurationTable)
    requires order.id in remaining
    requires Tracked(trucks, fleet)
    requires CapacitiesPositive(trucks)
    ensures var r := FillOrder(order, remaining, trucks, fleet, travel, reposition);
      r.Ok? ==>
        && (forall id :: id in fleet ==> fleet[id].availableHour <= r.value.fleet[id].availableHour)
        && (forall d :: d in r.value.dispatches ==>
              && d.truckId in fleet
              && fleet[d.truckId].availableHour <= d.pickupHour <= d.etaHour
              && d.etaHour <= r.value.fleet[d.truckId].availableHour)
    decreases if remaining[order.id] > 0 then remaining[order.id] else 0
  {
    var r := FillOrder(order, remaining, trucks, fleet, travel, reposition);
    if remaining[order.id] > 0 && r.Ok? {
      var step := Step(order, remaining, trucks, fleet, travel, reposition);
      if step.value.Some? {
        var p := step.value.value;
        StepTiming(order, remaining, trucks, fleet, travel, reposition);
        FillOrderHours(order, p.remaining, trucks, p.fleet, travel, reposition);
        var rest := FillOrder(order, p.remaining, trucks, p.fleet, travel, reposition).value;
        assert r.value.dispatches == [p.dispatch] + rest.dispatches;
        assert r.value.fleet == rest.fleet;
        forall id | id in fleet
          ensures fleet[id].availableHour <= rest.fleet[id].availableHour
        {
          assert id in p.fleet;
        }
        forall d | d in r.value.dispatches
          ensures && d.truckId in fleet
                  && fleet[d.truckId].availableHour <= d.pickupHour <= d.etaHour
                  && d.etaHour <= rest.fleet[d.truckId].availableHour
        {
          if d == p.dispatch {
            assert d.truckId in p.fleet;
          } else {
            assert d in rest.dispatches;
          }
        }
      }
    }
  }

  /** Serving one order never gives a truck two overlapping trips. */
  lemma {:induction false} FillOrderNoOverlap(order: Order, remaining: map<string, int>, trucks: seq<Truck>,
                                              fleet: Fleet, travel: DurationTable, reposition: DurationTable)
    requires order.id in remaining
    requires Tracked(trucks, fleet)
    requires CapacitiesPositive(trucks)
    ensures var r := FillOrder(order, remaining, trucks, fleet, travel, reposition);
      r.Ok? ==> NoOverlap(r.value.dispatches)
    decreases if remaining[order.id] > 0 then remaining[order.id] else 0
  {
    var r := FillOrder(order, remaining, trucks, fleet, travel, reposition);
    if remaining[order.id] > 0 && r.Ok? {
      var step := Step(order, remaining, trucks, fleet, travel, reposition);
      if step.value.Some? {
        var p := step.value.value;
        var d := p.dispatch;
        StepTiming(order, remaining, trucks, fleet, travel, reposition);
        FillOrderNoOverlap(order, p.remaining, trucks, p.fleet, travel, reposition);
        FillOrderHours(order, p.remaining, trucks, p.fleet, travel, reposition);
        var rest := FillOrder(order, p.remaining, trucks, p.fleet, travel, reposition).value;
        forall e | e in rest.dispatches && e.truckId == d.truckId
          ensures d.etaHour <= e.pickupHour
        {
        }
        NoOverlapCons(d, rest.dispatches);
        assert r.value.dispatches == [d] + rest.dispatches;
      }
    }
  }

  /** Two dispatch sequences can be joined without overlap when every trip of
      the first ends before any trip of the same truck in the second starts. */
  lemma NoOverlapAppend(a: seq<Dispatch>, b: seq<Dispatch>)
    requires NoOverlap(a) && NoOverlap(b)
    requires forall x, y :: x in a && y in b && x.truckId == y.truckId ==> x.etaHour <= y.pickupHour
    ensures NoOverlap(a + b)
  {
    var ds := a + b;
    forall i, j | 0 <= i < j < |ds| && ds[i].truckId == ds[j].truckId
      ensures ds[i].etaHour <= ds[j].pickupHour
    {
      if j < |a| {
        assert ds[i] == a[i] && ds[j] == a[j];
      } else if i >= |a| {
        assert ds[i] == b[i - |a|] && ds[j] == b[j - |a|];
      } else {
        assert ds[i] == a[i] && ds[j] == b[j - |a|];
        assert a[i] in a && b[j - |a|] in b;
      }
    }
  }

  /** The orders after the first keep distinct ids, none of them the first's. */
  lemma UniqueTail(os: seq<Order>)
    requires UniqueOrderIds(os) && |os| > 0
    ensures UniqueOrderIds(os[1..])
    ensures forall x :: x in os[1..] ==> x in os && x.id != os[0].id
  {
    forall x | x in os[1..] ensures x.id != os[0].id {
      var m :| 0 <= m < |os[1..]| && os[1..][m] == x;
      assert os[m + 1] == x;
    }
  }

  /** The position of the first order with id `id`, or |os| when there is none. */
  function Rank(os: seq<Order>, id: string): (r: nat)
    ensures r <= |os|
    ensures r < |os| ==> os[r].id == id && forall i :: 0 <= i < r ==> os[i].id != id
    ensures r == |os| ==> forall i :: 0 <= i < |os| ==> os[i].id != id
  {
    if os == [] then 0
    else if os[0].id == id then 0
    else
      var r := 1 + Rank(os[1..], id);
      assert forall i :: 1 <= i < |os| ==> os[1..][i - 1] == os[i];
      r
  }

  lemma RankCons(x: Order, w: seq<Order>, id: string)
    ensures Rank([x] + w, id) == if x.id == id then 0 else 1 + Rank(w, id)
  {
    assert ([x] + w)[1..] == w;
  }

  lemma RankOfUnique(os: seq<Order>, i: int)
    requires UniqueOrderIds(os) && 0 <= i < |os|
    ensures Rank(os, os[i].id) == i
  {
  }

  /** The `for order in sorted_orders` loop from any point on: every
      dispatch belongs to one of the orders still to come and is within a
      truck's capacity. */
  lemma {:induction false} PlanFromCarried(os: seq<Order>, remaining: map<string, int>, trucks: seq<Truck>,
                                           fleet: Fleet, travel: DurationTable, reposition: DurationTable)
    requires forall o :: o in os ==> o.id in remaining
    requires Tracked(trucks, fleet)
    requires CapacitiesPositive(trucks)
    ensures var r := PlanFrom(os, remaining, trucks, fleet, travel, reposition);
      r.Ok? ==> forall d :: d in r.value ==> Rank(os, d.orderId) < |os| && Carried(d, trucks)
  {
    var r := PlanFrom(os, remaining, trucks, fleet, travel, reposition);
    if os != [] && r.Ok? {
      var o := os[0];
      FillOrderCarried(o, remaining, trucks, fleet, travel, reposition);
      var f := FillOrder(o, remaining, trucks, fleet, travel, reposition).value;
      var tail := os[1..];
      assert forall x :: x in tail ==> x in os;
      PlanFromCarried(tail, f.remaining, trucks, f.fleet, travel, reposition);
      var rest := PlanFrom(tail, f.remaining, trucks, f.fleet, travel, reposition).value;
      assert r.value == f.dispatches + rest;
      forall d | d in rest ensures Rank(os, d.orderId) < |os| {
        assert Rank(os, d.orderId) <= 1 + Rank(tail, d.orderId);
      }
    }
  }

  /** From any point on, each order still to come receives exactly what
      remained of it, or nothing when there is no truck. */
  lemma {:induction false} PlanFromTonnage(os: seq<Order>, remaining: map<string, int>, trucks: seq<Truck>,
                                           fleet: Fleet, travel: DurationTable, reposition: DurationTable)
    requires forall o :: o in os ==> o.id in remaining
    requires Tracked(trucks, fleet)
    requires CapacitiesPositive(trucks)
    requires UniqueOrderIds(os)
    ensures var r := PlanFrom(os, remaining, trucks, fleet, travel, reposition);
      r.Ok? ==> forall i :: 0 <= i < |os| ==>
        SumTons(r.value, os[i].id) == Delivered(remaining[os[i].id], trucks)
  {
    var r := PlanFrom(os, remaining, trucks, fleet, travel, reposition);
    if os != [] && r.Ok? {
      var o := os[0];
      FillOrderCarried(o, remaining, trucks, fleet, travel, reposition);
      FillOrderTonnage(o, remaining, trucks, fleet, travel, reposition);
      var f := FillOrder(o, remaining, trucks, fleet, travel, reposition).value;
      var tail := os[1..];
      UniqueTail(os);
      PlanFromCarried(tail, f.remaining, trucks, f.fleet, travel, reposition);
      PlanFromTonnage(tail, f.remaining, trucks, f.fleet, travel, reposition);
      var rest := PlanFrom(tail, f.remaining, trucks, f.fleet, travel, reposition).value;
      assert r.value == f.dispatches + rest;
      forall i | 0 <= i < |os|
        ensures SumTons(r.value, os[i].id) == Delivered(remaining[os[i].id], trucks)
      {
        SumTonsAppend(f.dispatches, rest, os[i].id);
        if i == 0 {
          forall d | d in rest ensures d.orderId != o.id {
            assert tail[Rank(tail, d.orderId)] in tail;
          }
          SumTonsOfOthers(rest, o.id);
        } else {
          assert tail[i - 1] == os[i];
          SumTonsOfOthers(f.dispatches, os[i].id);
        }
      }
    }
  }

  /** Dispatches come in the order of `os`: none of an order precedes one of
      an order earlier in `os`. */
  predicate GroupedBy(ds: seq<Dispatch>, os: seq<Order>) {
    forall a, b :: 0 <= a < b < |ds| ==> Rank(os, ds[a].orderId) <= Rank(os, ds[b].orderId)
  }

  lemma GroupedAppend(os: seq<Order>, first: seq<Dispatch>, rest: seq<Dispatch>)
    requires |os| > 0
    requires forall d :: d in first ==> d.orderId == os[0].id
    requires forall d :: d in rest ==> Rank(os, d.orderId) == 1 + Rank(os[1..], d.orderId)
    requires GroupedBy(rest, os[1..])
    ensures GroupedBy(first + rest, os)
  {
    var ds := first + rest;
    forall a, b | 0 <= a < b < |ds| ensures Rank(os, ds[a].orderId) <= Rank(os, ds[b].orderId) {
      if a < |first| {
        assert ds[a] == first[a] && ds[a] in first;
      } else {
        assert ds[a] == rest[a - |first|] && ds[a] in rest;
        assert ds[b] == rest[b - |first|] && ds[b] in rest;
      }
    }
  }

  /** Dispatches come grouped by order, in the order the orders are served. */
  lemma {:induction false} PlanFromGrouped(os: seq<Order>, remaining: map<string, int>, trucks: seq<Truck>,
                                           fleet: Fleet, travel: DurationTable, reposition: DurationTable)
    requires forall o :: o in os ==> o.id in remaining
    requires Tracked(trucks, fleet)
    requires CapacitiesPositive(trucks)
    requires UniqueOrderIds(os)
    ensures var r := PlanFrom(os, remaining, trucks, fleet, travel, reposition);
      r.Ok? ==> GroupedBy(r.value, os)
  {
    var r := PlanFrom(os, remaining, trucks, fleet, travel, reposition);
    if os != [] && r.Ok? {
      var o := os[0];
      FillOrderCarried(o, remaining, trucks, fleet, travel, reposition);
      var f := FillOrder(o, remaining, trucks, fleet, travel, reposition).value;
      var tail := os[1..];
      UniqueTail(os);
      PlanFromGrouped(tail, f.remaining, trucks, f.fleet, travel, reposition);
      PlanFromCarried(tail, f.remaining, trucks, f.fleet, travel, reposition);
      var rest := PlanFrom(tail, f.remaining, trucks, f.fleet, travel, reposition).value;
      forall d | d in rest ensures Rank(os, d.orderId) == 1 + Rank(tail, d.orderId) {
        var k := Rank(tail, d.orderId);
        assert tail[k] == os[k + 1];
      }
      GroupedAppend(os, f.dispatches, rest);
      assert r.value == f.dispatches + rest;
    }
  }

  /** Over the whole run each trip starts no earlier than its truck was free
      when the run reached it, and arrives no earlier than it starts. */
  lemma {:induction false} PlanFromHours(os: seq<Order>, remaining: map<string, int>, trucks: seq<Truck>,
                                         fleet: Fleet, travel: DurationTable, reposition: DurationTable)
    requires forall o :: o in os ==> o.id in remaining
    requires Tracked(trucks, fleet)
    requires CapacitiesPositive(trucks)
    ensures var r := PlanFrom(os, remaining, trucks, fleet, travel, reposition);
      r.Ok? ==> forall d :: d in r.value ==>
        d.truckId in fleet && fleet[d.truckId].availableHour <= d.pickupHour <= d.etaHour
  {
    var r := PlanFrom(os, remaining, trucks, fleet, travel, reposition);
    if os != [] && r.Ok? {
      var o := os[0];
      FillOrderHours(o, remaining, trucks, fleet, travel, reposition);
      var f := FillOrder(o, remaining, trucks, fleet, travel, reposition).value;
      var tail := os[1..];
      assert forall x :: x in tail ==> x in os;
      PlanFromHours(tail, f.remaining, trucks, f.fleet, travel, reposition);
      var rest := PlanFrom(tail, f.remaining, trucks, f.fleet, travel, reposition).value;
      assert r.value == f.dispatches + rest;
      forall d | d in rest ensures d.truckId in fleet && fleet[d.truckId].availableHour <= d.pickupHour {
        assert d.truckId in f.fleet;
      }
    }
  }

  /** Over the whole run no truck is given two overlapping trips. */
  lemma {:induction false} PlanFromNoOverlap(os: seq<Order>, remaining: map<string, int>, trucks: seq<Truck>,
                                             fleet: Fleet, travel: DurationTable, reposition: DurationTable)
    requires forall o :: o in os ==> o.id in remaining
    requires Tracked(trucks, fleet)
    requires CapacitiesPositive(trucks)
    ensures var r := PlanFrom(os, remaining, trucks, fleet, travel, reposition);
      r.Ok? ==> NoOverlap(r.value)
  {
    var r := PlanFrom(os, remaining, trucks, fleet, travel, reposition);
    if os != [] && r.Ok? {
      var o := os[0];
      FillOrderHours(o, remaining, trucks, fleet, travel, reposition);
      FillOrderNoOverlap(o, remaining, trucks, fleet, travel, reposition);
      var f := FillOrder(o, remaining, trucks, fleet, travel, reposition).value;
      var tail := os[1..];
      assert forall x :: x in tail ==> x in os;
      PlanFromHours(tail, f.remaining, trucks, f.fleet, travel, reposition);
      PlanFromNoOverlap(tail, f.remaining, trucks, f.fleet, travel, reposition);
      var rest := PlanFrom(tail, f.remaining, trucks, f.fleet, travel, reposition).value;
      NoOverlapAppend(f.dispatches, rest);
      assert r.value == f.dispatches + rest;
    }
  }

  /** The failed lookup names a route the order needs: its haul route, or a
      repositioning route into its mine, missing from the table it was looked up in. */
  predicate MissingRouteOf(e: RouteError, order: Order, travel: DurationTable, reposition: DurationTable) {
    match e.table
    case Haul =>
      e.origin == order.mine && e.destination == order.destination && (e.origin, e.destination) !in travel
    case Reposition =>
      e.destination == order.mine && (e.origin, e.destination) !in reposition
  }

  /** Serving one order fails only on a missing route of that order. */
  lemma {:induction false} FillOrderFails(order: Order, remaining: map<string, int>, trucks: seq<Truck>,
                                          fleet: Fleet, travel: DurationTable, reposition: DurationTable)
    requires order.id in remaining
    requires Tracked(trucks, fleet)
    requires CapacitiesPositive(trucks)
    ensures var r := FillOrder(order, remaining, trucks, fleet, travel, reposition);
      r.Err? ==> MissingRouteOf(r.error, order, travel, reposition)
    decreases if remaining[order.id] > 0 then remaining[order.id] else 0
  {
    var r := FillOrder(order, remaining, trucks, fleet, travel, reposition);
    if remaining[order.id] > 0 && r.Err? {
      var step := Step(order, remaining, trucks, fleet, travel, reposition);
      if step.Err? {
        StepFailure(order, remaining, trucks, fleet, travel, reposition);
        var j :| 0 <= j < |trucks| && FirstFailure(order, trucks, fleet, travel, reposition, j)
                 && step.error == Evaluate(order, remaining[order.id], trucks[j], fleet[trucks[j].id], travel, reposition).error;
      } else if step.value.Some? {
        var p := step.value.value;
        FillOrderFails(order, p.remaining, trucks, p.fleet, travel, reposition);
      }
    }
  }

  /** The run fails only on a missing route of one of the orders. */
  lemma {:induction false} PlanFromFails(os: seq<Order>, remaining: map<string, int>, trucks: seq<Truck>,
                                         fleet: Fleet, travel: DurationTable, reposition: DurationTable)
    requires forall o :: o in os ==> o.id in remaining
    requires Tracked(trucks, fleet)
    requires CapacitiesPositive(trucks)
    ensures var r := PlanFrom(os, remaining, trucks, fleet, travel, reposition);
      r.Err? ==> exists o :: o in os && MissingRouteOf(r.error, o, travel, reposition)
  {
    var r := PlanFrom(os, remaining, trucks, fleet, travel, reposition);
    if os != [] && r.Err? {
      FillOrderFails(os[0], remaining, trucks, fleet, travel, reposition);
      var fr := FillOrder(os[0], remaining, trucks, fleet, travel, reposition);
      if fr.Ok? {
        var tail := os[1..];
        assert forall x :: x in tail ==> x in os;
        PlanFromFails(tail, fr.value.remaining, trucks, fr.value.fleet, travel, reposition);
      }
    }
  }

  /** Every truck of the fleet stands at one of the locations `locs`. */
  predicate Within(fleet: Fleet, locs: set<string>) {
    forall id :: id in fleet ==> fleet[id].location in locs
  }

  /** Every order's mine is one of `locs`, its haul route is known, and
      every location of `locs` has a known repositioning route to it. */
  predicate Reachable(os: seq<Order>, locs: set<string>, travel: DurationTable, reposition: DurationTable) {
    forall o :: o in os ==>
      && o.mine in locs
      && (o.mine, o.destination) in travel
      && forall l :: l in locs ==> (l, o.mine) in reposition
  }

  /** With every route an order can need known, serving it succeeds, and
      the trucks stay within the known locations. */
  lemma {:induction false} FillOrderSucceeds(order: Order, remaining: map<string, int>, trucks: seq<Truck>,
                                             fleet: Fleet, travel: DurationTable, reposition: DurationTable,
                                             locs: set<string>)
    requires order.id in remaining
    requires Tracked(trucks, fleet)
    requires CapacitiesPositive(trucks)
    requires Within(fleet, locs)
    requires Reachable([order], locs, travel, reposition)
    ensures var r := FillOrder(order, remaining, trucks, fleet, travel, reposition);
      r.Ok? && Within(r.value.fleet, locs)
    decreases if remaining[order.id] > 0 then remaining[order.id] else 0
  {
    assert order in [order];
    if remaining[order.id] > 0 {
      assert RoutesKnown(order, trucks, fleet, travel, reposition);
      var step := Step(order, remaining, trucks, fleet, travel, reposition);
      if step.value.Some? {
        var p := step.value.value;
        assert Within(p.fleet, locs);
        FillOrderSucceeds(order, p.remaining, trucks, p.fleet, travel, reposition, locs);
      }
    }
  }

  /** With every route the orders can need known, the run succeeds. */
  lemma {:induction false} PlanFromSucceeds(os: seq<Order>, remaining: map<string, int>, trucks: seq<Truck>,
                                            fleet: Fleet, travel: DurationTable, reposition: DurationTable,
                                            locs: set<string>)
    requires forall o :: o in os ==> o.id in remaining
    requires Tracked(trucks, fleet)
    requires CapacitiesPositive(trucks)
    requires Within(fleet, locs)
    requires Reachable(os, locs, travel, reposition)
    ensures PlanFrom(os, remaining, trucks, fleet, travel, reposition).Ok?
  {
    if os != [] {
      var o := os[0];
      assert o in os;
      assert Reachable([o], locs, travel, reposition);
      FillOrderSucceeds(o, remaining, trucks, fleet, travel, reposition, locs);
      var f := FillOrder(o, remaining, trucks, fleet, travel, reposition).value;
      var tail := os[1..];
      assert forall x :: x in tail ==> x in os;
      PlanFromSucceeds(tail, f.remaining, trucks, f.fleet, travel, reposition, locs);
    }
  }

  lemma FillOrderAbortsOnMissingHaul(order: Order, remaining: map<string, int>, trucks: seq<Truck>,
                                     fleet: Fleet, travel: DurationTable, reposition: DurationTable)
    requires order.id in remaining
    requires Tracked(trucks, fleet)
    requires CapacitiesPositive(trucks)
    requires |trucks| > 0 && remaining[order.id] > 0
    requires (order.mine, order.destination) !in travel
    ensures FillOrder(order, remaining, trucks, fleet, travel, reposition).Err?
  {
    assert trucks[0] in trucks;
    assert !RoutesKnown(order, trucks, fleet, travel, reposition);
  }

  /** An order with tons still to move whose haul route is missing aborts the
      run, as soon as there is any truck. */
  lemma {:induction false} PlanFromAbortsOnMissingHaul(os: seq<Order>, remaining: map<string, int>, trucks: seq<Truck>,
                                                       fleet: Fleet, travel: DurationTable, reposition: DurationTable,
                                                       i: int)
    requires forall o :: o in os ==> o.id in remaining
    requires Tracked(trucks, fleet)
    requires CapacitiesPositive(trucks)
    requires UniqueOrderIds(os)
    requires 0 <= i < |os| && |trucks| > 0
    requires remaining[os[i].id] > 0
    requires (os[i].mine, os[i].destination) !in travel
    ensures PlanFrom(os, remaining, trucks, fleet, travel, reposition).Err?
  {
    var o := os[0];
    var fr := FillOrder(o, remaining, trucks, fleet, travel, reposition);
    if i == 0 {
      FillOrderAbortsOnMissingHaul(o, remaining, trucks, fleet, travel, reposition);
    } else if fr.Ok? {
      var tail := os[1..];
      UniqueTail(os);
      assert tail[i - 1] == os[i];
      PlanFromAbortsOnMissingHaul(tail, fr.value.remaining, trucks, fr.value.fleet, travel, reposition, i - 1);
    }
  }

  /** With no trucks the run dispatches nothing and looks up no route. */
  lemma {:induction false} PlanFromNoTrucks(os: seq<Order>, remaining: map<string, int>, fleet: Fleet,
                                            travel: DurationTable, reposition: DurationTable)
    requires forall o :: o in os ==> o.id in remaining
    ensures PlanFrom(os, remaining, [], fleet, travel, reposition) == Ok([])
  {
    if os != [] {
      assert Step(os[0], remaining, [], fleet, travel, reposition) == Ok(None);
      assert FillOrder(os[0], remaining, [], fleet, travel, reposition) == Ok(Filled([], remaining, fleet));
      assert forall x :: x in os[1..] ==> x in os;
      PlanFromNoTrucks(os[1..], remaining, fleet, travel, reposition);
      var none: seq<Dispatch> := [];
      assert none + none == none;
    }
  }
}
