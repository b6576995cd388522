/** `dispatch_orders`: the greedy planner. The functions below define, step by
    step, what the planner computes; the methods SelectTruck and
    DispatchOrders are the loops of the source, proved to compute it. */
module Planner {
  import opened Records
  import opened Routes
  import opened Scoring
  import opened OrderSort

  /** The planner's record of a truck under consideration (`best_candidate`). */
  datatype Candidate = Candidate(
    truck: Truck,
    pickupHour: int,
    etaHour: int,
    scoreTenths: int,
    assignTons: int)

  /** Every truck of the list has a state in the fleet. */
  predicate Tracked(trucks: seq<Truck>, fleet: Fleet) {
    forall t :: t in trucks ==> t.id in fleet
  }

  /** Both lookups for a truck in state `st` serving `order` succeed. */
  predicate RouteKnown(order: Order, st: TruckState, travel: DurationTable, reposition: DurationTable) {
    (st.location, order.mine) in reposition && (order.mine, order.destination) in travel
  }

  /** Both lookups succeed for every truck of the list. */
  predicate RoutesKnown(order: Order, trucks: seq<Truck>, fleet: Fleet,
                        travel: DurationTable, reposition: DurationTable)
    requires Tracked(trucks, fleet)
  {
    forall t :: t in trucks ==> RouteKnown(order, fleet[t.id], travel, reposition)
  }

  /** The hour a truck in state `st` would arrive with `order`'s load. */
  function ArrivalHour(order: Order, st: TruckState, travel: DurationTable, reposition: DurationTable): int
    requires RouteKnown(order, st, travel, reposition)
  {
    st.availableHour + reposition[(st.location, order.mine)] + travel[(order.mine, order.destination)]
  }

  /** One pass of the truck loop's body: the truck's pickup hour, arrival
      hour, score and the tons it could carry, or the failed lookup
      (repositioning is looked up first). */
  function Evaluate(order: Order, remaining: int, t: Truck, st: TruckState,
                    travel: DurationTable, reposition: DurationTable): (r: Result<Candidate>)
    ensures r.Ok? <==> RouteKnown(order, st, travel, reposition)
    ensures r.Ok? ==>
      && r.value.truck == t
      && r.value.pickupHour == st.availableHour + reposition[(st.location, order.mine)]
      && r.value.etaHour == r.value.pickupHour + travel[(order.mine, order.destination)]
      && r.value.scoreTenths == ScoreTenths(order, r.value.etaHour)
      && r.value.assignTons == Min(t.capacityTons, remaining)
    ensures r.Err? ==> r.error == if (st.location, order.mine) !in reposition
                                  then UndefinedRoute(Reposition, st.location, order.mine)
                                  else UndefinedRoute(Haul, order.mine, order.destination)
  {
    var toMine :- ToMineTime(reposition, st.location, order.mine);
    var pickupHour := st.availableHour + toMine;
    var trip :- TripTime(travel, order.mine, order.destination);
    var etaHour := pickupHour + trip;
    Ok(Candidate(t, pickupHour, etaHour, ScoreTenths(order, etaHour), Min(t.capacityTons, remaining)))
  }

  /** The evaluation of every truck, in list order, or the first failed lookup. */
  function Candidates(order: Order, remaining: int, trucks: seq<Truck>, fleet: Fleet,
                      travel: DurationTable, reposition: DurationTable): (r: Result<seq<Candidate>>)
    requires Tracked(trucks, fleet)
    ensures r.Ok? <==> RoutesKnown(order, trucks, fleet, travel, reposition)
    ensures r.Ok? ==> |r.value| == |trucks|
    ensures r.Ok? ==> forall j :: 0 <= j < |trucks| ==>
      Evaluate(order, remaining, trucks[j], fleet[trucks[j].id], travel, reposition) == Ok(r.value[j])
  {
    if |trucks| == 0 then Ok([])
    else
      var n := |trucks| - 1;
      var front := trucks[..n];
      FrontOfTrucks(order, trucks, fleet, travel, reposition);
      var init := Candidates(order, remaining, front, fleet, travel, reposition);
      var last := Evaluate(order, remaining, trucks[n], fleet[trucks[n].id], travel, reposition);
      if init.Err? then
        Err(init.error)
      else if last.Err? then
        Err(last.error)
      else
        Ok(init.value + [last.value])
  }

  /** A failed evaluation is the failed lookup of the first truck whose
      routes are not both known. */
  lemma {:induction false} CandidatesFailure(order: Order, remaining: int, trucks: seq<Truck>, fleet: Fleet,
                                             travel: DurationTable, reposition: DurationTable)
    requires Tracked(trucks, fleet)
    ensures var r := Candidates(order, remaining, trucks, fleet, travel, reposition);
      r.Err? ==> exists j :: 0 <= j < |trucks| && FirstFailure(order, trucks, fleet, travel, reposition, j)
                             && r.error == Evaluate(order, remaining, trucks[j], fleet[trucks[j].id], travel, reposition).error
  {
    if |trucks| > 0 {
      var n := |trucks| - 1;
      var front := trucks[..n];
      FrontOfTrucks(order, trucks, fleet, travel, reposition);
      CandidatesFailure(order, remaining, front, fleet, travel, reposition);
      var init := Candidates(order, remaining, front, fleet, travel, reposition);
      if init.Err? {
        var j :| 0 <= j < n && FirstFailure(order, front, fleet, travel, reposition, j)
                 && init.error == Evaluate(order, remaining, front[j], fleet[front[j].id], travel, reposition).error;
        assert front[j] == trucks[j];
      }
    }
  }

  /** How the trucks before the last one relate to the whole list. */
  lemma FrontOfTrucks(order: Order, trucks: seq<Truck>, fleet: Fleet,
                      travel: DurationTable, reposition: DurationTable)
    requires Tracked(trucks, fleet) && |trucks| > 0
    ensures var n := |trucks| - 1;
      && Tracked(trucks[..n], fleet)
      && (forall j :: 0 <= j < n ==> trucks[..n][j] == trucks[j])
      && (RoutesKnown(order, trucks, fleet, travel, reposition) <==>
            RoutesKnown(order, trucks[..n], fleet, travel, reposition)
            && RouteKnown(order, fleet[trucks[n].id], travel, reposition))
      && (forall j :: 0 <= j < n && FirstFailure(order, trucks[..n], fleet, travel, reposition, j) ==>
            FirstFailure(order, trucks, fleet, travel, reposition, j))
      && (RoutesKnown(order, trucks[..n], fleet, travel, reposition)
            && !RouteKnown(order, fleet[trucks[n].id], travel, reposition) ==>
            FirstFailure(order, trucks, fleet, travel, reposition, n))
  {
    var n := |trucks| - 1;
    var front := trucks[..n];
    assert forall j :: 0 <= j < n ==> front[j] == trucks[j];
    assert forall t :: t in front ==> t in trucks;
    assert forall t :: t in trucks ==> t in front || t == trucks[n];
    assert trucks[n] in trucks;
    if RoutesKnown(order, front, fleet, travel, reposition) {
      forall i | 0 <= i < n ensures RouteKnown(order, fleet[trucks[i].id], travel, reposition) {
        assert front[i] in front;
      }
    }
  }

  /** Truck `j` is the first whose lookups fail. */
  predicate FirstFailure(order: Order, trucks: seq<Truck>, fleet: Fleet,
                         travel: DurationTable, reposition: DurationTable, j: int)
    requires Tracked(trucks, fleet)
    requires 0 <= j < |trucks|
  {
    && !RouteKnown(order, fleet[trucks[j].id], travel, reposition)
    && forall i :: 0 <= i < j ==> RouteKnown(order, fleet[trucks[i].id], travel, reposition)
  }

  /** The index the strict `>` scan settles on: the first candidate with the
      highest score. */
  function BestIndex(cands: seq<Candidate>): (k: nat)
    requires |cands| > 0
    ensures k < |cands|
    ensures forall j :: 0 <= j < |cands| ==> cands[j].scoreTenths <= cands[k].scoreTenths
    ensures forall j :: 0 <= j < k ==> cands[j].scoreTenths < cands[k].scoreTenths
  {
    if |cands| == 1 then 0
    else
      var n := |cands| - 1;
      var k := BestIndex(cands[..n]);
      assert forall j :: 0 <= j < n ==> cands[..n][j] == cands[j];
      if cands[n].scoreTenths > cands[k].scoreTenths then n else k
  }

  /** The truck loop's outcome: the best candidate, none when there are no
      trucks, or the first failed lookup. */
  function BestCandidate(order: Order, remaining: int, trucks: seq<Truck>, fleet: Fleet,
                         travel: DurationTable, reposition: DurationTable): Result<Option<Candidate>>
    requires Tracked(trucks, fleet)
  {
    var cands :- Candidates(order, remaining, trucks, fleet, travel, reposition);
    if |cands| == 0 then Ok(None) else Ok(Some(cands[BestIndex(cands)]))
  }

  /** Candidate `j` is truck `j`, scored at its arrival hour. */
  lemma CandidateFields(order: Order, remaining: int, trucks: seq<Truck>, fleet: Fleet,
                        travel: DurationTable, reposition: DurationTable)
    requires Tracked(trucks, fleet)
    requires Candidates(order, remaining, trucks, fleet, travel, reposition).Ok?
    ensures var cands := Candidates(order, remaining, trucks, fleet, travel, reposition).value;
      forall j :: 0 <= j < |trucks| ==>
        && cands[j].truck == trucks[j]
        && RouteKnown(order, fleet[trucks[j].id], travel, reposition)
        && cands[j].etaHour == ArrivalHour(order, fleet[trucks[j].id], travel, reposition)
        && cands[j].scoreTenths == ScoreTenths(order, cands[j].etaHour)
  {
    var cands := Candidates(order, remaining, trucks, fleet, travel, reposition).value;
    forall j | 0 <= j < |trucks|
      ensures RouteKnown(order, fleet[trucks[j].id], travel, reposition)
    {
      assert trucks[j] in trucks;
    }
  }

  /** What one pass of the `while` loop produces: the dispatch, the index of
      the chosen truck in the list, and the new planning state. */
  datatype Progress = Progress(
    chosen: nat,
    dispatch: Dispatch,
    remaining: map<string, int>,
    fleet: Fleet)

  /** One pass of the `while remaining[order.id] > 0` loop: pick the first
      truck with the strictly highest score, dispatch min(capacity, remaining)
      tons on it, and move that truck, and only it, to the mine, free at the
      arrival hour. */
  function Step(order: Order, remaining: map<string, int>, trucks: seq<Truck>, fleet: Fleet,
                travel: DurationTable, reposition: DurationTable): (r: Result<Option<Progress>>)
    requires order.id in remaining
    requires Tracked(trucks, fleet)
    ensures r.Ok? <==> RoutesKnown(order, trucks, fleet, travel, reposition)
    ensures r.Ok? ==> (r.value.None? <==> |trucks| == 0)
    ensures r.Ok? && r.value.Some? ==>
      var p := r.value.value;
      var d := p.dispatch;
      && p.chosen < |trucks|
      && var t := trucks[p.chosen];
      && var st := fleet[t.id];
      && d.orderId == order.id
      && d.truckId == t.id
      && d.assignedTons == Min(t.capacityTons, remaining[order.id])
      && d.pickupHour == st.availableHour + reposition[(st.location, order.mine)]
      && d.etaHour == d.pickupHour + travel[(order.mine, order.destination)]
      && d.scoreTenths == ScoreTenths(order, d.etaHour)
      && p.remaining == remaining[order.id := remaining[order.id] - d.assignedTons]
      && p.fleet == fleet[t.id := TruckState(order.mine, d.etaHour)]
  {
    var cands :- Candidates(order, remaining[order.id], trucks, fleet, travel, reposition);
    if |cands| == 0 then Ok(None)
    else
      var k := BestIndex(cands);
      var c := cands[k];
      Ok(Some(Progress(
        k,
        Dispatch(order.id, c.truck.id, c.assignTons, c.pickupHour, c.etaHour, c.scoreTenths),
        remaining[order.id := remaining[order.id] - c.assignTons],
        fleet[c.truck.id := TruckState(order.mine, c.etaHour)])))
  }

  /** A failed pass is the failed lookup of the first truck whose routes
      are not both known. */
  lemma StepFailure(order: Order, remaining: map<string, int>, trucks: seq<Truck>, fleet: Fleet,
                    travel: DurationTable, reposition: DurationTable)
    requires order.id in remaining
    requires Tracked(trucks, fleet)
    ensures var r := Step(order, remaining, trucks, fleet, travel, reposition);
      r.Err? ==> exists j :: 0 <= j < |trucks| && FirstFailure(order, trucks, fleet, travel, reposition, j)
                             && r.error == Evaluate(order, remaining[order.id], trucks[j], fleet[trucks[j].id], travel, reposition).error
  {
    CandidatesFailure(order, remaining[order.id], trucks, fleet, travel, reposition);
  }

  /** The tie-break of the strict `>`: the chosen truck's score is the
      highest of all trucks, and strictly higher than every truck before it
      in the list. */
  lemma StepPicksFirstBest(order: Order, remaining: map<string, int>, trucks: seq<Truck>, fleet: Fleet,
                           travel: DurationTable, reposition: DurationTable)
    requires order.id in remaining
    requires Tracked(trucks, fleet)
    requires Step(order, remaining, trucks, fleet, travel, reposition).Ok?
    requires Step(order, remaining, trucks, fleet, travel, reposition).value.Some?
    ensures var p := Step(order, remaining, trucks, fleet, travel, reposition).value.value;
      && (forall j :: 0 <= j < |trucks| ==>
            && RouteKnown(order, fleet[trucks[j].id], travel, reposition)
            && ScoreTenths(order, ArrivalHour(order, fleet[trucks[j].id], travel, reposition)) <= p.dispatch.scoreTenths)
      && (forall j :: 0 <= j < p.chosen ==>
            ScoreTenths(order, ArrivalHour(order, fleet[trucks[j].id], travel, reposition)) < p.dispatch.scoreTenths)
  {
    CandidateFields(order, remaining[order.id], trucks, fleet, travel, reposition);
  }

  /** A pass of the loop moves between 1 ton and what remains, and keeps every truck tracked. */
  lemma StepProgress(order: Order, remaining: map<string, int>, trucks: seq<Truck>, fleet: Fleet,
                     travel: DurationTable, reposition: DurationTable)
    requires order.id in remaining && remaining[order.id] > 0
    requires Tracked(trucks, fleet)
    requires CapacitiesPositive(trucks)
    requires Step(order, remaining, trucks, fleet, travel, reposition).Ok?
    requires Step(order, remaining, trucks, fleet, travel, reposition).value.Some?
    ensures var p := Step(order, remaining, trucks, fleet, travel, reposition).value.value;
      && 1 <= p.dispatch.assignedTons <= remaining[order.id]
      && p.remaining == remaining[order.id := remaining[order.id] - p.dispatch.assignedTons]
      && p.fleet.Keys == fleet.Keys
      && Tracked(trucks, p.fleet)
  {
    var p := Step(order, remaining, trucks, fleet, travel, reposition).value.value;
    assert trucks[p.chosen] in trucks;
  }

  /** The state the `while` loop leaves behind for one order. */
  datatype Filled = Filled(dispatches: seq<Dispatch>, remaining: map<string, int>, fleet: Fleet)

  /** The `while remaining[order.id] > 0` loop for one order: Step until
      nothing remains or no truck exists. Only the order's own entry of
      `remaining` changes, and it ends at zero whenever there are trucks. */
  function FillOrder(order: Order, remaining: map<string, int>, trucks: seq<Truck>, fleet: Fleet,
                     travel: DurationTable, reposition: DurationTable): (r: Result<Filled>)
    requires order.id in remaining
    requires Tracked(trucks, fleet)
    requires CapacitiesPositive(trucks)
    ensures r.Ok? ==> r.value.remaining == remaining[order.id :=
      if remaining[order.id] > 0 && |trucks| > 0 then 0 else remaining[order.id]]
    ensures r.Ok? ==> r.value.fleet.Keys == fleet.Keys
    decreases if remaining[order.id] > 0 then remaining[order.id] else 0
  {
    if remaining[order.id] <= 0 then
      UpdateSame(remaining, order.id);
      Ok(Filled([], remaining, fleet))
    else
      var step :- Step(order, remaining, trucks, fleet, travel, reposition);
      match step
      case None =>
        UpdateSame(remaining, order.id);
        Ok(Filled([], remaining, fleet))
      case Some(p) =>
        StepProgress(order, remaining, trucks, fleet, travel, reposition);
        UpdateTwice(remaining, order.id, remaining[order.id] - p.dispatch.assignedTons, 0);
        var rest :- FillOrder(order, p.remaining, trucks, p.fleet, travel, reposition);
        Ok(Filled([p.dispatch] + rest.dispatches, rest.remaining, rest.fleet))
  }

  lemma UpdateSame<K, V>(m: map<K, V>, k: K)
    requires k in m
    ensures m[k := m[k]] == m
  {
  }

  lemma UpdateTwice<K, V>(m: map<K, V>, k: K, v1: V, v2: V)
    ensures m[k := v1][k := v2] == m[k := v2]
  {
  }

  /** The `for order in sorted_orders` loop from a given point on: the
      dispatches of each order in turn, or the first failed lookup. */
  function PlanFrom(os: seq<Order>, remaining: map<string, int>, trucks: seq<Truck>, fleet: Fleet,
                    travel: DurationTable, reposition: DurationTable): Result<seq<Dispatch>>
    requires forall o :: o in os ==> o.id in remaining
    requires Tracked(trucks, fleet)
    requires CapacitiesPositive(trucks)
  {
    if os == [] then Ok([])
    else
      var f :- FillOrder(os[0], remaining, trucks, fleet, travel, reposition);
      var rest :- PlanFrom(os[1..], f.remaining, trucks, f.fleet, travel, reposition);
      Ok(f.dispatches + rest)
  }

  function OrderIds(orders: seq<Order>): set<string> {
    set o | o in orders :: o.id
  }

  function TruckIds(trucks: seq<Truck>): set<string> {
    set t | t in trucks :: t.id
  }

  /** `remaining = {o.id: o.tons for o in orders}`: one entry per order id;
      a later order overwrites an earlier one with the same id. */
  function InitialRemaining(orders: seq<Order>): (r: map<string, int>)
    ensures r.Keys == OrderIds(orders)
  {
    if orders == [] then map[]
    else
      var n := |orders| - 1;
      assert orders == orders[..n] + [orders[n]];
      InitialRemaining(orders[..n])[orders[n].id := orders[n].tons]
  }

  /** `mutable_trucks`: each truck id starts at its truck's location and
      available hour; a later truck overwrites an earlier one with the same id. */
  function InitialFleet(trucks: seq<Truck>): (r: Fleet)
    ensures r.Keys == TruckIds(trucks)
  {
    if trucks == [] then map[]
    else
      var n := |trucks| - 1;
      assert trucks == trucks[..n] + [trucks[n]];
      InitialFleet(trucks[..n])[trucks[n].id := TruckState(trucks[n].location, trucks[n].availableHour)]
  }

  /** No later order of the list has the same id as order `i`. */
  predicate LastWithId(orders: seq<Order>, i: int)
    requires 0 <= i < |orders|
  {
    forall j :: i < j < |orders| ==> orders[j].id != orders[i].id
  }

  /** An order that is the last with its id starts with its own tons remaining. */
  lemma {:induction false} InitialRemainingOfLast(orders: seq<Order>, i: int)
    requires 0 <= i < |orders| && LastWithId(orders, i)
    ensures orders[i].id in InitialRemaining(orders)
    ensures InitialRemaining(orders)[orders[i].id] == orders[i].tons
  {
    var n := |orders| - 1;
    if i < n {
      var front := orders[..n];
      assert front[i] == orders[i];
      assert LastWithId(front, i) by {
        forall j | i < j < n ensures front[j].id != front[i].id {
          assert front[j] == orders[j];
        }
      }
      InitialRemainingOfLast(front, i);
    }
  }

  /** A truck that is the last with its id starts where that truck is, when it is free. */
  lemma {:induction false} InitialFleetOfLast(trucks: seq<Truck>, i: int)
    requires 0 <= i < |trucks|
    requires forall j :: i < j < |trucks| ==> trucks[j].id != trucks[i].id
    ensures trucks[i].id in InitialFleet(trucks)
    ensures InitialFleet(trucks)[trucks[i].id] == TruckState(trucks[i].location, trucks[i].availableHour)
  {
    var n := |trucks| - 1;
    if i < n {
      var front := trucks[..n];
      assert front[i] == trucks[i];
      forall j | i < j < n ensures front[j].id != front[i].id {
        assert front[j] == trucks[j];
      }
      InitialFleetOfLast(front, i);
    }
  }

  lemma SortedOrdersTracked(orders: seq<Order>)
    ensures forall o :: o in SortOrders(orders) ==> o.id in InitialRemaining(orders)
  {
    forall o | o in SortOrders(orders) ensures o.id in InitialRemaining(orders) {
      assert o in multiset(SortOrders(orders));
    }
  }

  /** The whole planning run: the dispatches in the order they are made, or
      the first failed lookup, in which case no plan is returned. */
  function Plan(orders: seq<Order>, trucks: seq<Truck>,
                travel: DurationTable, reposition: DurationTable): Result<seq<Dispatch>>
    requires CapacitiesPositive(trucks)
  {
    SortedOrdersTracked(orders);
    PlanFrom(SortOrders(orders), InitialRemaining(orders), trucks, InitialFleet(trucks), travel, reposition)
  }
}
