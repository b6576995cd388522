/** The loops of `dispatch_orders`, over the dictionaries it mutates, proved to
    compute the plan that module Planner defines. */
module Dispatcher {
  import opened Records
  import opened Routes
  import opened Scoring
  import opened OrderSort
  import opened Planner

  /** Puts `ds` in front of a plan; a failed plan stays failed. */
  function Prepend(ds: seq<Dispatch>, r: Result<seq<Dispatch>>): Result<seq<Dispatch>> {
    match r
    case Ok(rest) => Ok(ds + rest)
    case Err(e) => Err(e)
  }

  lemma PrependPrepend(a: seq<Dispatch>, b: seq<Dispatch>, r: Result<seq<Dispatch>>)
    ensures Prepend(a, Prepend(b, r)) == Prepend(a + b, r)
  {
    if r.Ok? {
      assert a + (b + r.value) == (a + b) + r.value;
    }
  }

  /** The error a lookup returns is the error the truck's Evaluate returns. */
  lemma FirstFailureIsTheError(order: Order, remaining: int, trucks: seq<Truck>, fleet: Fleet,
                               travel: DurationTable, reposition: DurationTable, j: int)
    requires Tracked(trucks, fleet)
    requires 0 <= j < |trucks| && FirstFailure(order, trucks, fleet, travel, reposition, j)
    ensures Candidates(order, remaining, trucks, fleet, travel, reposition)
      == Err(Evaluate(order, remaining, trucks[j], fleet[trucks[j].id], travel, reposition).error)
  {
    assert trucks[j] in trucks;
    CandidatesFailure(order, remaining, trucks, fleet, travel, reposition);
    var r := Candidates(order, remaining, trucks, fleet, travel, reposition);
    var j' :| 0 <= j' < |trucks| && FirstFailure(order, trucks, fleet, travel, reposition, j')
              && r.error == Evaluate(order, remaining, trucks[j'], fleet[trucks[j'].id], travel, reposition).error;
    assert j' == j;
  }

  /** The scan over trucks 0..j-1 has produced `cands` and kept `best`. */
  ghost predicate Scanned(order: Order, remaining: int, trucks: seq<Truck>, fleet: Fleet,
                          travel: DurationTable, reposition: DurationTable,
                          j: int, cands: seq<Candidate>, best: Option<Candidate>)
    requires Tracked(trucks, fleet)
  {
    && 0 <= j <= |trucks|
    && Tracked(trucks[..j], fleet)
    && Candidates(order, remaining, trucks[..j], fleet, travel, reposition) == Ok(cands)
    && best == if j == 0 then None else Some(cands[BestIndex(cands)])
  }

  /** Evaluating truck `j` successfully extends the scan by one candidate,
      and the strict `>` keeps the first best. */
  lemma ScanExtend(order: Order, remaining: int, trucks: seq<Truck>, fleet: Fleet,
                   travel: DurationTable, reposition: DurationTable,
                   j: int, cands: seq<Candidate>, best: Option<Candidate>, c: Candidate)
    requires Tracked(trucks, fleet) && j < |trucks|
    requires Scanned(order, remaining, trucks, fleet, travel, reposition, j, cands, best)
    requires RouteKnown(order, fleet[trucks[j].id], travel, reposition)
    requires c.truck == trucks[j] && c.assignTons == Min(trucks[j].capacityTons, remaining)
    requires c.pickupHour == fleet[trucks[j].id].availableHour + reposition[(fleet[trucks[j].id].location, order.mine)]
    requires c.etaHour == c.pickupHour + travel[(order.mine, order.destination)]
    requires c.scoreTenths == ScoreTenths(order, c.etaHour)
    ensures Scanned(order, remaining, trucks, fleet, travel, reposition, j + 1, cands + [c],
                    if best.None? || c.scoreTenths > best.value.scoreTenths then Some(c) else best)
  {
    EvaluateKnown(order, remaining, trucks[j], fleet[trucks[j].id], travel, reposition, c);
    CandidatesSnoc(order, remaining, trucks, fleet, travel, reposition, j, cands, c);
    if j > 0 {
      BestIndexSnoc(cands, c);
    }
  }

  /** Evaluating one more truck appends its candidate. */
  lemma CandidatesSnoc(order: Order, remaining: int, trucks: seq<Truck>, fleet: Fleet,
                       travel: DurationTable, reposition: DurationTable,
                       j: int, cands: seq<Candidate>, c: Candidate)
    requires Tracked(trucks, fleet) && 0 <= j < |trucks|
    requires Candidates(order, remaining, trucks[..j], fleet, travel, reposition) == Ok(cands)
    requires Evaluate(order, remaining, trucks[j], fleet[trucks[j].id], travel, reposition) == Ok(c)
    ensures Tracked(trucks[..j + 1], fleet)
    ensures Candidates(order, remaining, trucks[..j + 1], fleet, travel, reposition) == Ok(cands + [c])
  {
    assert forall u :: u in trucks[..j + 1] ==> u in trucks;
    assert trucks[..j + 1][..j] == trucks[..j];
  }

  /** The strict `>` keeps the earlier best unless the new candidate beats it. */
  lemma BestIndexSnoc(cands: seq<Candidate>, c: Candidate)
    requires |cands| > 0
    ensures BestIndex(cands + [c]) ==
      if c.scoreTenths > cands[BestIndex(cands)].scoreTenths then |cands| else BestIndex(cands)
  {
    assert (cands + [c])[..|cands|] == cands;
  }

  /** A failed lookup for truck `j`, after trucks 0..j-1 succeeded, is the
      outcome of the whole scan. */
  lemma ScanFails(order: Order, remaining: int, trucks: seq<Truck>, fleet: Fleet,
                  travel: DurationTable, reposition: DurationTable,
                  j: int, cands: seq<Candidate>, best: Option<Candidate>)
    requires Tracked(trucks, fleet) && j < |trucks|
    requires Scanned(order, remaining, trucks, fleet, travel, reposition, j, cands, best)
    requires !RouteKnown(order, fleet[trucks[j].id], travel, reposition)
    ensures BestCandidate(order, remaining, trucks, fleet, travel, reposition)
         == Err(Evaluate(order, remaining, trucks[j], fleet[trucks[j].id], travel, reposition).error)
  {
    forall i | 0 <= i < j ensures RouteKnown(order, fleet[trucks[i].id], travel, reposition) {
      assert trucks[..j][i] == trucks[i];
    }
    FirstFailureIsTheError(order, remaining, trucks, fleet, travel, reposition, j);
  }

  /** With both routes known, Evaluate yields the candidate built from the two lookups. */
  lemma EvaluateKnown(order: Order, remaining: int, t: Truck, st: TruckState,
                      travel: DurationTable, reposition: DurationTable, c: Candidate)
    requires RouteKnown(order, st, travel, reposition)
    requires c.truck == t && c.assignTons == Min(t.capacityTons, remaining)
    requires c.pickupHour == st.availableHour + reposition[(st.location, order.mine)]
    requires c.etaHour == c.pickupHour + travel[(order.mine, order.destination)]
    requires c.scoreTenths == ScoreTenths(order, c.etaHour)
    ensures Evaluate(order, remaining, t, st, travel, reposition) == Ok(c)
  {
    var e := Evaluate(order, remaining, t, st, travel, reposition).value;
    assert e.truck == c.truck && e.pickupHour == c.pickupHour && e.etaHour == c.etaHour;
  }

  /** The `for t in trucks` loop: evaluate every truck in list order, keep
      the first one whose score is strictly higher than the best so far, and
      abort on the first failed lookup. */
  method SelectTruck(order: Order, remaining: int, trucks: seq<Truck>, fleet: Fleet,
                     travel: DurationTable, reposition: DurationTable) returns (r: Result<Option<Candidate>>)
    requires Tracked(trucks, fleet)
    ensures r == BestCandidate(order, remaining, trucks, fleet, travel, reposition)
  {
    var best: Option<Candidate> := None;
    ghost var cands: seq<Candidate> := [];
    for j := 0 to |trucks|
      invariant Scanned(order, remaining, trucks, fleet, travel, reposition, j, cands, best)
    {
      var t := trucks[j];
      var state := fleet[t.id];
      var toMine := ToMineTime(reposition, state.location, order.mine);
      if toMine.Err? {
        ScanFails(order, remaining, trucks, fleet, travel, reposition, j, cands, best);
        return Err(toMine.error);
      }
      var pickupHour := state.availableHour + toMine.value;
      var trip := TripTime(travel, order.mine, order.destination);
      if trip.Err? {
        ScanFails(order, remaining, trucks, fleet, travel, reposition, j, cands, best);
        return Err(trip.error);
      }
      var etaHour := pickupHour + trip.value;
      var score := ScoreTenths(order, etaHour);
      var c := Candidate(t, pickupHour, etaHour, score, Min(t.capacityTons, remaining));
      ScanExtend(order, remaining, trucks, fleet, travel, reposition, j, cands, best, c);
      if best.None? || score > best.value.scoreTenths {
        best := Some(c);
      }
      cands := cands + [c];
    }
    assert trucks[..|trucks|] == trucks;
    r := Ok(best);
  }

  /** Puts `ds` in front of one order's dispatches; a failure stays a failure. */
  function PrependFilled(ds: seq<Dispatch>, r: Result<Filled>): Result<Filled> {
    match r
    case Ok(f) => Ok(Filled(ds + f.dispatches, f.remaining, f.fleet))
    case Err(e) => Err(e)
  }

  /** One pass of the `while` loop takes one dispatch off the front of the order's dispatches. */
  lemma FillOrderStep(order: Order, remaining: map<string, int>, trucks: seq<Truck>,
                      fleet: Fleet, travel: DurationTable, reposition: DurationTable, p: Progress)
    requires order.id in remaining
    requires Tracked(trucks, fleet)
    requires CapacitiesPositive(trucks)
    requires remaining[order.id] > 0
    requires Step(order, remaining, trucks, fleet, travel, reposition) == Ok(Some(p))
    ensures p.remaining.Keys == remaining.Keys && Tracked(trucks, p.fleet)
    ensures FillOrder(order, remaining, trucks, fleet, travel, reposition)
         == PrependFilled([p.dispatch], FillOrder(order, p.remaining, trucks, p.fleet, travel, reposition))
  {
    assert trucks[p.chosen] in trucks;
  }

  lemma PrependFilledTwice(a: seq<Dispatch>, b: seq<Dispatch>, r: Result<Filled>)
    ensures PrependFilled(a, PrependFilled(b, r)) == PrependFilled(a + b, r)
  {
    if r.Ok? {
      assert a + (b + r.value.dispatches) == (a + b) + r.value.dispatches;
    }
  }

  /** A failed search ends the order with that failure; finding no truck
      ends it with nothing dispatched. */
  lemma FillOrderOfBest(order: Order, remaining: map<string, int>, trucks: seq<Truck>,
                        fleet: Fleet, travel: DurationTable, reposition: DurationTable)
    requires order.id in remaining
    requires Tracked(trucks, fleet)
    requires CapacitiesPositive(trucks)
    requires remaining[order.id] > 0
    ensures var b := BestCandidate(order, remaining[order.id], trucks, fleet, travel, reposition);
      && (b.Err? ==> FillOrder(order, remaining, trucks, fleet, travel, reposition) == Err(b.error))
      && (b == Ok(None) ==> FillOrder(order, remaining, trucks, fleet, travel, reposition) == Ok(Filled([], remaining, fleet)))
  {
    var b := BestCandidate(order, remaining[order.id], trucks, fleet, travel, reposition);
    var s := Step(order, remaining, trucks, fleet, travel, reposition);
    if b.Err? {
      assert s == Err(b.error);
    } else if b == Ok(None) {
      assert s == Ok(None);
    }
  }

  /** The `while remaining[order.id] > 0` loop for one order: search for the
      best truck, dispatch min(capacity, remaining) tons on it, and move it;
      stop when nothing remains or there is no truck. */
  method ServeOrder(order: Order, remaining0: map<string, int>, trucks: seq<Truck>, fleet0: Fleet,
                    travel: DurationTable, reposition: DurationTable) returns (r: Result<Filled>)
    requires order.id in remaining0
    requires Tracked(trucks, fleet0)
    requires CapacitiesPositive(trucks)
    ensures r == FillOrder(order, remaining0, trucks, fleet0, travel, reposition)
  {
    var remaining, fleet := remaining0, fleet0;
    var dispatches: seq<Dispatch> := [];
    assert FillOrder(order, remaining, trucks, fleet, travel, reposition)
        == PrependFilled([], FillOrder(order, remaining, trucks, fleet, travel, reposition)) by {
      var f := FillOrder(order, remaining, trucks, fleet, travel, reposition);
      if f.Ok? {
        assert [] + f.value.dispatches == f.value.dispatches;
      }
    }
    while remaining[order.id] > 0
      invariant remaining.Keys == remaining0.Keys
      invariant Tracked(trucks, fleet)
      invariant FillOrder(order, remaining0, trucks, fleet0, travel, reposition)
             == PrependFilled(dispatches, FillOrder(order, remaining, trucks, fleet, travel, reposition))
      decreases remaining[order.id]
    {
      var best := SelectTruck(order, remaining[order.id], trucks, fleet, travel, reposition);
      FillOrderOfBest(order, remaining, trucks, fleet, travel, reposition);
      if best.Err? {
        return Err(best.error);
      }
      if best.value.None? {
        break;
      }
      var c := best.value.value;
      StepOfBest(order, remaining, trucks, fleet, travel, reposition, c);
      ghost var p := Step(order, remaining, trucks, fleet, travel, reposition).value.value;
      FillOrderStep(order, remaining, trucks, fleet, travel, reposition, p);
      var d := Dispatch(order.id, c.truck.id, c.assignTons, c.pickupHour, c.etaHour, c.scoreTenths);
      PrependFilledTwice(dispatches, [d], FillOrder(order, p.remaining, trucks, p.fleet, travel, reposition));
      remaining := remaining[order.id := remaining[order.id] - c.assignTons];
      dispatches := dispatches + [d];
      fleet := fleet[c.truck.id := TruckState(order.mine, c.etaHour)];
    }
    assert FillOrder(order, remaining, trucks, fleet, travel, reposition) == Ok(Filled([], remaining, fleet));
    assert dispatches + [] == dispatches;
    r := Ok(Filled(dispatches, remaining, fleet));
  }

  /** The candidate the truck search returns is the one Step dispatches. */
  lemma StepOfBest(order: Order, remaining: map<string, int>, trucks: seq<Truck>,
                   fleet: Fleet, travel: DurationTable, reposition: DurationTable, c: Candidate)
    requires order.id in remaining
    requires Tracked(trucks, fleet)
    requires CapacitiesPositive(trucks)
    requires remaining[order.id] > 0
    requires BestCandidate(order, remaining[order.id], trucks, fleet, travel, reposition) == Ok(Some(c))
    ensures c.truck in trucks && 0 < c.assignTons <= remaining[order.id]
    ensures Step(order, remaining, trucks, fleet, travel, reposition).Ok?
    ensures Step(order, remaining, trucks, fleet, travel, reposition).value.Some?
    ensures var p := Step(order, remaining, trucks, fleet, travel, reposition).value.value;
      && p.dispatch == Dispatch(order.id, c.truck.id, c.assignTons, c.pickupHour, c.etaHour, c.scoreTenths)
      && p.remaining == remaining[order.id := remaining[order.id] - c.assignTons]
      && p.fleet == fleet[c.truck.id := TruckState(order.mine, c.etaHour)]
  {
    var cands := Candidates(order, remaining[order.id], trucks, fleet, travel, reposition).value;
    var k := BestIndex(cands);
    var s := Step(order, remaining, trucks, fleet, travel, reposition);
    assert s == Ok(Some(Progress(k,
      Dispatch(order.id, c.truck.id, c.assignTons, c.pickupHour, c.etaHour, c.scoreTenths),
      remaining[order.id := remaining[order.id] - c.assignTons],
      fleet[c.truck.id := TruckState(order.mine, c.etaHour)])));
    assert trucks[k] in trucks;
  }

  lemma PrependNothing(r: Result<seq<Dispatch>>)
    ensures Prepend([], r) == r
  {
    if r.Ok? {
      assert [] + r.value == r.value;
    }
  }

  /** Serving the order at position `i` and then the rest of `os` is the
      run from position `i`. */
  lemma PlanFromAt(os: seq<Order>, i: int, remaining: map<string, int>, trucks: seq<Truck>,
                   fleet: Fleet, travel: DurationTable, reposition: DurationTable)
    requires 0 <= i < |os|
    requires forall o :: o in os ==> o.id in remaining
    requires Tracked(trucks, fleet)
    requires CapacitiesPositive(trucks)
    ensures var f := FillOrder(os[i], remaining, trucks, fleet, travel, reposition);
      && (f.Err? ==> PlanFrom(os[i..], remaining, trucks, fleet, travel, reposition) == Err(f.error))
      && (f.Ok? ==>
            && f.value.remaining.Keys == remaining.Keys
            && Tracked(trucks, f.value.fleet)
            && PlanFrom(os[i..], remaining, trucks, fleet, travel, reposition)
               == Prepend(f.value.dispatches, PlanFrom(os[i + 1..], f.value.remaining, trucks, f.value.fleet, travel, reposition)))
  {
    assert os[i..][0] == os[i];
    assert os[i..][1..] == os[i + 1..];
  }

  /** `dispatch_orders`: serve the orders one after another in sorted order,
      collecting their dispatches. */
  method DispatchOrders(orders: seq<Order>, trucks: seq<Truck>,
                        travel: DurationTable, reposition: DurationTable) returns (r: Result<seq<Dispatch>>)
    requires CapacitiesPositive(trucks)
    ensures r == Plan(orders, trucks, travel, reposition)
  {
    var remaining := InitialRemaining(orders);
    var fleet := InitialFleet(trucks);
    var sortedOrders := SortOrders(orders);
    SortedOrdersTracked(orders);
    var plans: seq<Dispatch> := [];
    ghost var plan := Plan(orders, trucks, travel, reposition);
    assert sortedOrders[0..] == sortedOrders;
    PrependNothing(plan);
    for i := 0 to |sortedOrders|
      invariant remaining.Keys == InitialRemaining(orders).Keys
      invariant Tracked(trucks, fleet)
      invariant plan == Prepend(plans, PlanFrom(sortedOrders[i..], remaining, trucks, fleet, travel, reposition))
    {
      var order := sortedOrders[i];
      PlanFromAt(sortedOrders, i, remaining, trucks, fleet, travel, reposition);
      var served := ServeOrder(order, remaining, trucks, fleet, travel, reposition);
      if served.Err? {
        return Err(served.error);
      }
      var f := served.value;
      ghost var rest := PlanFrom(sortedOrders[i + 1..], f.remaining, trucks, f.fleet, travel, reposition);
      PrependPrepend(plans, f.dispatches, rest);
      plans := plans + f.dispatches;
      remaining, fleet := f.remaining, f.fleet;
    }
    assert sortedOrders[|sortedOrders|..] == [];
    assert plans + [] == plans;
    r := Ok(plans);
  }
}
