/** The repository's two test cases, on the source's own route tables, as
    consequences of the general guarantees. */
module Scenarios {
  import opened Records
  import opened Routes
  import opened OrderSort
  import opened Planner
  import opened PlanProperties
  import opened Guarantees

  /** Every location a truck can stand at in these tables. */
  const Sites: set<string> := {"Yard-East", "Yard-West", "Mine-A", "Mine-B"}

  /** The input of the high-priority-first test: a low-priority order
      listed ahead of a high-priority one, and one truck. */
  predicate PriorityTest(orders: seq<Order>, trucks: seq<Truck>) {
    && orders == [Order("LOW", "Mine-A", "Plant-2", 20, 20, 1),
                  Order("HIGH", "Mine-A", "Plant-1", 20, 8, 5)]
    && trucks == [Truck("T-1", "Mine-A", 20, 0)]
  }

  /** The input of the full-assignment test: two orders of equal priority
      and deadline, and two trucks. */
  predicate CapacityTest(orders: seq<Order>, trucks: seq<Truck>) {
    && orders == [Order("A", "Mine-B", "Plant-2", 20, 10, 4),
                  Order("B", "Mine-A", "Plant-1", 20, 10, 4)]
    && trucks == [Truck("T-1", "Mine-B", 20, 0), Truck("T-2", "Mine-A", 20, 0)]
  }

  /** Both test inputs only use routes the source's tables define. */
  lemma TestInputsWithinSites(orders: seq<Order>, trucks: seq<Truck>)
    requires PriorityTest(orders, trucks) || CapacityTest(orders, trucks)
    ensures CapacitiesPositive(trucks) && UniqueOrderIds(orders)
    ensures Reachable(orders, Sites, TravelHours, RepositionHours)
    ensures forall t :: t in trucks ==> t.location in Sites
  {
    assert Reachable(orders, Sites, TravelHours, RepositionHours);
  }

  /** Both test runs succeed. */
  lemma TestRunsSucceed(orders: seq<Order>, trucks: seq<Truck>)
    requires PriorityTest(orders, trucks) || CapacityTest(orders, trucks)
    ensures Plan(orders, trucks, TravelHours, RepositionHours).Ok?
  {
    TestInputsWithinSites(orders, trucks);
    PlanSucceedsWhenRoutesKnown(orders, trucks, TravelHours, RepositionHours, Sites);
  }

  /** The test input meets the hypotheses of FirstDispatchServesFirstOrder
      for the order "HIGH". */
  lemma PriorityTestPremises(orders: seq<Order>, trucks: seq<Truck>)
    requires PriorityTest(orders, trucks)
    ensures CapacitiesPositive(trucks) && UniqueOrderIds(orders)
    ensures |orders| == 2 && orders[1].id == "HIGH" && orders[1].tons > 0 && |trucks| > 0
    ensures forall j :: 0 <= j < |orders| && j != 1 ==> ServedEarlier(orders, 1, j)
  {
    assert ServedEarlier(orders, 1, 0);
  }

  lemma PriorityTestFirstDispatch(orders: seq<Order>, trucks: seq<Truck>)
    requires PriorityTest(orders, trucks)
    requires Plan(orders, trucks, TravelHours, RepositionHours).Ok?
    ensures var ds := Plan(orders, trucks, TravelHours, RepositionHours).value;
      |ds| > 0 && ds[0].orderId == "HIGH"
  {
    PriorityTestPremises(orders, trucks);
    FirstDispatchServesFirstOrder(orders, trucks, TravelHours, RepositionHours, 1);
  }

  /** tests/test_scheduler_demo.py, first test: the run succeeds and its
      first dispatch serves the high-priority order. */
  lemma HighPriorityDispatchedFirst(orders: seq<Order>, trucks: seq<Truck>)
    requires PriorityTest(orders, trucks)
    ensures var r := Plan(orders, trucks, TravelHours, RepositionHours);
      r.Ok? && |r.value| > 0 && r.value[0].orderId == "HIGH"
  {
    TestRunsSucceed(orders, trucks);
    PriorityTestFirstDispatch(orders, trucks);
  }

  lemma CapacityTestPremises(orders: seq<Order>, trucks: seq<Truck>)
    requires CapacityTest(orders, trucks)
    ensures CapacitiesPositive(trucks) && UniqueOrderIds(orders) && |trucks| > 0
    ensures |orders| == 2 && orders[0].id == "A" && orders[1].id == "B"
    ensures orders[0].tons == 20 && orders[1].tons == 20
    ensures forall o :: o in orders ==> o.id == "A" || o.id == "B"
  {
  }

  lemma CapacityTestTonnage(orders: seq<Order>, trucks: seq<Truck>)
    requires CapacityTest(orders, trucks)
    requires Plan(orders, trucks, TravelHours, RepositionHours).Ok?
    ensures var ds := Plan(orders, trucks, TravelHours, RepositionHours).value;
      && SumTons(ds, "A") == 20
      && SumTons(ds, "B") == 20
  {
    CapacityTestPremises(orders, trucks);
    AssignedTonsPerOrder(orders, trucks, TravelHours, RepositionHours, orders[0]);
    AssignedTonsPerOrder(orders, trucks, TravelHours, RepositionHours, orders[1]);
  }

  lemma CapacityTestOrderIds(orders: seq<Order>, trucks: seq<Truck>)
    requires CapacityTest(orders, trucks)
    requires Plan(orders, trucks, TravelHours, RepositionHours).Ok?
    ensures forall d :: d in Plan(orders, trucks, TravelHours, RepositionHours).value ==>
      d.orderId == "A" || d.orderId == "B"
  {
    CapacityTestPremises(orders, trucks);
    DispatchesCarried(orders, trucks, TravelHours, RepositionHours);
  }

  /** tests/test_scheduler_demo.py, second test: with enough trucks both
      orders receive their full 20 tons and nothing else is dispatched. */
  lemma AllOrdersFullyAssigned(orders: seq<Order>, trucks: seq<Truck>)
    requires CapacityTest(orders, trucks)
    ensures var r := Plan(orders, trucks, TravelHours, RepositionHours);
      && r.Ok?
      && SumTons(r.value, "A") == 20
      && SumTons(r.value, "B") == 20
      && forall d :: d in r.value ==> d.orderId == "A" || d.orderId == "B"
  {
    TestRunsSucceed(orders, trucks);
    CapacityTestTonnage(orders, trucks);
    CapacityTestOrderIds(orders, trucks);
  }
}
