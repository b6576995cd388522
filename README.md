# Greedy coal-haul dispatch planner, modelled in Dafny

This project models the planning core of `scheduler_demo.py`, a small planner
that assigns coal-haul orders to trucks. Each order asks for `tons` to be
moved from a mine to a plant before a deadline hour, with a priority from 1
(low) to 5 (high). Each truck has a capacity, a location and an hour from
which it is free. Two tables give durations in whole hours: TRAVEL_HOURS, the
haul from a mine to a plant, and TRUCK_REPOSITION_HOURS, an empty truck's
move to a mine.

`dispatch_orders` works as follows:

- It copies the orders' tons into a `remaining` dictionary and the trucks'
  location and free hour into a `mutable_trucks` dictionary.
- It sorts the orders stably by (higher priority, earlier deadline).
- For each order, while tons remain, it scans every truck in list order. For
  each truck it computes the pickup hour (free hour plus repositioning), the
  arrival hour (pickup plus haul) and a delivery score:
  `priority*100 - lateness*30 - tons*0.1`.
- It keeps the first truck with the strictly highest score and dispatches
  `min(capacity, remaining)` tons on it. It then records the truck as standing
  at the order's mine, free at the arrival hour.
- A route missing from either table raises a KeyError and aborts the whole run.
  With no trucks at all, the order is skipped.

The model has three layers:

- **Specification functions** (`Planner`): one pass of the truck scan
  (`Evaluate`, `Candidates`, `BestIndex`), one pass of the `while` loop
  (`Step`), the loop for one order (`FillOrder`), and the whole run
  (`PlanFrom`, `Plan`). A failed lookup is a `Result` error, not an exception.
- **The loops as imperative methods** (`Dispatcher`): `SelectTruck`,
  `ServeOrder` and `DispatchOrders` each reassign the `remaining` and fleet
  maps step by step. Each is proved to return exactly the corresponding
  specification function.
- **Properties of the run** (`PlanProperties`, `Guarantees`, `Scenarios`):
  tonnage, timing, ordering, when the run fails and when it succeeds, and the
  repository's two tests as theorems on the source's own route tables.

Files:

- `records.dfy`: the records.
- `routes.dfy`: the two tables and their lookups.
- `scoring.dfy`: the score.
- `order_sort.dfy`: the stable sort.
- `planner.dfy`: the specification.
- `dispatcher.dfy`: the loops.
- `properties.dfy`, `guarantees.dfy`, `scenarios.dfy`: the properties.

The score is kept as an exact integer number of tenths. `Scoring.ScoreTenths`
is proved equal to ten times the real-valued formula, so comparing tenths
decides exactly as comparing the source's scores does.

## Model

| member | source | states |
|---|---|---|
| Routes.TripTime | scheduler_demo.py:54-55 | The haul lookup succeeds exactly when (mine, destination) is a key of the table. It then returns that entry. Otherwise it fails with an undefined-route error naming the haul table and the pair. |
| Routes.ToMineTime | scheduler_demo.py:58-59 | The repositioning lookup succeeds exactly when (location, mine) is a key of the table. It then returns that entry. Otherwise it fails naming the repositioning table and the pair. |
| Scoring.Lateness | scheduler_demo.py:67 | Lateness is zero exactly when the arrival is at or before the deadline. Otherwise the deadline plus the lateness is the arrival hour. |
| Scoring.ScoreTenths | scheduler_demo.py:62-69 | The integer score is exactly ten times the real formula `priority*100 - lateness*30 - tons*0.1`. On time it is `priority*1000 - tons`. Each late hour costs 300 tenths. |
| OrderSort.Insert | scheduler_demo.py:77 | Inserting into a sorted list gives a sorted list whose multiset is the old one plus the new order. |
| OrderSort.InsertKeepsKeyOrder | scheduler_demo.py:77 | Insertion puts the new order in front of the orders that share its key and leaves every other key's orders unchanged. |
| OrderSort.SortOrders | scheduler_demo.py:77 | The sorted list is ordered by (-priority, deadline), is a permutation of the input, and is stable: for every key, the orders with that key keep their input order. |
| Planner.Evaluate | scheduler_demo.py:85-91 | One truck's pass succeeds exactly when both routes are known. Its candidate has pickup = free hour + repositioning, eta = pickup + haul, the score at eta and min(capacity, remaining) tons. On failure, the repositioning error comes first. |
| Planner.Candidates | scheduler_demo.py:84-98 | The scan succeeds exactly when every truck's routes are known. It then holds one candidate per truck, in list order, each equal to that truck's Evaluate. |
| Planner.CandidatesFailure | scheduler_demo.py:84-87 | A failed scan returns the error of the first truck whose routes are not both known. |
| Planner.CandidateFields | scheduler_demo.py:84-98 | Candidate j of a successful scan is truck j. Its arrival hour is that truck's arrival hour, and its score is the order's score at that hour. |
| Planner.BestIndex | scheduler_demo.py:90 | The strict `>` selects an index whose score is the maximum, and every earlier candidate scores strictly less. It is the first best candidate. |
| Planner.Step | scheduler_demo.py:81-119 | One pass of the while loop succeeds exactly when all routes are known. It finds nothing exactly when there are no trucks. Otherwise it dispatches min(capacity, remaining) tons of the order on the chosen truck, with that truck's pickup, eta and score. It lowers only this order's remaining entry and moves only that truck, to the order's mine, free at the eta. |
| Planner.StepFailure | scheduler_demo.py:84-87 | A failed pass is the lookup error of the first truck whose routes are not both known. |
| Planner.StepPicksFirstBest | scheduler_demo.py:88-98 | The chosen truck's score is at least every truck's score, and strictly greater than every earlier truck's. |
| Planner.StepProgress | scheduler_demo.py:91-119 | With tons remaining and positive capacities, a pass moves between 1 ton and what remains. It keeps the set of truck ids. |
| Planner.FillOrder | scheduler_demo.py:81-119 | After the loop for one order, that order's remaining entry is 0 when there are trucks and unchanged otherwise. Every other entry and the set of truck ids are unchanged. |
| Planner.InitialRemaining | scheduler_demo.py:73 | `remaining` has exactly the order ids as keys. |
| Planner.InitialRemainingOfLast | scheduler_demo.py:73 | An order that is the last with its id starts with its own tons remaining (a later duplicate id overwrites). |
| Planner.InitialFleet | scheduler_demo.py:74 | `mutable_trucks` has exactly the truck ids as keys. |
| Planner.InitialFleetOfLast | scheduler_demo.py:74 | A truck that is the last with its id starts at its own location and free hour. |
| Planner.SortedOrdersTracked | scheduler_demo.py:73-80 | Every sorted order has an entry in `remaining`. |
| Dispatcher.SelectTruck | scheduler_demo.py:82-101 | The `for t in trucks` loop returns exactly the first best candidate, or none when there are no trucks, or the first failed lookup. |
| Dispatcher.ScanExtend | scheduler_demo.py:90-98 | The loop invariant is kept when one more truck is evaluated: the kept candidate changes only when the new score is strictly greater. |
| Dispatcher.BestIndexSnoc | scheduler_demo.py:90 | Appending a candidate moves the best index to it exactly when its score is strictly greater than the current best's. |
| Dispatcher.ScanFails | scheduler_demo.py:85-87 | A failed lookup for truck j, after trucks before it succeeded, is the result of the whole search. |
| Dispatcher.ServeOrder | scheduler_demo.py:81-119 | The `while remaining[order.id] > 0` loop over the mutable maps returns exactly FillOrder: the same dispatches, the same maps, or the same error. |
| Dispatcher.StepOfBest | scheduler_demo.py:100-119 | The candidate the search keeps is a truck of the list carrying between 1 ton and what remains. The dispatch, the remaining update and the truck move the loop makes from it are exactly Step's. |
| Dispatcher.FillOrderOfBest | scheduler_demo.py:84-101 | A failed search ends the order with that error. Finding no truck ends it with nothing dispatched and the maps unchanged. |
| Dispatcher.DispatchOrders | scheduler_demo.py:72-121 | `dispatch_orders` returns exactly Plan: the dispatches in the order they are made, or the first lookup error. |
| PlanProperties.SumTonsAppend | tests/test_scheduler_demo.py:28-30 | Tons per order add up over concatenated dispatch lists. |
| PlanProperties.FillOrderCarried | scheduler_demo.py:81-119 | Every dispatch made for one order is for that order and carries between 1 ton and some listed truck's capacity. |
| PlanProperties.FillOrderTonnage | scheduler_demo.py:81-105 | The dispatches for one order add up to exactly what remained of it when there are trucks, and to nothing otherwise. |
| PlanProperties.StepTiming | scheduler_demo.py:86-119 | A trip is picked up no earlier than the truck is free and arrives no earlier than pickup. The truck is then free at the arrival hour, and no truck becomes free earlier. |
| PlanProperties.FillOrderHours | scheduler_demo.py:81-119 | While serving one order, no truck's free hour moves backwards. Each trip lies between the truck's initial free hour and its final free hour. |
| PlanProperties.FillOrderNoOverlap | scheduler_demo.py:81-119 | Serving one order never gives a truck two overlapping trips. |
| PlanProperties.NoOverlapAppend | scheduler_demo.py:80 | Two trip lists without overlap can be joined without overlap when every trip of the first ends before each later trip of the same truck starts. |
| PlanProperties.Rank | scheduler_demo.py:77-80 | The first position of an order id in a list, or the list's length when the id is absent. |
| PlanProperties.PlanFromCarried | scheduler_demo.py:80-121 | From any point of the order loop, every dispatch belongs to an order still to come and carries between 1 ton and a truck's capacity. |
| PlanProperties.PlanFromTonnage | scheduler_demo.py:80-121 | With distinct ids, each order still to come receives exactly its remaining tons when there are trucks, and nothing otherwise. |
| PlanProperties.PlanFromGrouped | scheduler_demo.py:80-121 | Dispatches come grouped by order, in the order the orders are served. |
| PlanProperties.PlanFromHours | scheduler_demo.py:80-121 | Every trip's truck is tracked, and the trip is picked up no earlier than that truck was free and arrives no earlier than pickup. |
| PlanProperties.PlanFromNoOverlap | scheduler_demo.py:80-121 | No truck is given two overlapping trips over the whole loop. |
| PlanProperties.FillOrderFails | scheduler_demo.py:84-87 | Serving one order fails only on a route that order needs: its haul route, or the repositioning of some truck to its mine. |
| PlanProperties.PlanFromFails | scheduler_demo.py:80-87 | The loop fails only on a missing route that one of its orders needs. |
| PlanProperties.FillOrderSucceeds | scheduler_demo.py:81-119 | If every truck stands at a known site and the order's routes from those sites are known, serving the order succeeds, and every truck is still at a known site. |
| PlanProperties.PlanFromSucceeds | scheduler_demo.py:80-121 | With every route the orders can need known, the order loop succeeds. |
| PlanProperties.FillOrderAbortsOnMissingHaul | scheduler_demo.py:81-87 | An order with tons to move, with a truck present, whose haul route is missing makes serving it fail. |
| PlanProperties.PlanFromAbortsOnMissingHaul | scheduler_demo.py:80-87 | Such an order anywhere in the loop makes the whole loop fail. |
| PlanProperties.PlanFromNoTrucks | scheduler_demo.py:84-101 | With no trucks the loop dispatches nothing and looks up no route. |
| Guarantees.SortKeepsIdsUnique | scheduler_demo.py:77 | Sorting keeps distinct order ids distinct. |
| Guarantees.InitialFleetOrigin | scheduler_demo.py:74 | Every entry of `mutable_trucks` is the starting location and free hour of a truck with that id. |
| Guarantees.InitialRemainingOfUnique | scheduler_demo.py:73 | With distinct ids, each order starts with all its tons remaining. |
| Guarantees.DispatchesCarried | scheduler_demo.py:72-121 | Every dispatch of a successful run is for one of the given orders and carries between 1 ton and a truck's capacity. |
| Guarantees.AssignedTonsPerOrder | scheduler_demo.py:72-121 | In a successful run each order is assigned exactly its tons in total when there is a truck and its tons are positive, and nothing otherwise. |
| Guarantees.SortPosition | scheduler_demo.py:77 | An order with a strictly better key, or an equal key earlier in the input, is placed earlier by the sort. |
| Guarantees.EarlierServedDispatchedFirst | scheduler_demo.py:76-80 | Every dispatch of an order served earlier comes before every dispatch of an order served later. |
| Guarantees.TruckTripsDoNotOverlap | scheduler_demo.py:72-121 | In a successful run no truck has two overlapping trips. Every trip is picked up no earlier than the hour from which some truck with its id was available, and arrives no earlier than pickup. |
| Guarantees.PlanFailsOnlyOnMissingRoute | scheduler_demo.py:72-121 | A run fails only on a missing route that one of the given orders needs. |
| Guarantees.PlanSucceedsWhenRoutesKnown | scheduler_demo.py:72-121 | A run succeeds when every truck starts at one of a set of sites, and every order's mine is one of those sites, its haul route is known, and every site has a repositioning route to that mine. |
| Guarantees.MissingHaulRouteAborts | scheduler_demo.py:72-121 | With a truck present, an order with positive tons and no haul route makes the run fail, wherever it is in the order list. |
| Guarantees.EmptyFleetPlansNothing | scheduler_demo.py:72-121 | With no trucks the run succeeds and dispatches nothing. |
| Guarantees.FirstDispatchServesFirstOrder | scheduler_demo.py:76-80 | The order the sort serves first, if it has tons and there is a truck, receives the first dispatch of a successful run. |
| Scenarios.TestInputsWithinSites | tests/test_scheduler_demo.py:4-32 | Both test inputs use positive capacities and distinct ids, and only routes the source's tables define. |
| Scenarios.TestRunsSucceed | tests/test_scheduler_demo.py:4-32 | Both test runs succeed on the source's route tables. |
| Scenarios.HighPriorityDispatchedFirst | tests/test_scheduler_demo.py:4-13 | The first test's plan is non-empty and its first dispatch is for order "HIGH". |
| Scenarios.AllOrdersFullyAssigned | tests/test_scheduler_demo.py:16-32 | The second test's plan assigns exactly 20 tons to "A" and 20 to "B", and nothing to any other id. |

## Left out

- `print_plan` and `demo` (console output and a sample run) are not modelled.
- The float score and `round(score, 1)` are not modelled. A dispatch keeps
  the exact score in integer tenths. Since `priority*100 - lateness*30 -
  tons*0.1` is a whole number of tenths for integer inputs, the model keeps
  the exact value. It does not model binary floating-point error, or rounding
  ties in `round`.
- Planner.Plan and Dispatcher.DispatchOrders: both require every truck's
  capacity to be positive. With a zero or negative capacity, the source's
  `while` loop can run forever when that truck wins the search. So runs on
  fleets that contain such a truck are not modelled, even those that
  terminate.
- Route tables are parameters. The source's TRAVEL_HOURS and
  TRUCK_REPOSITION_HOURS are the constants `Routes.TravelHours` and
  `Routes.RepositionHours`, which the test scenarios use. Durations are
  natural numbers, as in the source's tables.
- Dispatcher.ServeOrder and Dispatcher.DispatchOrders: `remaining` and
  `mutable_trucks` are modelled as map values that the loops reassign, not as
  dictionaries shared by reference. There is no aliasing to model, because the
  planner creates both dictionaries itself and never exposes them.
- The truck state after a trip, as written in the source: the truck stands at
  the order's mine, not at the plant, and is free at the arrival hour
  (lines 118-119). The model follows this.
- Duplicate order or truck ids follow the source's dict semantics (the later
  entry overwrites). The properties about whole runs assume distinct order
  ids where they say so.
- A KeyError is modelled as a `Result` error that names the table and the
  missing pair. The exception's message text and traceback are not modelled.
