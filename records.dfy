/** The planner's records: the frozen Order, Truck and Dispatch dataclasses,
    the per-truck state the planner mutates, and the failure a route lookup
    raises. */
module Records {

  /** A demand to move `tons` from `mine` to `destination`;
      priority runs from 1 (low) to 5 (high). */
  datatype Order = Order(
    id: string,
    mine: string,
    destination: string,
    tons: int,
    deadlineHour: int,
    priority: int)

  datatype Truck = Truck(
    id: string,
    location: string,
    capacityTons: int,
    availableHour: int)

  /** One committed trip. The source rounds the score to one decimal place;
      here it is kept exactly, as an integer number of tenths. */
  datatype Dispatch = Dispatch(
    orderId: string,
    truckId: string,
    assignedTons: int,
    pickupHour: int,
    etaHour: int,
    scoreTenths: int)

  /** The mutable part of a truck during planning: where it is and when it is free. */
  datatype TruckState = TruckState(location: string, availableHour: int)

  /** The planner's `mutable_trucks` dictionary, keyed by truck id. */
  type Fleet = map<string, TruckState>

  /** Which of the two duration tables a failed lookup was made in. */
  datatype RouteTable = Haul | Reposition

  /** The KeyError of a lookup: the table and the missing (origin, destination) pair. */
  datatype RouteError = UndefinedRoute(table: RouteTable, origin: string, destination: string)

  datatype Option<T> = None | Some(value: T)

  /** A value, or the route error that aborts the planning run. */
  datatype Result<T> = Ok(value: T) | Err(error: RouteError) {
    predicate IsFailure() { Err? }

    function PropagateFailure<U>(): Result<U>
      requires Err?
    {
      Err(error)
    }

    function Extract(): T
      requires Ok?
    {
      value
    }
  }

  function Min(a: int, b: int): int {
    if a <= b then a else b
  }

  /** Order ids are the keys of the planner's `remaining` dictionary. */
  predicate UniqueOrderIds(orders: seq<Order>) {
    forall i, j :: 0 <= i < j < |orders| ==> orders[i].id != orders[j].id
  }

  predicate CapacitiesPositive(trucks: seq<Truck>) {
    forall t :: t in trucks ==> t.capacityTons > 0
  }
}
