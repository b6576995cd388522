/** The two static duration tables and their exact-key lookups. */
module Routes {
  import opened Records

  /** (origin, destination) to whole hours; TRAVEL_HOURS and
      TRUCK_REPOSITION_HOURS are both of this shape. */
  type DurationTable = map<(string, string), nat>

  /** TRAVEL_HOURS: haul hours from a mine to a plant. */
  const TravelHours: DurationTable := map[
    ("Mine-A", "Plant-1") := 3,
    ("Mine-A", "Plant-2") := 5,
    ("Mine-B", "Plant-1") := 4,
    ("Mine-B", "Plant-2") := 2]

  /** TRUCK_REPOSITION_HOURS: hours to move an empty truck to a mine. */
  const RepositionHours: DurationTable := map[
    ("Yard-East", "Mine-A") := 1,
    ("Yard-East", "Mine-B") := 2,
    ("Yard-West", "Mine-A") := 2,
    ("Yard-West", "Mine-B") := 1,
    ("Mine-A", "Mine-A") := 0,
    ("Mine-B", "Mine-B") := 0,
    ("Mine-A", "Mine-B") := 2,
    ("Mine-B", "Mine-A") := 2]

  /** `_trip_time`: the haul hours from a mine to a destination. */
  function TripTime(travel: DurationTable, mine: string, destination: string): (r: Result<nat>)
    ensures r.Ok? <==> (mine, destination) in travel
    ensures r.Ok? ==> r.value == travel[(mine, destination)]
    ensures r.Err? ==> r.error == UndefinedRoute(Haul, mine, destination)
  {
    if (mine, destination) in travel then Ok(travel[(mine, destination)])
    else Err(UndefinedRoute(Haul, mine, destination))
  }

  /** `_to_mine_time`: the repositioning hours from a truck's location to a mine. */
  function ToMineTime(reposition: DurationTable, location: string, mine: string): (r: Result<nat>)
    ensures r.Ok? <==> (location, mine) in reposition
    ensures r.Ok? ==> r.value == reposition[(location, mine)]
    ensures r.Err? ==> r.error == UndefinedRoute(Reposition, location, mine)
  {
    if (location, mine) in reposition then Ok(reposition[(location, mine)])
    else Err(UndefinedRoute(Reposition, location, mine))
  }
}
