/** src/flight/mod.rs: flight plans and the builder that assembles them field by field. */
module Flight {
  import opened Errors

  /** `FlightPlan`: ICAO codes, altitude in feet, speed in knots, and waypoint ids in order. */
  datatype FlightPlan = FlightPlan(
    departure: string,
    destination: string,
    alternate: Option<string>,
    cruiseAltitude: Int32,
    cruiseSpeed: Int32,
    route: seq<string>)

  /**
   * `FlightPlanBuilder`. The source threads an owned builder through its setters; here the
   * setters update the fields of one builder object.
   */
  class FlightPlanBuilder {
    var departure: Option<string>
    var destination: Option<string>
    var alternate: Option<string>
    var cruiseAltitude: Option<Int32>
    var cruiseSpeed: Option<Int32>
    var route: seq<string>

    /** `new`: nothing set, no waypoints. */
    constructor ()
      ensures departure.None? && destination.None? && alternate.None?
      ensures cruiseAltitude.None? && cruiseSpeed.None? && route == []
    {
      departure := None;
      destination := None;
      alternate := None;
      cruiseAltitude := None;
      cruiseSpeed := None;
      route := [];
    }

    method SetDeparture(icao: string)
      modifies this
      ensures departure == Some(icao)
      ensures destination == old(destination) && alternate == old(alternate)
      ensures cruiseAltitude == old(cruiseAltitude) && cruiseSpeed == old(cruiseSpeed) && route == old(route)
    {
      departure := Some(icao);
    }

    method SetDestination(icao: string)
      modifies this
      ensures destination == Some(icao)
      ensures departure == old(departure) && alternate == old(alternate)
      ensures cruiseAltitude == old(cruiseAltitude) && cruiseSpeed == old(cruiseSpeed) && route == old(route)
    {
      destination := Some(icao);
    }

    method SetAlternate(icao: string)
      modifies this
      ensures alternate == Some(icao)
      ensures departure == old(departure) && destination == old(destination)
      ensures cruiseAltitude == old(cruiseAltitude) && cruiseSpeed == old(cruiseSpeed) && route == old(route)
    {
      alternate := Some(icao);
    }

    method SetCruiseAltitude(altitude: Int32)
      modifies this
      ensures cruiseAltitude == Some(altitude)
      ensures departure == old(departure) && destination == old(destination) && alternate == old(alternate)
      ensures cruiseSpeed == old(cruiseSpeed) && route == old(route)
    {
      cruiseAltitude := Some(altitude);
    }

    method SetCruiseSpeed(speed: Int32)
      modifies this
      ensures cruiseSpeed == Some(speed)
      ensures departure == old(departure) && destination == old(destination) && alternate == old(alternate)
      ensures cruiseAltitude == old(cruiseAltitude) && route == old(route)
    {
      cruiseSpeed := Some(speed);
    }

    /** `add_waypoint`: appends to the route. */
    method AddWaypoint(waypointId: string)
      modifies this
      ensures route == old(route) + [waypointId]
      ensures departure == old(departure) && destination == old(destination) && alternate == old(alternate)
      ensures cruiseAltitude == old(cruiseAltitude) && cruiseSpeed == old(cruiseSpeed)
    {
      route := route + [waypointId];
    }

    /**
     * `build`: succeeds exactly when the four required fields are set, reports the first
     * missing one in the order departure, destination, altitude, speed, and otherwise
     * carries every field over unchanged.
     */
    function Build(): (r: Result<FlightPlan>)
      reads this
      ensures r.Ok? <==> departure.Some? && destination.Some? && cruiseAltitude.Some? && cruiseSpeed.Some?
      ensures departure.None? ==> r == Err(InvalidInput(DepartureRequired))
      ensures departure.Some? && destination.None? ==> r == Err(InvalidInput(DestinationRequired))
      ensures departure.Some? && destination.Some? && cruiseAltitude.None? ==>
                r == Err(InvalidInput(CruiseAltitudeRequired))
      ensures departure.Some? && destination.Some? && cruiseAltitude.Some? && cruiseSpeed.None? ==>
                r == Err(InvalidInput(CruiseSpeedRequired))
      ensures r.Ok? ==> && Some(r.value.departure) == departure && Some(r.value.destination) == destination
                        && r.value.alternate == alternate && Some(r.value.cruiseAltitude) == cruiseAltitude
                        && Some(r.value.cruiseSpeed) == cruiseSpeed && r.value.route == route
    {
      var dep :- departure.ToResult(InvalidInput(DepartureRequired));
      var dest :- destination.ToResult(InvalidInput(DestinationRequired));
      var altitude :- cruiseAltitude.ToResult(InvalidInput(CruiseAltitudeRequired));
      var speed :- cruiseSpeed.ToResult(InvalidInput(CruiseSpeedRequired));
      Ok(FlightPlan(dep, dest, alternate, altitude, speed, route))
    }
  }

  /** test_flight_plan_builder: all four required fields given, no alternate, no waypoints. */
  method BuildComplete() returns (r: Result<FlightPlan>)
    ensures r == Ok(FlightPlan("ZBAA", "ZSSS", None, 35000, 450, []))
  {
    var b := new FlightPlanBuilder();
    b.SetDeparture("ZBAA");
    b.SetDestination("ZSSS");
    b.SetCruiseAltitude(35000);
    b.SetCruiseSpeed(450);
    r := b.Build();
  }

  /** test_flight_plan_builder_missing_fields: only the departure is given. */
  method BuildMissingFields() returns (r: Result<FlightPlan>)
    ensures r == Err(InvalidInput(DestinationRequired))
  {
    var b := new FlightPlanBuilder();
    b.SetDeparture("ZBAA");
    r := b.Build();
  }

  /** Waypoints are kept in call order, and a repeated setter keeps only its last value. */
  method BuildInCallOrder(first: string, second: string) returns (r: Result<FlightPlan>)
    ensures r.Ok?
    ensures r.value.route == [first, second]
    ensures r.value.departure == "ZSSS" && r.value.alternate.None?
  {
    var b := new FlightPlanBuilder();
    b.SetDeparture("ZBAA");
    b.AddWaypoint(first);
    b.SetDestination("ZGGG");
    b.AddWaypoint(second);
    b.SetCruiseAltitude(35000);
    b.SetCruiseSpeed(450);
    b.SetDeparture("ZSSS");
    r := b.Build();
  }
}
