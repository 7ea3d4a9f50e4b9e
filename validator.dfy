/**
 * src/flight/validator.rs: the checks a flight plan must pass, in the order the source runs
 * them. The ICAO codes of the `airports` table and the ids of the `waypoints` table are
 * given as sets.
 */
module Validator {
  import opened Errors
  import opened Flight

  const MinCruiseAltitude: int := 1000
  const MaxCruiseAltitude: int := 60000
  const MinCruiseSpeed: int := 50
  const MaxCruiseSpeed: int := 1000

  /** Every condition a valid plan meets, independent of the order they are checked in. */
  predicate PlanIsValid(airports: set<string>, waypoints: set<string>, plan: FlightPlan) {
    && plan.departure in airports
    && plan.destination in airports
    && plan.departure != plan.destination
    && (plan.alternate.Some? ==> plan.alternate.value in airports)
    && MinCruiseAltitude <= plan.cruiseAltitude <= MaxCruiseAltitude
    && MinCruiseSpeed <= plan.cruiseSpeed <= MaxCruiseSpeed
    && (forall i | 0 <= i < |plan.route| :: plan.route[i] in waypoints)
  }

  /** The position of the first waypoint of `route` that is not known, if any. */
  function FirstMissing(route: seq<string>, waypoints: set<string>): (r: Option<nat>)
    ensures r.None? <==> forall i | 0 <= i < |route| :: route[i] in waypoints
    ensures r.Some? ==> r.value < |route| && route[r.value] !in waypoints
    ensures r.Some? ==> forall j | 0 <= j < r.value :: route[j] in waypoints
  {
    if route == [] then None
    else if route[0] !in waypoints then Some(0)
    else
      match FirstMissing(route[1..], waypoints)
      case None => None
      case Some(k) => Some(k + 1)
  }

  /** The `for` loop over the route: the first unknown waypoint is reported. */
  function CheckRoute(route: seq<string>, waypoints: set<string>): (r: Result<bool>)
    ensures r == Ok(true) <==> forall i | 0 <= i < |route| :: route[i] in waypoints
    ensures r.Err? ==> exists i | 0 <= i < |route| :: route[i] !in waypoints && r.error == InvalidInput(WaypointNotFound(route[i]))
  {
    match FirstMissing(route, waypoints)
    case None => Ok(true)
    case Some(k) => Err(InvalidInput(WaypointNotFound(route[k])))
  }

  /** `validate_plan`: `Ok(true)` or the error of the first check that fails. */
  function ValidatePlan(airports: set<string>, waypoints: set<string>, plan: FlightPlan): (r: Result<bool>)
    ensures r.Ok? <==> PlanIsValid(airports, waypoints, plan)
    ensures r.Ok? ==> r.value
    ensures plan.departure !in airports ==> r == Err(InvalidInput(DepartureNotFound(plan.departure)))
    ensures plan.departure in airports && plan.destination !in airports ==>
              r == Err(InvalidInput(DestinationNotFound(plan.destination)))
    ensures plan.departure in airports && plan.destination in airports && plan.departure == plan.destination ==>
              r == Err(InvalidInput(SameDepartureAndDestination))
    ensures r.Err? && r.error == InvalidInput(AltitudeOutOfRange) ==>
              !(MinCruiseAltitude <= plan.cruiseAltitude <= MaxCruiseAltitude)
    ensures r.Err? && r.error == InvalidInput(SpeedOutOfRange) ==>
              !(MinCruiseSpeed <= plan.cruiseSpeed <= MaxCruiseSpeed)
  {
    if plan.departure !in airports then Err(InvalidInput(DepartureNotFound(plan.departure)))
    else if plan.destination !in airports then Err(InvalidInput(DestinationNotFound(plan.destination)))
    else if plan.departure == plan.destination then Err(InvalidInput(SameDepartureAndDestination))
    else if plan.alternate.Some? && plan.alternate.value !in airports then
      Err(InvalidInput(AlternateNotFound(plan.alternate.value)))
    else if plan.cruiseAltitude < MinCruiseAltitude || plan.cruiseAltitude > MaxCruiseAltitude then
      Err(InvalidInput(AltitudeOutOfRange))
    else if plan.cruiseSpeed < MinCruiseSpeed || plan.cruiseSpeed > MaxCruiseSpeed then
      Err(InvalidInput(SpeedOutOfRange))
    else CheckRoute(plan.route, waypoints)
  }

  /** Once the airports are right, the later checks run in order: alternate, altitude, speed, route. */
  lemma LaterChecksInOrder(airports: set<string>, waypoints: set<string>, plan: FlightPlan)
    requires plan.departure in airports && plan.destination in airports && plan.departure != plan.destination
    ensures var r := ValidatePlan(airports, waypoints, plan);
            && (plan.alternate.Some? && plan.alternate.value !in airports ==>
                  r == Err(InvalidInput(AlternateNotFound(plan.alternate.value))))
            && ((plan.alternate.None? || plan.alternate.value in airports) &&
                !(MinCruiseAltitude <= plan.cruiseAltitude <= MaxCruiseAltitude) ==>
                  r == Err(InvalidInput(AltitudeOutOfRange)))
            && ((plan.alternate.None? || plan.alternate.value in airports) &&
                MinCruiseAltitude <= plan.cruiseAltitude <= MaxCruiseAltitude &&
                !(MinCruiseSpeed <= plan.cruiseSpeed <= MaxCruiseSpeed) ==>
                  r == Err(InvalidInput(SpeedOutOfRange)))
  {
  }

  /** A plan that passes every other check fails on the first unknown waypoint of its route. */
  lemma FirstUnknownWaypointReported(airports: set<string>, waypoints: set<string>, plan: FlightPlan, k: nat)
    requires plan.departure in airports && plan.destination in airports && plan.departure != plan.destination
    requires plan.alternate.Some? ==> plan.alternate.value in airports
    requires MinCruiseAltitude <= plan.cruiseAltitude <= MaxCruiseAltitude
    requires MinCruiseSpeed <= plan.cruiseSpeed <= MaxCruiseSpeed
    requires k < |plan.route| && plan.route[k] !in waypoints
    requires forall j | 0 <= j < k :: plan.route[j] in waypoints
    ensures ValidatePlan(airports, waypoints, plan) == Err(InvalidInput(WaypointNotFound(plan.route[k])))
  {
    var f := FirstMissing(plan.route, waypoints);
    assert f.Some?;
    assert f.value == k;
  }

  /** `Ok(false)` is never returned: an invalid plan is always an error. */
  lemma NeverOkFalse(airports: set<string>, waypoints: set<string>, plan: FlightPlan)
    ensures ValidatePlan(airports, waypoints, plan) != Ok(false)
  {
  }

  /** The limits themselves are accepted. */
  lemma BoundsInclusive(airports: set<string>, waypoints: set<string>, plan: FlightPlan)
    requires plan.departure in airports && plan.destination in airports && plan.departure != plan.destination
    requires plan.alternate.None? && plan.route == []
    requires plan.cruiseAltitude in {MinCruiseAltitude, MaxCruiseAltitude}
    requires plan.cruiseSpeed in {MinCruiseSpeed, MaxCruiseSpeed}
    ensures ValidatePlan(airports, waypoints, plan) == Ok(true)
  {
  }

  /** The airports of the source's tests. */
  const TestAirports: set<string> := {"ZBAA", "ZSSS"}

  /** test_valid_plan, test_invalid_departure, test_same_departure_destination, test_invalid_altitude. */
  lemma ValidatorExamples(waypoints: set<string>)
    ensures ValidatePlan(TestAirports, waypoints, FlightPlan("ZBAA", "ZSSS", None, 35000, 450, [])) == Ok(true)
    ensures ValidatePlan(TestAirports, waypoints, FlightPlan("XXXX", "ZSSS", None, 35000, 450, [])).Err?
    ensures ValidatePlan(TestAirports, waypoints, FlightPlan("ZBAA", "ZBAA", None, 35000, 450, [])) ==
            Err(InvalidInput(SameDepartureAndDestination))
    ensures ValidatePlan(TestAirports, waypoints, FlightPlan("ZBAA", "ZSSS", None, 100, 450, [])) ==
            Err(InvalidInput(AltitudeOutOfRange))
  {
  }
}
