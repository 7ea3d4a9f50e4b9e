/** src/models/airway.rs: airway types, airways with altitude limits, and airway segments. */
module Airway {
  import opened Errors
  import Text
  import AltitudeBand

  datatype AirwayType = High | Low | Rnav | Other {

    function AsStr(): string {
      match this
      case High => "HIGH"
      case Low => "LOW"
      case Rnav => "RNAV"
      case Other => "OTHER"
    }

    /** `from_str`: case-insensitive; the match itself is `ParseUpper`. */
    static function FromStr(s: string): AirwayType {
      ParseUpper(Text.AsciiUpper(s))
    }

    /** The match on the upper-cased text; anything but the three codes is `Other`. */
    static function ParseUpper(u: string): (r: AirwayType)
      ensures r != Other ==> u == r.AsStr()
      ensures r == Other <==> u !in {"HIGH", "LOW", "RNAV"}
    {
      if u == "HIGH" then High
      else if u == "LOW" then Low
      else if u == "RNAV" then Rnav
      else Other
    }
  }

  /** `Airway`: altitude limits in feet; `created_at` is the clock reading taken by `new`. */
  datatype Airway = Airway(
    id: string,
    name: string,
    airwayType: AirwayType,
    minAltitude: Option<Int32>,
    maxAltitude: Option<Int32>,
    createdAt: Int64)
  {
    /** `new`: no altitude limits. */
    static function New(id: string, name: string, airwayType: AirwayType, now: Int64): (a: Airway)
      ensures a.id == id && a.name == name && a.airwayType == airwayType && a.createdAt == now
      ensures a.minAltitude.None? && a.maxAltitude.None?
    {
      Airway(id, name, airwayType, None, None, now)
    }

    /** `is_altitude_valid`: inclusive at both limits; a missing limit does not bound. */
    function IsAltitudeValid(altitude: Int32): (r: bool)
      ensures r <==> AltitudeBand.Within(minAltitude, maxAltitude, altitude)
    {
      match (minAltitude, maxAltitude)
      case (Some(min), Some(max)) => altitude >= min && altitude <= max
      case (Some(min), None) => altitude >= min
      case (None, Some(max)) => altitude <= max
      case (None, None) => true
    }
  }

  /**
   * `AirwaySegment`: the leg from one waypoint to the next. The distance in nautical miles
   * is a floating-point value in the source, modelled as a `real`.
   */
  datatype AirwaySegment = AirwaySegment(
    id: string,
    airwayId: string,
    fromWaypointId: string,
    toWaypointId: string,
    sequence: Int32,
    distance: Option<real>,
    createdAt: Int64)
  {
    /** `new`: the distance is not yet known. */
    static function New(id: string, airwayId: string, fromWaypointId: string, toWaypointId: string,
                        sequence: Int32, now: Int64): (g: AirwaySegment)
      ensures g.id == id && g.airwayId == airwayId && g.sequence == sequence && g.createdAt == now
      ensures g.fromWaypointId == fromWaypointId && g.toWaypointId == toWaypointId
      ensures g.distance.None?
    {
      AirwaySegment(id, airwayId, fromWaypointId, toWaypointId, sequence, None, now)
    }
  }

  /** Parsing the code of a type gives back that type. */
  lemma TypeRoundTrip(t: AirwayType)
    ensures AirwayType.FromStr(t.AsStr()) == t
  {
    assert AirwayType.ParseUpper(t.AsStr()) == t;
    Text.UpperFixes(t.AsStr());
  }

  /** `from_str` depends only on the upper-case form of its argument. */
  lemma FromStrIgnoresCase(s: string)
    ensures AirwayType.FromStr(s) == AirwayType.FromStr(Text.AsciiUpper(s))
  {
    Text.UpperIdempotent(s);
  }

  /** A new airway accepts every altitude. */
  lemma NewAcceptsEveryAltitude(id: string, name: string, t: AirwayType, now: Int64, altitude: Int32)
    ensures Airway.New(id, name, t, now).IsAltitudeValid(altitude)
  {
  }

  /** test_altitude_validation: limits 10000 and 30000 ft. */
  lemma AltitudeValidationExample(id: string, name: string, now: Int64)
    ensures var a := Airway.New(id, name, High, now).(minAltitude := Some(10000), maxAltitude := Some(30000));
            && a.IsAltitudeValid(20000) && !a.IsAltitudeValid(5000) && !a.IsAltitudeValid(35000)
            && a.IsAltitudeValid(10000) && a.IsAltitudeValid(30000)
  {
  }
}
