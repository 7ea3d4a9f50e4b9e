/** src/models/waypoint.rs: waypoint types and waypoints. */
module Waypoint {
  import opened Errors
  import Text
  import Geo

  datatype WaypointType = Airport | Vor | Ndb | Fix | Gps | Other {

    function AsStr(): string {
      match this
      case Airport => "AIRPORT"
      case Vor => "VOR"
      case Ndb => "NDB"
      case Fix => "FIX"
      case Gps => "GPS"
      case Other => "OTHER"
    }

    /** `from_str`: case-insensitive; the match itself is `ParseUpper`. */
    static function FromStr(s: string): WaypointType {
      ParseUpper(Text.AsciiUpper(s))
    }

    /** The match on the upper-cased text; anything but the five codes is `Other`. */
    static function ParseUpper(u: string): (r: WaypointType)
      ensures r != Other ==> u == r.AsStr()
      ensures r == Other <==> u !in {"AIRPORT", "VOR", "NDB", "FIX", "GPS"}
    {
      if u == "AIRPORT" then Airport
      else if u == "VOR" then Vor
      else if u == "NDB" then Ndb
      else if u == "FIX" then Fix
      else if u == "GPS" then Gps
      else Other
    }
  }

  /** `Waypoint`; `created_at` is the clock reading taken by `new`. */
  datatype Waypoint = Waypoint(
    id: string,
    name: string,
    coordinate: Geo.Coordinate,
    region: Option<string>,
    waypointType: WaypointType,
    createdAt: Int64)
  {
    /** `new`: no region; everything else as given. */
    static function New(id: string, name: string, coordinate: Geo.Coordinate, waypointType: WaypointType,
                        now: Int64): (w: Waypoint)
      ensures w.id == id && w.name == name && w.coordinate == coordinate && w.waypointType == waypointType
      ensures w.createdAt == now && w.region.None?
    {
      Waypoint(id, name, coordinate, None, waypointType, now)
    }
  }

  /** Parsing the code of a type gives back that type. */
  lemma TypeRoundTrip(t: WaypointType)
    ensures WaypointType.FromStr(t.AsStr()) == t
  {
    assert WaypointType.ParseUpper(t.AsStr()) == t;
    Text.UpperFixes(t.AsStr());
  }

  /** Distinct types have distinct codes. */
  lemma AsStrInjective(a: WaypointType, b: WaypointType)
    ensures a.AsStr() == b.AsStr() ==> a == b
  {
    if a.AsStr() == b.AsStr() {
      TypeRoundTrip(a);
      TypeRoundTrip(b);
    }
  }

  /** `from_str` depends only on the upper-case form of its argument. */
  lemma FromStrIgnoresCase(s: string)
    ensures WaypointType.FromStr(s) == WaypointType.FromStr(Text.AsciiUpper(s))
  {
    Text.UpperIdempotent(s);
  }

  /** test_waypoint_type_conversion. */
  lemma ConversionExamples()
    ensures WaypointType.FromStr("VOR") == Vor
    ensures WaypointType.FromStr("vor") == Vor
    ensures Gps.AsStr() == "GPS"
  {
    TypeRoundTrip(Vor);
    assert Text.AsciiUpper("vor") == "VOR";
  }
}
