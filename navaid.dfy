/** src/models/navaid.rs: navigation aid types and the range test of a navaid. */
module Navaid {
  import opened Errors
  import Text
  import Geo

  datatype NavaidType = Vor | VorDme | Dme | Ndb | Tacan | Other {

    function AsStr(): string {
      match this
      case Vor => "VOR"
      case VorDme => "VORDME"
      case Dme => "DME"
      case Ndb => "NDB"
      case Tacan => "TACAN"
      case Other => "OTHER"
    }

    /** `from_str`: case-insensitive; the match itself is `ParseUpper`. */
    static function FromStr(s: string): NavaidType {
      ParseUpper(Text.AsciiUpper(s))
    }

    /** The match on the upper-cased text; VOR/DME has three spellings; anything else is `Other`. */
    static function ParseUpper(u: string): (r: NavaidType)
      ensures r == VorDme <==> u in {"VORDME", "VOR-DME", "VOR/DME"}
      ensures r != VorDme && r != Other ==> u == r.AsStr()
      ensures r == Other <==> u !in {"VOR", "VORDME", "VOR-DME", "VOR/DME", "DME", "NDB", "TACAN"}
    {
      if u == "VOR" then Vor
      else if u == "VORDME" || u == "VOR-DME" || u == "VOR/DME" then VorDme
      else if u == "DME" then Dme
      else if u == "NDB" then Ndb
      else if u == "TACAN" then Tacan
      else Other
    }
  }

  /**
   * `Navaid`: frequency in MHz or kHz (a float in the source, a `real` here), range and
   * elevation in nautical miles and feet; `created_at` is the clock reading taken by `new`.
   */
  datatype Navaid = Navaid(
    id: string,
    name: string,
    navaidType: NavaidType,
    coordinate: Geo.Coordinate,
    frequency: Option<real>,
    rangeNm: Option<Int32>,
    elevation: Option<Int32>,
    region: Option<string>,
    createdAt: Int64)
  {
    /** `new`: none of the optional attributes is known. */
    static function New(id: string, name: string, navaidType: NavaidType, coordinate: Geo.Coordinate,
                        now: Int64): (n: Navaid)
      ensures n.id == id && n.name == name && n.navaidType == navaidType && n.coordinate == coordinate
      ensures n.createdAt == now
      ensures n.frequency.None? && n.rangeNm.None? && n.elevation.None? && n.region.None?
    {
      Navaid(id, name, navaidType, coordinate, None, None, None, None, now)
    }

    /**
     * `is_in_range`, given `distanceNm`, the great-circle distance from the navaid to the
     * coordinate asked about: within a known range, inclusive; never without one.
     */
    function IsInRange(distanceNm: real): (r: bool)
      ensures r ==> rangeNm.Some?
    {
      if rangeNm.Some? then distanceNm <= rangeNm.value as real else false
    }
  }

  /** Parsing the code of a type gives back that type. */
  lemma TypeRoundTrip(t: NavaidType)
    ensures NavaidType.FromStr(t.AsStr()) == t
  {
    assert NavaidType.ParseUpper(t.AsStr()) == t;
    Text.UpperFixes(t.AsStr());
  }

  /** Distinct types have distinct codes. */
  lemma AsStrInjective(a: NavaidType, b: NavaidType)
    ensures a.AsStr() == b.AsStr() ==> a == b
  {
    if a.AsStr() == b.AsStr() {
      TypeRoundTrip(a);
      TypeRoundTrip(b);
    }
  }

  /** `from_str` depends only on the upper-case form of its argument. */
  lemma FromStrIgnoresCase(s: string)
    ensures NavaidType.FromStr(s) == NavaidType.FromStr(Text.AsciiUpper(s))
  {
    Text.UpperIdempotent(s);
  }

  /** test_navaid_type_conversion. */
  lemma ConversionExamples()
    ensures NavaidType.FromStr("VOR-DME") == VorDme
    ensures NavaidType.FromStr("vor") == Vor
    ensures Ndb.AsStr() == "NDB"
  {
    Text.UpperFixes("VOR-DME");
    assert Text.AsciiUpper("vor") == "VOR";
  }

  /** All three spellings of VOR/DME, in any case, name the same type. */
  lemma VorDmeSpellings(s: string)
    requires Text.AsciiUpper(s) in {"VORDME", "VOR-DME", "VOR/DME"}
    ensures NavaidType.FromStr(s) == VorDme
  {
  }

  /** Without a known range nothing is in range, whatever the distance. */
  lemma NoRangeNeverInRange(n: Navaid, distanceNm: real)
    requires n.rangeNm.None?
    ensures !n.IsInRange(distanceNm)
  {
  }

  /** The range limit itself is in range: the comparison is inclusive. */
  lemma RangeLimitInRange(n: Navaid)
    requires n.rangeNm.Some?
    ensures n.IsInRange(n.rangeNm.value as real)
  {
  }

  /** Whatever is in range stays in range when it comes closer. */
  lemma InRangeDownwardClosed(n: Navaid, nearer: real, farther: real)
    requires nearer <= farther && n.IsInRange(farther)
    ensures n.IsInRange(nearer)
  {
  }

  /** Nothing beyond a known range is in range. */
  lemma BeyondRangeOutOfRange(n: Navaid, distanceNm: real)
    requires n.rangeNm.Some? && distanceNm > n.rangeNm.value as real
    ensures !n.IsInRange(distanceNm)
  {
  }

  /** A new navaid has no range, so nothing is in its range. */
  lemma NewNeverInRange(id: string, name: string, t: NavaidType, c: Geo.Coordinate, now: Int64, distanceNm: real)
    ensures !Navaid.New(id, name, t, c, now).IsInRange(distanceNm)
  {
  }
}
