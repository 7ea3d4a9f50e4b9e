/** src/models/airspace.rs: airspace classes and types, and the vertical extent of an airspace. */
module Airspace {
  import opened Errors
  import Text
  import AltitudeBand

  datatype AirspaceClass = ClassA | ClassB | ClassC | ClassD | ClassE | ClassG | Other {

    function AsStr(): string {
      match this
      case ClassA => "A"
      case ClassB => "B"
      case ClassC => "C"
      case ClassD => "D"
      case ClassE => "E"
      case ClassG => "G"
      case Other => "OTHER"
    }

    /** `from_str`: case-insensitive; the match itself is `ParseUpper`. */
    static function FromStr(s: string): AirspaceClass
    {
      ParseUpper(Text.AsciiUpper(s))
    }

    /** The match on the upper-cased text: a letter alone or "CLASS " and the letter; anything else is `Other`. */
    static function ParseUpper(u: string): (r: AirspaceClass)
      ensures r != AirspaceClass.Other ==> u in r.Spellings()
    {
      if u == "A" || u == "CLASS A" then ClassA
      else if u == "B" || u == "CLASS B" then ClassB
      else if u == "C" || u == "CLASS C" then ClassC
      else if u == "D" || u == "CLASS D" then ClassD
      else if u == "E" || u == "CLASS E" then ClassE
      else if u == "G" || u == "CLASS G" then ClassG
      else AirspaceClass.Other
    }

    /** The upper-case spellings the arm of `from_str` for this class accepts. */
    function Spellings(): set<string> {
      match this
      case ClassA => {"A", "CLASS A"}
      case ClassB => {"B", "CLASS B"}
      case ClassC => {"C", "CLASS C"}
      case ClassD => {"D", "CLASS D"}
      case ClassE => {"E", "CLASS E"}
      case ClassG => {"G", "CLASS G"}
      case Other => {}
    }
  }

  /** Every spelling `AirspaceClass::from_str` recognises, after upper-casing. */
  const ClassNames: set<string> :=
    {"A", "CLASS A", "B", "CLASS B", "C", "CLASS C", "D", "CLASS D", "E", "CLASS E", "G", "CLASS G"}

  datatype AirspaceType = ControlZone | TerminalArea | FlightInfoRegion | Restricted | Danger | Prohibited | Other {

    function AsStr(): string {
      match this
      case ControlZone => "CTR"
      case TerminalArea => "TMA"
      case FlightInfoRegion => "FIR"
      case Restricted => "RESTRICTED"
      case Danger => "DANGER"
      case Prohibited => "PROHIBITED"
      case Other => "OTHER"
    }

    /** `from_str`: case-insensitive; the match itself is `ParseUpper`. */
    static function FromStr(s: string): AirspaceType
    {
      ParseUpper(Text.AsciiUpper(s))
    }

    /** The match on the upper-cased text: the code, the long name, or the one-letter alias R, D or P. */
    static function ParseUpper(u: string): (r: AirspaceType)
      ensures r != AirspaceType.Other ==> u in r.Spellings()
    {
      if u == "CTR" || u == "CONTROL ZONE" then ControlZone
      else if u == "TMA" || u == "TERMINAL AREA" then TerminalArea
      else if u == "FIR" || u == "FLIGHT INFO REGION" then FlightInfoRegion
      else if u == "RESTRICTED" || u == "R" then Restricted
      else if u == "DANGER" || u == "D" then Danger
      else if u == "PROHIBITED" || u == "P" then Prohibited
      else AirspaceType.Other
    }

    /** The upper-case spellings the arm of `from_str` for this type accepts. */
    function Spellings(): set<string> {
      match this
      case ControlZone => {"CTR", "CONTROL ZONE"}
      case TerminalArea => {"TMA", "TERMINAL AREA"}
      case FlightInfoRegion => {"FIR", "FLIGHT INFO REGION"}
      case Restricted => {"RESTRICTED", "R"}
      case Danger => {"DANGER", "D"}
      case Prohibited => {"PROHIBITED", "P"}
      case Other => {}
    }
  }

  /** Every spelling `AirspaceType::from_str` recognises, after upper-casing. */
  const TypeNames: set<string> :=
    {"CTR", "CONTROL ZONE", "TMA", "TERMINAL AREA", "FIR", "FLIGHT INFO REGION",
     "RESTRICTED", "R", "DANGER", "D", "PROHIBITED", "P"}

  /** `Airspace`; `created_at` is the clock reading taken by `new`. */
  datatype Airspace = Airspace(
    id: string,
    name: string,
    airspaceType: AirspaceType,
    airspaceClass: Option<AirspaceClass>,
    lowerLimit: Option<Int32>,
    upperLimit: Option<Int32>,
    createdAt: Int64)
  {
    /** `new`: no class and no vertical limits. */
    static function New(id: string, name: string, airspaceType: AirspaceType, now: Int64): (a: Airspace)
      ensures a.id == id && a.name == name && a.airspaceType == airspaceType && a.createdAt == now
      ensures a.airspaceClass.None? && a.lowerLimit.None? && a.upperLimit.None?
    {
      Airspace(id, name, airspaceType, None, None, None, now)
    }

    /** `is_altitude_in_airspace`: inclusive at both limits; a missing limit does not bound. */
    function IsAltitudeInAirspace(altitude: Int32): (r: bool)
      ensures r <==> AltitudeBand.Within(lowerLimit, upperLimit, altitude)
    {
      match (lowerLimit, upperLimit)
      case (Some(lower), Some(upper)) => altitude >= lower && altitude <= upper
      case (Some(lower), None) => altitude >= lower
      case (None, Some(upper)) => altitude <= upper
      case (None, None) => true
    }
  }

  /** `from_str` falls back to `Other` exactly when no arm recognises the upper-cased text. */
  lemma ClassOtherIffUnrecognised(s: string)
    ensures AirspaceClass.FromStr(s) == AirspaceClass.Other <==> Text.AsciiUpper(s) !in ClassNames
  {
    var u := Text.AsciiUpper(s);
    assert AirspaceClass.ParseUpper(u) == AirspaceClass.Other <==> u !in ClassNames;
  }

  /** `from_str` falls back to `Other` exactly when no arm recognises the upper-cased text. */
  lemma TypeOtherIffUnrecognised(s: string)
    ensures AirspaceType.FromStr(s) == AirspaceType.Other <==> Text.AsciiUpper(s) !in TypeNames
  {
    var u := Text.AsciiUpper(s);
    assert AirspaceType.ParseUpper(u) == AirspaceType.Other <==> u !in TypeNames;
  }

  /** Parsing the name of a class gives back that class. */
  lemma ClassRoundTrip(c: AirspaceClass)
    ensures AirspaceClass.FromStr(c.AsStr()) == c
  {
    assert AirspaceClass.ParseUpper(c.AsStr()) == c;
    Text.UpperFixes(c.AsStr());
  }

  /** Parsing the code of a type gives back that type. */
  lemma TypeRoundTrip(t: AirspaceType)
    ensures AirspaceType.FromStr(t.AsStr()) == t
  {
    assert AirspaceType.ParseUpper(t.AsStr()) == t;
    Text.UpperFixes(t.AsStr());
  }

  /** `from_str` depends only on the upper-case form of its argument. */
  lemma FromStrIgnoresCase(s: string)
    ensures AirspaceClass.FromStr(s) == AirspaceClass.FromStr(Text.AsciiUpper(s))
    ensures AirspaceType.FromStr(s) == AirspaceType.FromStr(Text.AsciiUpper(s))
  {
    Text.UpperIdempotent(s);
  }

  /** test_airspace_class_conversion. */
  lemma ClassConversionExamples()
    ensures AirspaceClass.FromStr("B") == ClassB
    ensures AirspaceClass.FromStr("class c") == ClassC
    ensures ClassD.AsStr() == "D"
  {
    ClassRoundTrip(ClassB);
    assert Text.AsciiUpper("class c") == "CLASS C";
  }

  /** The one-letter aliases of the restricted, danger and prohibited types. */
  lemma TypeAliasExamples()
    ensures AirspaceType.FromStr("R") == Restricted
    ensures AirspaceType.FromStr("D") == Danger
    ensures AirspaceType.FromStr("P") == Prohibited
  {
    Text.UpperFixes("R");
    Text.UpperFixes("D");
    Text.UpperFixes("P");
  }

  /** A new airspace contains every altitude. */
  lemma NewContainsEveryAltitude(id: string, name: string, t: AirspaceType, now: Int64, altitude: Int32)
    ensures Airspace.New(id, name, t, now).IsAltitudeInAirspace(altitude)
  {
  }

  /** test_altitude_in_airspace: the band from 5000 to 15000 ft. */
  lemma BandExample(a: Airspace)
    requires a.lowerLimit == Some(5000) && a.upperLimit == Some(15000)
    ensures a.IsAltitudeInAirspace(10000) && a.IsAltitudeInAirspace(5000) && a.IsAltitudeInAirspace(15000)
    ensures !a.IsAltitudeInAirspace(3000) && !a.IsAltitudeInAirspace(20000)
  {
  }
}
