/**
 * ASCII case mapping, standing in for `str::to_uppercase` in the `from_str` functions of
 * src/models/. Only the letters a-z change; every other character is kept.
 */
module Text {

  predicate IsAsciiLower(c: char) {
    'a' <= c <= 'z'
  }

  predicate IsAsciiUpper(c: char) {
    'A' <= c <= 'Z'
  }

  /** No character of `s` is a lowercase ASCII letter. */
  predicate HasNoLower(s: string) {
    forall i | 0 <= i < |s| :: !IsAsciiLower(s[i])
  }

  function UpperChar(c: char): (u: char)
    ensures !IsAsciiLower(u)
    ensures IsAsciiLower(c) <==> u != c
  {
    if IsAsciiLower(c) then (c as int - 32) as char else c
  }

  function AsciiUpper(s: string): (r: string)
    ensures |r| == |s|
    ensures forall i | 0 <= i < |s| :: r[i] == UpperChar(s[i])
    ensures HasNoLower(r)
  {
    if s == [] then [] else [UpperChar(s[0])] + AsciiUpper(s[1..])
  }

  /** A string without lowercase letters is its own upper-case form. */
  lemma UpperFixes(s: string)
    requires HasNoLower(s)
    ensures AsciiUpper(s) == s
  {
    var u := AsciiUpper(s);
    assert forall i | 0 <= i < |s| :: u[i] == s[i];
  }

  /** Upper-casing twice is upper-casing once. */
  lemma UpperIdempotent(s: string)
    ensures AsciiUpper(AsciiUpper(s)) == AsciiUpper(s)
  {
    UpperFixes(AsciiUpper(s));
  }
}

/**
 * Inclusive altitude bands with optional limits, the rule shared by
 * `Airspace::is_altitude_in_airspace` and `Airway::is_altitude_valid`.
 */
module AltitudeBand {
  import opened Errors

  /** `altitude` is at or above a present lower limit and at or below a present upper limit. */
  predicate Within(lower: Option<int>, upper: Option<int>, altitude: int) {
    (lower.None? || lower.value <= altitude) && (upper.None? || altitude <= upper.value)
  }
}
