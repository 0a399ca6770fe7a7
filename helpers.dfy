/**
 * The plugin's safe-access helpers: `safe`, `landing_style` and
 * `format_airport`.
 */
module Helpers {
  import opened Numbers
  import opened Php

  /** `safe($v)`: the value as a string, or "N/A" when it is absent or the empty string. */
  function Safe(v: Value): (r: string)
    ensures (v == Null || v == Str("")) ==> r == "N/A"
    ensures v.Str? && v.s != "" ==> r == v.s
    ensures v.Int? ==> r == IntToStr(v.i)
    ensures r == "" <==> v == Bool(false)
  {
    if IsSet(v) && v != Str("") then ToStr(v) else "N/A"
  }

  /** Falsy values other than null and "" still print: 0 shows as "0", not as "N/A". */
  lemma SafeKeepsZero()
    ensures Safe(Int(0)) == "0" && Safe(Str("0")) == "0"
  {
    assert NatToStr(0) == [DigitChar(0)];
  }

  // ---------------------------------------------------------------------------
  // Landing quality
  // ---------------------------------------------------------------------------

  const UltraSmooth := "Ultra smooth"
  const Soft := "Soft"
  const Normal := "Normal"
  const Firm := "Firm"
  const HardLanding := "Hard landing"

  /** The five quality buckets for a touchdown rate in feet per minute; each upper bound is exclusive. */
  function LandingLabel(rate: real): (quality: string)
    ensures quality == UltraSmooth <==> rate > -120.0
    ensures quality == Soft <==> -220.0 < rate <= -120.0
    ensures quality == Normal <==> -350.0 < rate <= -220.0
    ensures quality == Firm <==> -500.0 < rate <= -350.0
    ensures quality == HardLanding <==> rate <= -500.0
  {
    if rate > -120.0 then UltraSmooth
    else if rate > -220.0 then Soft
    else if rate > -350.0 then Normal
    else if rate > -500.0 then Firm
    else HardLanding
  }

  /** `landing_style($rate)`: "N/A" for an absent rate, else the bucket of `(float)$rate`. */
  function LandingStyle(rate: Value): (quality: string)
    ensures quality == "N/A" <==> rate == Null
    ensures rate != Null ==> quality == LandingLabel(ToFloat(rate))
  {
    if !IsSet(rate) then "N/A" else LandingLabel(ToFloat(rate))
  }

  /** How hard a bucket is: 0 for the softest, 4 for a hard landing. */
  function Severity(quality: string): nat {
    if quality == UltraSmooth then 0
    else if quality == Soft then 1
    else if quality == Normal then 2
    else if quality == Firm then 3
    else 4
  }

  /** A harder (more negative) touchdown never gets a softer label. */
  lemma LandingLabelMonotone(harder: real, softer: real)
    requires harder <= softer
    ensures Severity(LandingLabel(softer)) <= Severity(LandingLabel(harder))
  {
  }

  /** The boundary cases: each threshold belongs to the harsher bucket. */
  lemma LandingStyleBoundaries()
    ensures LandingStyle(Int(-119)) == UltraSmooth
    ensures LandingStyle(Int(-120)) == Soft
    ensures LandingStyle(Int(-219)) == Soft
    ensures LandingStyle(Int(-220)) == Normal
    ensures LandingStyle(Int(-350)) == Firm
    ensures LandingStyle(Int(-499)) == Firm
    ensures LandingStyle(Int(-500)) == HardLanding
    ensures LandingStyle(Int(-501)) == HardLanding
    ensures LandingStyle(Null) == "N/A"
  {
  }

  // ---------------------------------------------------------------------------
  // Airports
  // ---------------------------------------------------------------------------

  /** The " (city, country)" suffix, built piece by piece from whichever parts are truthy. */
  function LocaleSuffix(city: Value, country: Value): (suffix: string)
    ensures suffix == "" <==> !Truthy(city) && !Truthy(country)
    ensures Truthy(city) && Truthy(country) ==> suffix == " (" + ToStr(city) + ", " + ToStr(country) + ")"
    ensures Truthy(city) && !Truthy(country) ==> suffix == " (" + ToStr(city) + ")"
    ensures !Truthy(city) && Truthy(country) ==> suffix == " (" + ToStr(country) + ")"
  {
    if Truthy(city) || Truthy(country) then
      var start := " (";
      var withCity := if Truthy(city) then start + ToStr(city) else start;
      var withCountry := if Truthy(country) then withCity + (if Truthy(city) then ", " else "") + ToStr(country) else withCity;
      withCountry + ")"
    else ""
  }

  /**
   * `format_airport($a)`: "ICAO – name" followed by the locale suffix. The
   * `?? ''` defaults for city and country change nothing: an absent part is
   * falsy either way.
   */
  function FormatAirport(a: Value): (r: string)
    ensures var head := Safe(Get(a, "icao")) + " – " + Safe(Get(a, "name"));
      && |head| <= |r| && r[..|head|] == head
      && (r == head <==> !Truthy(Get(Get(a, "locale"), "city")) && !Truthy(Get(Get(a, "locale"), "country")))
      && r == head + LocaleSuffix(Get(Get(a, "locale"), "city"), Get(Get(a, "locale"), "country"))
  {
    var icao := Safe(Coalesce(Get(a, "icao"), Null));
    var name := Safe(Coalesce(Get(a, "name"), Null));
    var city := Coalesce(Get(Get(a, "locale"), "city"), Str(""));
    var country := Coalesce(Get(Get(a, "locale"), "country"), Str(""));
    icao + " – " + name + LocaleSuffix(city, country)
  }
}
