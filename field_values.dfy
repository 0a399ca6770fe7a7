/**
 * The derived field values the departure and flight-report transformers
 * share: unit suffixes, fallback chains, cruise altitude, wind and distance.
 */
module FieldValues {
  import opened Wrappers
  import opened Numbers
  import opened Php

  /** `isset($v) ? $v . $unit : 'N/A'`. */
  function WithUnit(v: Value, unit: string): (r: string)
    ensures v == Null ==> r == "N/A"
    ensures v != Null ==> |r| >= |unit| && r[|r| - |unit|..] == unit && r[..|r| - |unit|] == ToStr(v)
  {
    if IsSet(v) then ToStr(v) + unit else "N/A"
  }

  /** The stand-ins a title uses for a missing pilot name and a missing airport. */
  const UnknownPilot := "A pilot"
  const UnknownAirport := "an airport"

  /** `$a ?? ($b ?? $last)`, as interpolated into a title. */
  function FirstSet(a: Value, b: Value, last: string): (r: string)
    ensures a != Null ==> r == ToStr(a)
    ensures a == Null && b != Null ==> r == ToStr(b)
    ensures a == Null && b == Null ==> r == last
  {
    ToStr(Coalesce(a, Coalesce(b, Str(last))))
  }

  /**
   * The cruise altitude exactly as the source computes it: "N/A" when the
   * level is absent, otherwise "FL<level> (<level * 100> ft)"; None where
   * `$plan['cruise_lvl'] * 100` throws (an array, or a non-numeric string).
   */
  function CruiseAsWritten(level: Value): (r: Option<string>)
    ensures level == Null ==> r == Some("N/A")
    ensures r == None <==> level.List? || level.Dict? || (level.Str? && LeadingNumber(level.s) == None)
  {
    if !IsSet(level) then Some("N/A")
    else
      var operand := ArithmeticOperand(level);
      if operand.None? then None
      else Some("FL" + ToStr(level) + " (" + NumToStr(Times100(operand.value)) + " ft)")
  }

  /** A level of [] or "FL350" makes the source's request die instead of showing a value. */
  lemma CruiseAsWrittenThrows()
    ensures CruiseAsWritten(List([])) == None
    ensures CruiseAsWritten(Str("FL350")) == None
  {
    assert LeadingNumber("FL350") == None by {
      assert WhiteEnd("FL350", 0) == 0;
      assert DigitsEnd("FL350", 0) == 0;
    }
  }

  /**
   * The cruise altitude as shown: "FL<level> (<feet> ft)" with the feet a
   * hundred times the level, or "N/A" when the level is absent or is not a
   * number at all.
   */
  function CruiseText(level: Value): (r: string)
    ensures level == Null || level.List? || level.Dict? ==> r == "N/A"
    ensures level.Int? ==> r == "FL" + IntToStr(level.i) + " (" + IntToStr(100 * level.i) + " ft)"
  {
    var operand := ArithmeticOperand(level);
    if IsSet(level) && operand.Some? then
      "FL" + ToStr(level) + " (" + NumToStr(Times100(operand.value)) + " ft)"
    else "N/A"
  }

  /** The corrected cruise text agrees with the source wherever the source produces a value. */
  lemma CruiseTextCorrectsAsWritten(level: Value)
    ensures CruiseAsWritten(level).Some? ==> CruiseText(level) == CruiseAsWritten(level).value
    ensures CruiseAsWritten(level).None? ==> CruiseText(level) == "N/A"
  {
  }

  /** Wind as "<speed> kt @ <direction>°"; the direction alone may fall back to N/A. */
  function WindText(wind: Value): (r: string)
    ensures Get(wind, "speed") == Null ==> r == "N/A"
    ensures Get(wind, "speed") != Null && Get(wind, "direction") == Null ==>
      r == ToStr(Get(wind, "speed")) + " kt @ N/A°"
    ensures Get(wind, "speed") != Null && Get(wind, "direction") != Null ==>
      r == ToStr(Get(wind, "speed")) + " kt @ " + ToStr(Get(wind, "direction")) + "°"
  {
    if IsSet(Get(wind, "speed")) then
      ToStr(Get(wind, "speed")) + " kt @ " + ToStr(Coalesce(Get(wind, "direction"), Str("N/A"))) + "°"
    else "N/A"
  }

  /** Distance as "<nm> NM", with " (<km> km)" only when km is set; "N/A" without nm. */
  function DistanceText(distance: Value): (r: string)
    ensures Get(distance, "nm") == Null ==> r == "N/A"
    ensures Get(distance, "nm") != Null && Get(distance, "km") == Null ==>
      r == ToStr(Get(distance, "nm")) + " NM"
    ensures Get(distance, "nm") != Null && Get(distance, "km") != Null ==>
      r == ToStr(Get(distance, "nm")) + " NM (" + ToStr(Get(distance, "km")) + " km)"
  {
    if IsSet(Get(distance, "nm")) then
      var nm := ToStr(Get(distance, "nm")) + " NM";
      if IsSet(Get(distance, "km")) then nm + " (" + ToStr(Get(distance, "km")) + " km)" else nm
    else "N/A"
  }

  /**
   * The departure and arrival airports of a flight report: "ICAO – name"
   * when both are truthy, else whichever is, else "N/A"; never empty.
   */
  function AirportChain(icao: Value, name: Value): (r: string)
    ensures Truthy(icao) && Truthy(name) ==> r == ToStr(icao) + " – " + ToStr(name)
    ensures Truthy(icao) && !Truthy(name) ==> r == ToStr(icao)
    ensures !Truthy(icao) && Truthy(name) ==> r == ToStr(name)
    ensures !Truthy(icao) && !Truthy(name) ==> r == "N/A"
    ensures r != ""
  {
    if Truthy(icao) && Truthy(name) then ToStr(icao) + " – " + ToStr(name)
    else if Truthy(icao) then ToStr(icao)
    else if Truthy(name) then ToStr(name)
    else "N/A"
  }

  /**
   * `($plan['flight_no'] ?? $plan['callsign'] ?? null) ?: 'N/A'`. The
   * fallback to the callsign happens only when flight_no is absent: a
   * flight_no of "" or "0" shows "N/A" whatever the callsign.
   */
  function Callsign(plan: Value): (r: string)
    ensures Truthy(Get(plan, "flight_no")) ==> r == ToStr(Get(plan, "flight_no"))
    ensures Get(plan, "flight_no") != Null && !Truthy(Get(plan, "flight_no")) ==> r == "N/A"
    ensures Get(plan, "flight_no") == Null && Truthy(Get(plan, "callsign")) ==> r == ToStr(Get(plan, "callsign"))
    ensures Get(plan, "flight_no") == Null && !Truthy(Get(plan, "callsign")) ==> r == "N/A"
    ensures r != ""
  {
    var number := Coalesce(Get(plan, "flight_no"), Coalesce(Get(plan, "callsign"), Null));
    if Truthy(number) then ToStr(number) else "N/A"
  }

  /** `$v['flight_id'] ?? $v['id'] ?? null`: the id a flight report or a webhook body carries. */
  function FlightId(v: Value): (id: Value)
    ensures Get(v, "flight_id") != Null ==> id == Get(v, "flight_id")
    ensures Get(v, "flight_id") == Null ==> id == Get(v, "id")
  {
    Coalesce(Get(v, "flight_id"), Coalesce(Get(v, "id"), Null))
  }

  /** The FSHub page of a flight. */
  function FlightReportUrl(id: Value): string {
    "https://fshub.io/flight/" + ToStr(id) + "/report"
  }
}
