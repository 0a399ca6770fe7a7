/** `format_departure`: the embed for a `flight.departed` event. */
module Departure {
  import opened Wrappers
  import opened Numbers
  import opened Php
  import opened Helpers
  import opened Discord
  import opened FieldValues

  const DepartureColor := 0x1d9bf0
  const DepartureFooter := FooterPrefix + "flight.departed"

  /** The title: the pilot's name, else "A pilot"; the airport's name, else the planned departure, else "an airport". */
  function DepartureTitle(d: Value): string {
    // `$d['user'] ?? []` and the like: reading a key of [] gives null just as
    // reading a key of null does (Php.GetOrEmpty), so the sections are read directly.
    var name := Get(Get(d, "user"), "name");
    var airport := Get(Get(d, "airport"), "name");
    var userName := FirstSet(name, Null, UnknownPilot);
    var airportName := FirstSet(airport, Get(Get(d, "plan"), "departure"), UnknownAirport);
    "🛫 " + userName + " just departed from **" + airportName + "**"
  }

  /**
   * The title names the pilot (or "A pilot") and the airport: its name, else
   * the planned departure, else "an airport", whatever the pilot's name.
   */
  lemma DepartureTitleText(d: Value)
    ensures var t := DepartureTitle(d);
      var name := Get(Get(d, "user"), "name");
      var airport := Get(Get(d, "airport"), "name");
      var planned := Get(Get(d, "plan"), "departure");
      var pilot := if name != Null then ToStr(name) else UnknownPilot;
      && t == "🛫 " + FirstSet(name, Null, UnknownPilot) + " just departed from **" + FirstSet(airport, planned, UnknownAirport) + "**"
      && (airport != Null ==> t == "🛫 " + pilot + " just departed from **" + ToStr(airport) + "**")
      && (airport == Null && planned != Null ==> t == "🛫 " + pilot + " just departed from **" + ToStr(planned) + "**")
      && (airport == Null && planned == Null ==> t == "🛫 " + pilot + " just departed from **" + UnknownAirport + "**")
  {
  }

  /** Pilot, aircraft and registration. */
  function PilotFields(d: Value): (f: seq<Field>)
    ensures |f| == 3 && NoSeparators(f)
  {
    var aircraft := Get(d, "aircraft");
    [
      Field("👨‍✈️ Pilot", Safe(Get(Get(d, "user"), "name")), true),
      Field("✈️ Aircraft", Safe(Get(aircraft, "icao")), true),
      Field("🔢 Registration", Safe(Get(Get(aircraft, "user_conf"), "tail")), true)
    ]
  }

  /** Each of the three shows its value through `safe`, so "N/A" when it is missing. */
  lemma PilotFieldsShown(d: Value)
    ensures var f := PilotFields(d);
      var name := Get(Get(d, "user"), "name");
      var icao := Get(Get(d, "aircraft"), "icao");
      var tail := Get(Get(Get(d, "aircraft"), "user_conf"), "tail");
      && f[0] == Field("👨‍✈️ Pilot", Safe(name), true)
      && f[1] == Field("✈️ Aircraft", Safe(icao), true)
      && f[2] == Field("🔢 Registration", Safe(tail), true)
      && (name == Null ==> f[0].value == "N/A")
      && (icao == Null ==> f[1].value == "N/A")
      && (tail == Null ==> f[2].value == "N/A")
  {
  }

  /** Departure, destination and cruise altitude. */
  function RouteFields(d: Value): (f: seq<Field>)
    ensures |f| == 3 && NoSeparators(f)
  {
    var plan := Get(d, "plan");
    [
      Field("📍 Departure", Safe(Coalesce(Get(plan, "departure"), Get(Get(d, "airport"), "icao"))), true),
      Field("🎯 Destination", Safe(Get(plan, "arrival")), true),
      Field("🏔️ Cruise altitude", CruiseText(Get(plan, "cruise_lvl")), true)
    ]
  }

  /**
   * The departure is the planned one, else the airport's ICAO; the
   * destination the planned arrival; the cruise altitude "FL<n> (<100n> ft)".
   */
  lemma RouteFieldsShown(d: Value)
    ensures var f := RouteFields(d);
      var plan := Get(d, "plan");
      var planned := Get(plan, "departure");
      var icao := Get(Get(d, "airport"), "icao");
      && f[0].name == "📍 Departure" && f[0].inline
      && (planned != Null ==> f[0].value == Safe(planned))
      && (planned == Null ==> f[0].value == Safe(icao))
      && (planned == Null && icao == Null ==> f[0].value == "N/A")
      && f[1] == Field("🎯 Destination", Safe(Get(plan, "arrival")), true)
      && f[2] == Field("🏔️ Cruise altitude", CruiseText(Get(plan, "cruise_lvl")), true)
      && (Get(plan, "cruise_lvl").Int? ==> var level := Get(plan, "cruise_lvl").i;
            f[2].value == "FL" + IntToStr(level) + " (" + IntToStr(100 * level) + " ft)")
  {
  }

  /** True airspeed, true heading and wind. */
  function NavigationFields(d: Value): (f: seq<Field>)
    ensures |f| == 3 && NoSeparators(f)
  {
    [
      Field("⚡ TAS", WithUnit(Get(d, "speed_tas"), " kt"), true),
      Field("🧭 Heading", WithUnit(Get(Get(d, "heading"), "true"), "°"), true),
      Field("💨 Wind", WindText(Get(d, "wind")), true)
    ]
  }

  /** TAS in kt, heading in degrees and the wind as "<speed> kt @ <direction>°"; each "N/A" when missing. */
  lemma NavigationFieldsShown(d: Value)
    ensures var f := NavigationFields(d);
      && f[0] == Field("⚡ TAS", WithUnit(Get(d, "speed_tas"), " kt"), true)
      && f[1] == Field("🧭 Heading", WithUnit(Get(Get(d, "heading"), "true"), "°"), true)
      && f[2] == Field("💨 Wind", WindText(Get(d, "wind")), true)
      && (Get(d, "speed_tas") != Null ==> f[0].value == ToStr(Get(d, "speed_tas")) + " kt")
      && (Get(Get(d, "heading"), "true") != Null ==> f[1].value == ToStr(Get(Get(d, "heading"), "true")) + "°")
      && (Get(d, "speed_tas") == Null ==> f[0].value == "N/A")
      && (Get(Get(d, "heading"), "true") == Null ==> f[1].value == "N/A")
      && (Get(Get(d, "wind"), "speed") == Null ==> f[2].value == "N/A")
  {
  }

  /** Fuel, zero-fuel weight and the schedule line. */
  function WeightFields(d: Value): (f: seq<Field>)
    ensures |f| == 3 && NoSeparators(f)
  {
    var weight := Get(d, "weight");
    var schedule := Get(d, "schedule");
    [
      Field("⛽ Fuel", WithUnit(Get(weight, "fuel"), " kg"), true),
      Field("⚖️ ZFW", WithUnit(Get(weight, "zfw"), " kg"), true),
      Field("🕒 Schedule", Safe(Get(schedule, "time")) + " • " + Safe(Get(schedule, "status")), false)
    ]
  }

  /** Fuel and ZFW in kg ("N/A" when missing); the schedule as "<time> • <status>", each through `safe`. */
  lemma WeightFieldsShown(d: Value)
    ensures var f := WeightFields(d);
      var weight := Get(d, "weight");
      var schedule := Get(d, "schedule");
      && f[0] == Field("⛽ Fuel", WithUnit(Get(weight, "fuel"), " kg"), true)
      && f[1] == Field("⚖️ ZFW", WithUnit(Get(weight, "zfw"), " kg"), true)
      && f[2] == Field("🕒 Schedule", Safe(Get(schedule, "time")) + " • " + Safe(Get(schedule, "status")), false)
      && (Get(weight, "fuel") == Null ==> f[0].value == "N/A")
      && (Get(weight, "zfw") == Null ==> f[1].value == "N/A")
      && (Get(schedule, "time") == Null && Get(schedule, "status") == Null ==> f[2].value == "N/A" + " • " + "N/A")
  {
  }

  /**
   * Pilot, aircraft and registration; then the sections Route & Flight
   * level, Navigation data and Weights. The three section breaks, at
   * positions 3, 7 and 11, are the only separators.
   */
  function DepartureFields(d: Value): (f: seq<Field>)
    ensures |f| == 15
    ensures forall k | 0 <= k < |f| :: IsSeparator(f[k]) <==> k == 3 || k == 7 || k == 11
    ensures f[..3] == PilotFields(d) && f[4..7] == RouteFields(d)
    ensures f[8..11] == NavigationFields(d) && f[12..] == WeightFields(d)
  {
    ThreeSections(PilotFields(d), "**🗺️ Route & Flight level**", RouteFields(d),
      "**✈️ Navigation data**", NavigationFields(d), "**📦 Weights**", WeightFields(d))
  }

  /** `format_departure($d)`: exactly one embed, in the departure colour and footer. */
  function FormatDeparture(d: Value): (p: Payload)
    ensures p.Embeds? && |p.embeds| == 1
    ensures var e := p.embeds[0];
      && e.title == DepartureTitle(d)
      && e.color == DepartureColor
      && e.footer == DepartureFooter
      && e.description == Some("")
      && e.image == None
      && e.fields == DepartureFields(d)
  {
    Embeds([Embed(DepartureTitle(d), Some(""), DepartureColor, DepartureFields(d), DepartureFooter, None)])
  }
}
