/** `format_flight_report`: the embed for a `flight.completed` event. */
module FlightReport {
  import opened Wrappers
  import opened Numbers
  import opened Php
  import opened Helpers
  import opened Discord
  import opened FieldValues

  const ReportColor := 0x3aa655
  const ReportFooter := FooterPrefix + "flight.completed"

  /** The title: the pilot's name, else "A pilot"; the arrival airport's name, else the planned arrival ICAO, else "an airport". */
  function ReportTitle(d: Value): string {
    var name := Get(Get(d, "user"), "name");
    var airport := Get(Get(Get(d, "arrival"), "airport"), "name");
    var userName := FirstSet(name, Null, UnknownPilot);
    var airportName := FirstSet(airport, Get(Get(d, "plan"), "icao_arr"), UnknownAirport);
    "🛬 " + userName + " just landed at **" + airportName + "**"
  }

  /**
   * The title names the pilot (or "A pilot") and the arrival airport: its
   * name, else the planned arrival ICAO, else "an airport", whatever the
   * pilot's name.
   */
  lemma ReportTitleText(d: Value)
    ensures var t := ReportTitle(d);
      var name := Get(Get(d, "user"), "name");
      var airport := Get(Get(Get(d, "arrival"), "airport"), "name");
      var planned := Get(Get(d, "plan"), "icao_arr");
      var pilot := if name != Null then ToStr(name) else UnknownPilot;
      && t == "🛬 " + FirstSet(name, Null, UnknownPilot) + " just landed at **" + FirstSet(airport, planned, UnknownAirport) + "**"
      && (airport != Null ==> t == "🛬 " + pilot + " just landed at **" + ToStr(airport) + "**")
      && (airport == Null && planned != Null ==> t == "🛬 " + pilot + " just landed at **" + ToStr(planned) + "**")
      && (airport == Null && planned == Null ==> t == "🛬 " + pilot + " just landed at **" + UnknownAirport + "**")
  {
  }

  /** The link to the flight's report page, present only when the flight id is truthy. */
  function ReportLink(d: Value): (l: seq<Field>)
    ensures |l| <= 1 && NoSeparators(l)
  {
    var id := FlightId(d);
    if Truthy(id) then [Field("🔗 Flight report", "[View flight](" + FlightReportUrl(id) + ")", false)] else []
  }

  /** Pilot, aircraft, registration, callsign, departure and arrival. */
  function FlightInfoFields(d: Value): (f: seq<Field>)
    ensures |f| == 6 && NoSeparators(f)
  {
    var aircraft := Get(d, "aircraft");
    var plan := Get(d, "plan");
    [
      Field("👨‍✈️ Pilot", Safe(Get(Get(d, "user"), "name")), true),
      Field("✈️ Aircraft", Safe(Get(aircraft, "icao")), true),
      Field("🔢 Registration", Safe(Get(Get(aircraft, "user_conf"), "tail")), true),
      Field("📡 Callsign", Callsign(plan), true),
      Field("🛫 Departure", AirportChain(Get(plan, "icao_dep"), Get(Get(Get(d, "departure"), "airport"), "name")), true),
      Field("🛬 Arrival", AirportChain(Get(plan, "icao_arr"), Get(Get(Get(d, "arrival"), "airport"), "name")), true)
    ]
  }

  /**
   * Pilot, aircraft and registration through `safe`; the callsign is the
   * flight number when that is truthy, and the plan's callsign only when
   * there is no flight number at all; each airport is "ICAO – name", else
   * whichever of the two is truthy, else "N/A".
   */
  lemma FlightInfoFieldsShown(d: Value)
    ensures var f := FlightInfoFields(d);
      var plan := Get(d, "plan");
      var aircraft := Get(d, "aircraft");
      && f[0] == Field("👨‍✈️ Pilot", Safe(Get(Get(d, "user"), "name")), true)
      && f[1] == Field("✈️ Aircraft", Safe(Get(aircraft, "icao")), true)
      && f[2] == Field("🔢 Registration", Safe(Get(Get(aircraft, "user_conf"), "tail")), true)
      && f[3] == Field("📡 Callsign", Callsign(plan), true)
      && f[4] == Field("🛫 Departure", AirportChain(Get(plan, "icao_dep"), Get(Get(Get(d, "departure"), "airport"), "name")), true)
      && f[5] == Field("🛬 Arrival", AirportChain(Get(plan, "icao_arr"), Get(Get(Get(d, "arrival"), "airport"), "name")), true)
      && (Truthy(Get(plan, "flight_no")) ==> f[3].value == ToStr(Get(plan, "flight_no")))
      && (Get(plan, "flight_no") == Null && Truthy(Get(plan, "callsign")) ==> f[3].value == ToStr(Get(plan, "callsign")))
      && (Get(plan, "flight_no") != Null && !Truthy(Get(plan, "flight_no")) ==> f[3].value == "N/A")
      && f[4].value != "" && f[5].value != ""
  {
  }

  /** The planned route in backquotes, or "N/A" when it is not truthy. */
  function RouteText(route: Value): (r: string)
    ensures Truthy(route) ==> r == "`" + ToStr(route) + "`"
    ensures !Truthy(route) ==> r == "N/A"
  {
    if Truthy(route) then "`" + ToStr(route) + "`" else "N/A"
  }

  /** Cruise altitude, distance, fuel burned and planned route. */
  function FlightDataFields(d: Value): (f: seq<Field>)
    ensures |f| == 4 && NoSeparators(f)
  {
    var plan := Get(d, "plan");
    [
      Field("🛫 Cruise altitude", CruiseText(Get(plan, "cruise_lvl")), true),
      Field("🧭 Distance", DistanceText(Get(d, "distance")), true),
      Field("🔥 Fuel burned", WithUnit(Get(d, "fuel_burnt"), " kg"), true),
      Field("🗺️ Planned route", RouteText(Get(plan, "route")), false)
    ]
  }

  /**
   * The cruise altitude as "FL<n> (<100n> ft)", the distance in NM (and km),
   * the fuel burned in kg and the route in backquotes; each "N/A" when missing.
   */
  lemma FlightDataFieldsShown(d: Value)
    ensures var f := FlightDataFields(d);
      var plan := Get(d, "plan");
      && f[0] == Field("🛫 Cruise altitude", CruiseText(Get(plan, "cruise_lvl")), true)
      && f[1] == Field("🧭 Distance", DistanceText(Get(d, "distance")), true)
      && f[2] == Field("🔥 Fuel burned", WithUnit(Get(d, "fuel_burnt"), " kg"), true)
      && f[3] == Field("🗺️ Planned route", RouteText(Get(plan, "route")), false)
      && (Get(plan, "cruise_lvl") == Null ==> f[0].value == "N/A")
      && (Get(Get(d, "distance"), "nm") == Null ==> f[1].value == "N/A")
      && (Get(d, "fuel_burnt") == Null ==> f[2].value == "N/A")
      && (!Truthy(Get(plan, "route")) ==> f[3].value == "N/A")
  {
  }

  /** Landing rate and quality, pitch, bank, wind at the arrival airport, and the schedule status. */
  function LandingFields(d: Value): (f: seq<Field>)
    ensures |f| == 6 && NoSeparators(f)
  {
    var arrival := Get(d, "arrival");
    var rate := Get(arrival, "landing_rate");
    [
      Field("🛬 Landing rate", WithUnit(rate, " fpm"), true),
      Field("🎯 Landing quality", LandingStyle(rate), true),
      Field("↕️ Pitch", WithUnit(Get(arrival, "pitch"), "°"), true),
      Field("🔄️ Bank", WithUnit(Get(arrival, "bank"), "°"), true),
      Field("💨 Wind", WindText(Get(arrival, "wind")), true),
      Field("📅 Status", Safe(Get(d, "schedule_status")), true)
    ]
  }

  /**
   * The rate shows as "<rate> fpm" beside the quality bucket of the rate, or
   * "N/A" in both; pitch and bank in degrees, the wind as "<speed> kt @
   * <direction>°" and the status through `safe`, each "N/A" when missing.
   */
  lemma LandingFieldsShown(d: Value)
    ensures var f := LandingFields(d);
      var arrival := Get(d, "arrival");
      var rate := Get(arrival, "landing_rate");
      && f[0].name == "🛬 Landing rate" && f[1].name == "🎯 Landing quality"
      && (rate != Null ==> f[0].value == ToStr(rate) + " fpm" && f[1].value == LandingLabel(ToFloat(rate)))
      && (rate == Null ==> f[0].value == "N/A" && f[1].value == "N/A")
      && f[2] == Field("↕️ Pitch", WithUnit(Get(arrival, "pitch"), "°"), true)
      && f[3] == Field("🔄️ Bank", WithUnit(Get(arrival, "bank"), "°"), true)
      && f[4] == Field("💨 Wind", WindText(Get(arrival, "wind")), true)
      && f[5] == Field("📅 Status", Safe(Get(d, "schedule_status")), true)
      && (Get(arrival, "pitch") != Null ==> f[2].value == ToStr(Get(arrival, "pitch")) + "°")
      && (Get(arrival, "bank") != Null ==> f[3].value == ToStr(Get(arrival, "bank")) + "°")
      && (Get(arrival, "pitch") == Null ==> f[2].value == "N/A")
      && (Get(arrival, "bank") == Null ==> f[3].value == "N/A")
      && (Get(Get(arrival, "wind"), "speed") == Null ==> f[4].value == "N/A")
      && (Get(d, "schedule_status") == Null ==> f[5].value == "N/A")
  {
  }

  /**
   * The optional report link, then the sections Flight information, Flight
   * data and Landing & Weather; with o the number of link fields, the
   * section breaks sit at o, o + 7 and o + 12 and are the only separators.
   */
  function ReportFields(d: Value): (f: seq<Field>)
    ensures var o := |ReportLink(d)|;
      && |f| == 19 + o
      && (forall k | 0 <= k < |f| :: IsSeparator(f[k]) <==> k == o || k == o + 7 || k == o + 12)
      && f[..o] == ReportLink(d)
      && f[o + 1..o + 7] == FlightInfoFields(d)
      && f[o + 8..o + 12] == FlightDataFields(d)
      && f[o + 13..] == LandingFields(d)
  {
    ThreeSections(ReportLink(d), "**💺 Flight information**", FlightInfoFields(d),
      "**✈️ Flight data**", FlightDataFields(d), "**🛬 Landing & Weather**", LandingFields(d))
  }

  /** `format_flight_report($d)`: exactly one embed, in the arrival colour and footer, without description or image. */
  function FormatFlightReport(d: Value): (p: Payload)
    ensures p.Embeds? && |p.embeds| == 1
    ensures var e := p.embeds[0];
      && e.title == ReportTitle(d)
      && e.color == ReportColor
      && e.footer == ReportFooter
      && e.description == None
      && e.image == None
      && e.fields == ReportFields(d)
  {
    Embeds([Embed(ReportTitle(d), None, ReportColor, ReportFields(d), ReportFooter, None)])
  }

  /**
   * The report opens with a link to the flight's FSHub page exactly when
   * `flight_id ?? id` is truthy; otherwise it opens with the Flight
   * information heading.
   */
  lemma ReportLinkFirst(d: Value)
    ensures var f := ReportFields(d);
      var id := FlightId(d);
      && (Truthy(id) <==> |f| == 20)
      && (Truthy(id) ==> f[0] == Field("🔗 Flight report", "[View flight](" + FlightReportUrl(id) + ")", false))
      && (!Truthy(id) ==> f[0] == Section("**💺 Flight information**"))
  {
    var f := ReportFields(d);
    var o := |ReportLink(d)|;
    if Truthy(FlightId(d)) {
      assert o == 1;
      assert f[0] == ReportLink(d)[0];
    } else {
      assert o == 0;
      assert f[0] == f[o..][0];
    }
  }
}
