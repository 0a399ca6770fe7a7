/** `build_discord_payload`: dispatch on the event type. */
module Router {
  import opened Wrappers
  import opened Php
  import opened Discord
  import Departure
  import FlightReport
  import Achievement
  import Screenshot

  /** The four event types the plugin forwards to Discord. */
  const AllowedTypes: seq<string> := ["flight.departed", "flight.completed", "airline.achievement", "screenshots.uploaded"]

  /** What the router produces for any other type. */
  const Unhandled: Payload := Content("Unhandled event")

  /**
   * `build_discord_payload($type, $d)`: each allowed type goes to its own
   * transformer; any other type gets a message with no embeds at all.
   */
  function BuildPayload(t: string, d: Value, parseDate: string -> Option<string>): (p: Payload)
    ensures HasEmbeds(p) <==> t in AllowedTypes
    ensures t !in AllowedTypes ==> p == Unhandled
    ensures p.Embeds? ==> |p.embeds| == 1
  {
    match t
    case "flight.departed" => Departure.FormatDeparture(d)
    case "flight.completed" => FlightReport.FormatFlightReport(d)
    case "airline.achievement" => Achievement.FormatAchievement(d)
    case "screenshots.uploaded" => Screenshot.FormatScreenshot(d, parseDate)
    case _ => Unhandled
  }

  /** Each allowed type goes to its own transformer. */
  lemma BuildPayloadRoutes(t: string, d: Value, parseDate: string -> Option<string>)
    ensures var p := BuildPayload(t, d, parseDate);
      && (t == "flight.departed" ==> p == Departure.FormatDeparture(d))
      && (t == "flight.completed" ==> p == FlightReport.FormatFlightReport(d))
      && (t == "airline.achievement" ==> p == Achievement.FormatAchievement(d))
      && (t == "screenshots.uploaded" ==> p == Screenshot.FormatScreenshot(d, parseDate))
  {
    match t
    case "flight.departed" =>
    case "flight.completed" =>
    case "airline.achievement" =>
    case "screenshots.uploaded" =>
    case _ =>
  }

  /** The embed's footer names the event, except for screenshots, whose footer says "Screenshot". */
  lemma FooterNamesEvent(t: string, d: Value, parseDate: string -> Option<string>)
    requires t in AllowedTypes
    ensures var p := BuildPayload(t, d, parseDate);
      t != "screenshots.uploaded" ==> p.embeds[0].footer == FooterPrefix + t
    ensures t == "screenshots.uploaded" ==> BuildPayload(t, d, parseDate).embeds[0].footer == FooterPrefix + "Screenshot"
  {
    BuildPayloadRoutes(t, d, parseDate);
    if t == "flight.departed" {
      assert Departure.FormatDeparture(d).embeds[0].footer == Departure.DepartureFooter;
    } else if t == "flight.completed" {
      assert FlightReport.FormatFlightReport(d).embeds[0].footer == FlightReport.ReportFooter;
    } else if t == "airline.achievement" {
      assert Achievement.FormatAchievement(d).embeds[0].footer == Achievement.AchievementFooter;
    } else {
      assert Screenshot.FormatScreenshot(d, parseDate).embeds[0].footer == Screenshot.ScreenshotFooter;
    }
  }
}
