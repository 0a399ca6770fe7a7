/** `format_screenshot`: the embed for a `screenshots.uploaded` event. */
module Screenshot {
  import opened Wrappers
  import opened Php
  import opened Discord
  import opened FieldValues

  const ScreenshotColor := 0x87ceeb
  const ScreenshotFooter := FooterPrefix + "Screenshot"
  const ScreenshotTitle := "📸 New screenshots have been uploaded"

  /**
   * `is_array($d) && isset($d[0])`: d is an array whose element 0 is set,
   * element 0 of a list or the entry under key "0" of an object.
   */
  predicate HasFirst(d: Value) {
    (d.List? && |d.items| > 0 && d.items[0] != Null)
    || (d.Dict? && "0" in d.entries && d.entries["0"] != Null)
  }

  /** The screenshot described: element 0 when there is one, the value itself otherwise. */
  function SelectShot(d: Value): (s: Value)
    ensures d.List? && |d.items| > 0 && d.items[0] != Null ==> s == d.items[0]
    ensures d.Dict? && "0" in d.entries && d.entries["0"] != Null ==> s == d.entries["0"]
    ensures !HasFirst(d) ==> s == d
  {
    if d.List? && |d.items| > 0 && d.items[0] != Null then d.items[0]
    else if d.Dict? && "0" in d.entries && d.entries["0"] != Null then d.entries["0"]
    else d
  }

  /**
   * The time exactly as the source computes it, with parseDate standing for
   * `new DateTime($v)` formatted as 'Y-m-d H:i:s'. "N/A" when the value is
   * empty or does not parse; None where the constructor throws a TypeError
   * that `catch (Exception $e)` does not catch: a non-empty array.
   */
  function ScreenshotTimeAsWritten(v: Value, parseDate: string -> Option<string>): (r: Option<string>)
    ensures r == None <==> Truthy(v) && (v.List? || v.Dict?)
    ensures !Truthy(v) ==> r == Some("N/A")
    ensures Truthy(v) && !(v.List? || v.Dict?) ==>
      r == Some(if parseDate(ToStr(v)).Some? then parseDate(ToStr(v)).value + " UTC" else "N/A")
  {
    if !Truthy(v) then Some("N/A")
    else if v.List? || v.Dict? then None
    else
      match parseDate(ToStr(v))
      case Some(formatted) => Some(formatted + " UTC")
      case None => Some("N/A")
  }

  /** A non-empty array as the time kills the source's request instead of showing "N/A". */
  lemma ScreenshotTimeAsWrittenThrows(parseDate: string -> Option<string>)
    ensures ScreenshotTimeAsWritten(List([Str("2024-01-01")]), parseDate) == None
  {
  }

  /**
   * The time as shown: the parsed time followed by " UTC", or "N/A" when the
   * value is empty, is not a date, or is not a string or a number at all.
   */
  function ScreenshotTime(v: Value, parseDate: string -> Option<string>): (r: string)
    ensures !Truthy(v) || v.List? || v.Dict? ==> r == "N/A"
    ensures v.Str? && v.s != "" && v.s != "0" ==>
      r == (if parseDate(v.s).Some? then parseDate(v.s).value + " UTC" else "N/A")
  {
    if !Truthy(v) || v.List? || v.Dict? then "N/A"
    else
      match parseDate(ToStr(v))
      case Some(formatted) => formatted + " UTC"
      case None => "N/A"
  }

  /** The corrected time agrees with the source wherever the source produces a value. */
  lemma ScreenshotTimeCorrectsAsWritten(v: Value, parseDate: string -> Option<string>)
    ensures ScreenshotTimeAsWritten(v, parseDate).Some? ==>
      ScreenshotTime(v, parseDate) == ScreenshotTimeAsWritten(v, parseDate).value
    ensures ScreenshotTimeAsWritten(v, parseDate).None? ==> ScreenshotTime(v, parseDate) == "N/A"
  {
  }

  /** "<lat>, <lng>" when both are set, "N/A" otherwise. */
  function Coordinates(s: Value): (r: string)
    ensures Get(s, "lat") != Null && Get(s, "lng") != Null ==>
      r == ToStr(Get(s, "lat")) + ", " + ToStr(Get(s, "lng"))
    ensures Get(s, "lat") == Null || Get(s, "lng") == Null ==> r == "N/A"
  {
    if IsSet(Get(s, "lat")) && IsSet(Get(s, "lng")) then
      ToStr(Get(s, "lat")) + ", " + ToStr(Get(s, "lng"))
    else "N/A"
  }

  /** Time and coordinates, then the link to the flight only when the flight id is truthy. */
  function ShotFields(s: Value, parseDate: string -> Option<string>): (f: seq<Field>)
    ensures |f| == (if Truthy(Get(s, "flight_id")) then 3 else 2)
    ensures f[0] == Field("🕒 Time", ScreenshotTime(Get(s, "datetime"), parseDate), true)
    ensures f[1] == Field("🧭 Coordinates", Coordinates(s), true)
    ensures Truthy(Get(s, "flight_id")) ==>
      f[2] == Field("🔗 Flight link", "[View flight](" + FlightReportUrl(Get(s, "flight_id")) + ")", false)
    ensures NoSeparators(f)
  {
    var time := Field("🕒 Time", ScreenshotTime(Get(s, "datetime"), parseDate), true);
    var coordinates := Field("🧭 Coordinates", Coordinates(s), true);
    var flightId := Get(s, "flight_id");
    var link := if Truthy(flightId) then [Field("🔗 Flight link", "[View flight](" + FlightReportUrl(flightId) + ")", false)] else [];
    [time, coordinates] + link
  }

  /** The image is the screenshot's URL, present only when that URL is non-empty. */
  function ShotImage(s: Value): (image: Option<string>)
    ensures image.Some? <==> Truthy(Get(s, "screenshot_url"))
    ensures image.Some? ==> image.value == ToStr(Get(s, "screenshot_url"))
  {
    if Truthy(Get(s, "screenshot_url")) then Some(ToStr(Get(s, "screenshot_url"))) else None
  }

  /** `format_screenshot($d)`: exactly one embed describing the selected screenshot. */
  function FormatScreenshot(d: Value, parseDate: string -> Option<string>): (p: Payload)
    ensures p.Embeds? && |p.embeds| == 1
    ensures var e := p.embeds[0];
      var s := SelectShot(d);
      && e.title == ScreenshotTitle
      && e.color == ScreenshotColor
      && e.footer == ScreenshotFooter
      && e.description == None
      && e.fields == ShotFields(s, parseDate)
      && e.image == ShotImage(s)
  {
    var s := SelectShot(d);
    Embeds([Embed(ScreenshotTitle, None, ScreenshotColor, ShotFields(s, parseDate), ScreenshotFooter, ShotImage(s))])
  }

  /**
   * A batch of one screenshot and the bare screenshot give the same embed,
   * provided the screenshot is not itself an array with an element 0.
   */
  lemma ScreenshotWrapInvariant(x: Value, parseDate: string -> Option<string>)
    requires x != Null && !HasFirst(x)
    ensures FormatScreenshot(List([x]), parseDate) == FormatScreenshot(x, parseDate)
  {
  }

  /** Only the first screenshot of a batch is shown: the rest of the batch changes nothing. */
  lemma ScreenshotFirstOnly(x: Value, rest: seq<Value>, parseDate: string -> Option<string>)
    requires x != Null
    ensures FormatScreenshot(List([x] + rest), parseDate) == FormatScreenshot(List([x]), parseDate)
  {
  }
}
