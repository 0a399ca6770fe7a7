# FSHub → Discord webhook plugin, modelled in Dafny

The WordPress plugin `Fshub-discord-EN-2.0.1.php` receives FSHub events
(`flight.departed`, `flight.completed`, `airline.achievement`,
`screenshots.uploaded`) as JSON. It turns each event into a Discord embed
and posts it to a configured Discord webhook, and it logs each step. An
administrator can also send a canned test event of a chosen type.

This project models the part of the plugin that decides what is sent and
what is answered:

- **PHP values and operators** (`php_value.dfy`, `numbers.dfy`). The
  decoded body is a `Php.Value`. `??`, `isset`, truthiness, `(string)`,
  `(float)` and the operand of `* 100` are small functions over it. PHP's
  integer and float printing is modelled with a round-trip proof for
  integers.
- **The helpers** `safe`, `landing_style` and `format_airport`
  (`helpers.dfy`).
- **The four transformers**:
  - `format_departure` (`departure.dfy`);
  - `format_flight_report` (`flight_report.dfy`);
  - `format_airline_achievement` (`achievement.dfy`, with the word-boundary
    cut of the description in `word_cut.dfy`);
  - `format_screenshot` (`screenshot.dfy`).

  The values they share are in `field_values.dfy`, and the embed and
  section layout is in `discord.dfy`.
- **The router** `build_discord_payload` (`router.dfy`).
- **The two handlers** `handle_webhook` and `handle_test_notification`
  (`webhook.dfy`). They are methods of the class `Webhook.Plugin`, which
  holds the configured webhook URL and the log as a sequence of records.
  Each handler is proved to return, post and append exactly what a
  specification function (`WebhookOutcome`, `TestNotificationOutcome`)
  prescribes. Lemmas then state the handlers' decision rules about those
  functions.

The decoded request body, the outcome of the HTTP post (`Delivery`), the
clock (`now`) and the date parser behind `new DateTime(...)->format(...)`
(`parseDate`) are parameters. Whether the plugin posts, and what, is an
output.

## Model

| member | source | states |
|---|---|---|
| Helpers.Safe | Fshub-discord-EN-2.0.1.php:499-501 | "N/A" for null and for ""; a non-empty string is returned unchanged; an integer prints in decimal; the result is "" only for `false` |
| Helpers.SafeKeepsZero | Fshub-discord-EN-2.0.1.php:499-501 | the falsy values 0 and "0" still print as "0", not as "N/A" |
| Helpers.LandingLabel | Fshub-discord-EN-2.0.1.php:506-510 | each of the five labels is returned exactly on its interval of the rate: above -120, (-220, -120], (-350, -220], (-500, -350], at most -500 |
| Helpers.LandingStyle | Fshub-discord-EN-2.0.1.php:503-511 | "N/A" exactly when the rate is absent; otherwise the bucket of `(float)$rate` |
| Helpers.LandingLabelMonotone | Fshub-discord-EN-2.0.1.php:506-510 | a harder (lower) rate never gets a softer label |
| Helpers.LandingStyleBoundaries | Fshub-discord-EN-2.0.1.php:503-511 | each threshold belongs to the harsher bucket: -119 Ultra smooth, -120 Soft, -220 Normal, -350 and -499 Firm, -500 Hard landing; absent gives "N/A" |
| Helpers.LocaleSuffix | Fshub-discord-EN-2.0.1.php:517-526 | empty exactly when neither city nor country is truthy; otherwise " (city, country)", " (city)" or " (country)" |
| Helpers.FormatAirport | Fshub-discord-EN-2.0.1.php:513-529 | "ICAO – name", each part through `safe`, followed by LocaleSuffix of the locale's city and country; nothing is appended exactly when neither is truthy |
| Php.GetOrEmpty | Fshub-discord-EN-2.0.1.php:537-544 | reading a key of `$v ?? []` gives the same value as reading it of `$v` |
| Php.TruthyPrintsSomething | Fshub-discord-EN-2.0.1.php:702-703 | a truthy id never prints as the empty string |
| Numbers.IntToStrRoundTrip | Fshub-discord-EN-2.0.1.php:597 | the decimal text of an integer reads back as that integer (sign and digits) |
| Numbers.IntegralFloatPrintsAsInt | Fshub-discord-EN-2.0.1.php:597 | a float with no fractional part prints like the integer it equals, as `$level * 100` does for a level such as 3.5 |
| FieldValues.WithUnit | Fshub-discord-EN-2.0.1.php:644-654 | "N/A" for an absent value; otherwise the value's text followed by exactly the unit |
| FieldValues.FirstSet | Fshub-discord-EN-2.0.1.php:546-547 | the first operand of a `??` chain that is set, printed; the final default otherwise |
| FieldValues.CruiseAsWritten | Fshub-discord-EN-2.0.1.php:596-598 | "N/A" for an absent level; fails (None) exactly for an array or a string that does not start with a number |
| FieldValues.CruiseAsWrittenThrows | Fshub-discord-EN-2.0.1.php:597 | the levels `[]` and "FL350" make the expression throw |
| FieldValues.CruiseText | Fshub-discord-EN-2.0.1.php:596-598 | "N/A" for an absent or array level; for an integer level n, "FL" n " (" 100·n " ft)" |
| FieldValues.CruiseTextCorrectsAsWritten | Fshub-discord-EN-2.0.1.php:596-598 | the corrected text equals the source's wherever the source yields one, and is "N/A" where it throws |
| FieldValues.WindText | Fshub-discord-EN-2.0.1.php:625-629 | "N/A" without a speed; "<speed> kt @ <direction>°" with the direction falling back to "N/A" |
| FieldValues.DistanceText | Fshub-discord-EN-2.0.1.php:797-804 | "N/A" without nm; "<nm> NM", with " (<km> km)" appended only when km is set |
| FieldValues.AirportChain | Fshub-discord-EN-2.0.1.php:743-754 | "ICAO – name" when both are truthy, else whichever is truthy, else "N/A"; never empty |
| FieldValues.Callsign | Fshub-discord-EN-2.0.1.php:699-741 | a truthy flight number; the callsign only when the flight number is absent; "N/A" otherwise, including for a flight number of "" or "0" |
| FieldValues.FlightId | Fshub-discord-EN-2.0.1.php:701 | `flight_id` when it is set, `id` otherwise |
| Discord.Section | Fshub-discord-EN-2.0.1.php:578-582 | a section break is a separator (zero-width name, not inline) carrying the heading as value |
| Discord.ThreeSections | Fshub-discord-EN-2.0.1.php:577-663 | the lead fields, then three breaks each followed by its group, at the computed positions; when no group holds a separator, the breaks are exactly the separators |
| Departure.DepartureTitleText | Fshub-discord-EN-2.0.1.php:546-549 | the title is "🛫 <pilot> just departed from **<airport>**" with the pilot's name else "A pilot", and the airport's name else the planned departure else "an airport", for all six combinations |
| Departure.PilotFields | Fshub-discord-EN-2.0.1.php:556-575 | three fields, none a section break |
| Departure.PilotFieldsShown | Fshub-discord-EN-2.0.1.php:556-575 | Pilot, Aircraft and Registration, inline, each value through `safe`, so "N/A" when missing |
| Departure.RouteFields | Fshub-discord-EN-2.0.1.php:584-604 | three fields, none a section break |
| Departure.RouteFieldsShown | Fshub-discord-EN-2.0.1.php:584-604 | Departure is the planned departure, else the airport's ICAO, else "N/A"; Destination the planned arrival through `safe`; Cruise altitude is CruiseText, "FL<n> (<100n> ft)" for an integer level |
| Departure.NavigationFields | Fshub-discord-EN-2.0.1.php:613-635 | three fields, none a section break |
| Departure.NavigationFieldsShown | Fshub-discord-EN-2.0.1.php:613-635 | TAS "<v> kt", Heading "<v>°", Wind per WindText; each "N/A" when missing |
| Departure.WeightFields | Fshub-discord-EN-2.0.1.php:644-663 | three fields, none a section break |
| Departure.WeightFieldsShown | Fshub-discord-EN-2.0.1.php:644-663 | Fuel and ZFW "<v> kg" or "N/A"; Schedule "<time> • <status>" through `safe`, not inline, "N/A • N/A" with neither |
| Departure.DepartureFields | Fshub-discord-EN-2.0.1.php:551-663 | exactly 15 fields; separators at 3, 7 and 11 and nowhere else; the groups in order between them |
| Departure.FormatDeparture | Fshub-discord-EN-2.0.1.php:536-674 | one embed with colour 0x1d9bf0, footer "FSHub • flight.departed", an empty description, no image, and those fields |
| FlightReport.ReportTitleText | Fshub-discord-EN-2.0.1.php:689-693 | the title is "🛬 <pilot> just landed at **<airport>**" with the pilot's name else "A pilot", and the arrival airport's name else the planned arrival ICAO else "an airport", for all six combinations |
| FlightReport.ReportLink | Fshub-discord-EN-2.0.1.php:701-709 | at most one field, never a separator |
| FlightReport.FlightInfoFields | Fshub-discord-EN-2.0.1.php:711-779 | six fields, none a section break |
| FlightReport.FlightInfoFieldsShown | Fshub-discord-EN-2.0.1.php:711-779 | Pilot, Aircraft, Registration through `safe`; Callsign is Callsign of the plan (the flight number when truthy, the plan's callsign only when there is no flight number, else "N/A"); Departure and Arrival are AirportChain of the planned ICAO and the airport name, never empty |
| FlightReport.RouteText | Fshub-discord-EN-2.0.1.php:820-826 | the route in backquotes when truthy, "N/A" otherwise |
| FlightReport.FlightDataFields | Fshub-discord-EN-2.0.1.php:787-826 | four fields, none a section break |
| FlightReport.FlightDataFieldsShown | Fshub-discord-EN-2.0.1.php:787-826 | Cruise altitude is CruiseText, Distance DistanceText, Fuel burned "<v> kg", Planned route RouteText; each "N/A" when missing |
| FlightReport.LandingFields | Fshub-discord-EN-2.0.1.php:834-884 | six fields, none a section break |
| FlightReport.LandingFieldsShown | Fshub-discord-EN-2.0.1.php:834-884 | a set rate shows "<rate> fpm" beside LandingLabel of the rate, an absent one "N/A" in both; Pitch and Bank "<v>°", Wind per WindText, Status through `safe`; each "N/A" when missing |
| FlightReport.ReportFields | Fshub-discord-EN-2.0.1.php:695-884 | 19 fields plus the optional link; separators exactly at o, o+7, o+12 for o link fields; the groups in order |
| FlightReport.FormatFlightReport | Fshub-discord-EN-2.0.1.php:681-896 | one embed with colour 0x3aa655, footer "FSHub • flight.completed", no description, no image, and those fields |
| FlightReport.ReportLinkFirst | Fshub-discord-EN-2.0.1.php:701-715 | 20 fields exactly when `flight_id ?? id` is truthy, the first being the report link; otherwise the Flight information break comes first |
| Achievement.Pilot | Fshub-discord-EN-2.0.1.php:906-908 | "N/A" when the flight's user has no name |
| Achievement.AchievementUrl | Fshub-discord-EN-2.0.1.php:912-918 | a URL exactly when id and slug are both truthy: `https://fshub.io/achievement/<id>-<slug>/overview` |
| Achievement.AchievementTitle | Fshub-discord-EN-2.0.1.php:931 | pilot and achievement title both fall back to "N/A" |
| Achievement.AchievementFields | Fshub-discord-EN-2.0.1.php:933-956 | Description first (shortened), the link second exactly when the URL exists, Congratulations to the pilot last; 3 or 2 fields, no separator |
| Achievement.FormatAchievement | Fshub-discord-EN-2.0.1.php:902-968 | one embed with colour 0xffcc00, footer "FSHub • airline.achievement", no description, no image, and those fields |
| Achievement.AchievementDescriptionBounded | Fshub-discord-EN-2.0.1.php:921-928 | the description field is at most 161 characters, and is the whole description when that fits in 160 |
| WordCut.MatchesHereIff | Fshub-discord-EN-2.0.1.php:924 | the scan's local test agrees with "the suffix is matched by `\s+[^ ]*$`" |
| WordCut.FirstMatch | Fshub-discord-EN-2.0.1.php:924 | the leftmost start at which the pattern matches, or the end of the subject |
| WordCut.StripTrailingWordSpec | Fshub-discord-EN-2.0.1.php:924 | the result is a prefix; it is the whole cut exactly when the cut has no white space; otherwise the dropped suffix is the leftmost match; the kept prefix never ends in white space |
| WordCut.ShortDescription | Fshub-discord-EN-2.0.1.php:921-928 | "N/A" and descriptions of at most 160 are unchanged; a longer one becomes StripTrailingWord of its first 160 characters plus "…", so a prefix of them, all 160 kept exactly when they hold no white space |
| Screenshot.SelectShot | Fshub-discord-EN-2.0.1.php:976 | element 0 when the array has one set, the value itself otherwise |
| Screenshot.ScreenshotTimeAsWritten | Fshub-discord-EN-2.0.1.php:985-994 | "N/A" for an empty value or a date that does not parse; fails (None) exactly for a non-empty array |
| Screenshot.ScreenshotTimeAsWrittenThrows | Fshub-discord-EN-2.0.1.php:987 | a list holding a date string makes the constructor throw past the catch |
| Screenshot.ScreenshotTime | Fshub-discord-EN-2.0.1.php:985-994 | "N/A" for an empty value or any array; a date string shows its parse followed by " UTC", or "N/A" when it does not parse |
| Screenshot.ScreenshotTimeCorrectsAsWritten | Fshub-discord-EN-2.0.1.php:985-994 | the corrected time equals the source's wherever the source yields one, and is "N/A" where it throws |
| Screenshot.Coordinates | Fshub-discord-EN-2.0.1.php:981-983 | "<lat>, <lng>" when both are set, "N/A" otherwise |
| Screenshot.ShotFields | Fshub-discord-EN-2.0.1.php:996-1016 | Time first, Coordinates second, then the flight link exactly when `flight_id` is truthy |
| Screenshot.ShotImage | Fshub-discord-EN-2.0.1.php:1025-1027 | an image exactly when `screenshot_url` is non-empty, holding that URL |
| Screenshot.FormatScreenshot | Fshub-discord-EN-2.0.1.php:975-1032 | one embed with the fixed title, colour 0x87ceeb, footer "FSHub • Screenshot", the selected shot's fields and image |
| Screenshot.ScreenshotWrapInvariant | Fshub-discord-EN-2.0.1.php:976 | a one-element batch and the bare screenshot give the same embed |
| Screenshot.ScreenshotFirstOnly | Fshub-discord-EN-2.0.1.php:976 | screenshots after the first in a batch change nothing |
| Router.BuildPayload | Fshub-discord-EN-2.0.1.php:480-493 | a payload with embeds exactly for the four allowed types, with one embed; "Unhandled event" content otherwise |
| Router.BuildPayloadRoutes | Fshub-discord-EN-2.0.1.php:481-489 | each allowed type goes to its own transformer |
| Router.FooterNamesEvent | Fshub-discord-EN-2.0.1.php:480-493 | the footer is "FSHub • " followed by the event type, except "FSHub • Screenshot" for screenshots |
| Webhook.DeliveredRecord | Fshub-discord-EN-2.0.1.php:137-143 | logged as success exactly for the codes 200 and 204, as failed otherwise |
| Webhook.DeliveryRecord | Fshub-discord-EN-2.0.1.php:128-143 | success exactly when Discord answered 200 or 204; a transport error is a failure |
| Webhook.DeliveryReply | Fshub-discord-EN-2.0.1.php:128-145 | 500 with the error message on a transport error; 200 "ok" for any answer |
| Webhook.WebhookOutcome | Fshub-discord-EN-2.0.1.php:82-146 | every request logs exactly two records, the first being "Request received" with the payload id (with the corrected transformers; see Left out) |
| Webhook.ForwardOutcome | Fshub-discord-EN-2.0.1.php:112-145 | one "discord_sent" record; the payload is posted to the URL exactly when a URL is configured |
| Webhook.WebhookRejectsInvalidBody | Fshub-discord-EN-2.0.1.php:90-93 | 400 exactly for a falsy body; then nothing is posted, the message is "Invalid JSON" and the second record failed |
| Webhook.WebhookPostsOnlyWhenReady | Fshub-discord-EN-2.0.1.php:105-126 | a post happens exactly when the body is truthy, its type is allowed and a URL is configured; it carries the router's payload, which has embeds |
| Webhook.WebhookStatusCodes | Fshub-discord-EN-2.0.1.php:90-145 | 200 "ignored" exactly for a disallowed type; 500 exactly for a missing URL or a transport error; 200 "ok" exactly when Discord answered |
| Webhook.WebhookSuccessLogged | Fshub-discord-EN-2.0.1.php:137-145 | the delivery is logged as a success exactly when a post got 200 or 204; any answer gives "ok" |
| Webhook.TestNotificationOutcome | Fshub-discord-EN-2.0.1.php:280-311 | one record of kind "discord_test_sent" with payload id "TEST-<now>" |
| Webhook.TestUnknownTypeFails | Fshub-discord-EN-2.0.1.php:289-311 | a type the router does not handle posts nothing and logs the "unknown" error |
| Webhook.TestSuccessIgnoresHttpCode | Fshub-discord-EN-2.0.1.php:289-305 | success exactly when the type is handled, a URL is configured and Discord answered, whatever the code; a post exactly for a handled type and a URL |
| Webhook.Plugin.constructor | Fshub-discord-EN-2.0.1.php:60-62 | the plugin starts with the configured URL and an empty log |
| Webhook.Plugin.LogEvent | Fshub-discord-EN-2.0.1.php:43-55 | appends exactly one record to the log |
| Webhook.Plugin.HandleWebhook | Fshub-discord-EN-2.0.1.php:82-146 | the reply and the post are those of WebhookOutcome, and the log grows by exactly its records |
| Webhook.Plugin.Forward | Fshub-discord-EN-2.0.1.php:112-145 | the reply and the post are those of ForwardOutcome, and the log grows by exactly its record |
| Webhook.Plugin.LogDelivery | Fshub-discord-EN-2.0.1.php:128-145 | returns DeliveryReply and appends exactly DeliveryRecord |
| Webhook.Plugin.HandleTestNotification | Fshub-discord-EN-2.0.1.php:280-311 | the post is that of TestNotificationOutcome, and the log grows by exactly its record |

## Left out

- WordPress glue is not modelled because it is framework code: hook and REST route registration, settings, the admin statistics page with its SQL counts, and the test buttons.
- The database insert in `log_event` is not modelled. The log is a sequence of records on the plugin object, without the timestamp column.
- The nonce and capability checks, `wp_redirect` and `exit` in the test handler are framework control flow and are not modelled.
- `json_decode` is not modelled: the handler takes the decoded value. The REST response is a `Reply` value.
- `wp_remote_post`, `wp_json_encode` and the five-second timeout are not modelled. The post is an output and its result (`Delivery`) an input.
- `new DateTime(...)->format('Y-m-d H:i:s')` is the parameter `parseDate`. Time zones and the accepted date formats are not modelled.
- `time()` is the parameter `now`.
- `get_fake_test_data` is not modelled: the test handler takes the canned data as the parameter `fixture`.
- `sanitize_text_field` on the test type is not modelled: the handler takes the already sanitised type.
- `get_option` returning `false` for an unset URL is treated as "". Both are empty.
- Helpers.Safe, Php.ToStr: PHP converts a float to a string with the `precision` setting (14 significant digits by default) and switches to exponent notation for very large and very small values. Here a float prints as its exact decimal, which agrees only for the short decimals JSON payloads carry.
- Numbers.LeadingNumber: does not read an exponent. PHP's numeric strings accept `[eE][+-]?digits`, so `"1e3" * 100` is 100000.0 and `(float)"-1.5e2"` is -150.0. Here "1e3" reads as the integer 1 followed by other text, so FieldValues.CruiseText of "1e3" shows "FL1e3 (100 ft)", and Helpers.LandingStyle of "-1.5e2" gives "Ultra smooth" where PHP gives "Soft".
- Discord.Field: every value is a string. The source sends some values with their raw JSON type: the callsign (`$flightNumber ?: 'N/A'`, line 735), the airport values when only the ICAO is truthy (lines 749 and 768), and the screenshot URL (line 1026). An integer flight number therefore goes out as a JSON number, where the model shows its decimal text.
- Webhook.WebhookOutcome: describes the handler with the corrected cruise and screenshot-time values. With the code as written, the inputs in both Findings rows make `build_discord_payload` (line 110) die with an uncaught TypeError after the "Request received" record: no second record is written and no reply is returned. The model has no outcome for that.
- Php.ToFloat: `(float)` is modelled on exact reals. Binary rounding of the landing rate is not captured.
- WordCut.ShortDescription: counts characters where PHP's `strlen` and `substr` count bytes. The two agree on ASCII text. A multi-byte character can be split by PHP but not here.
- WordCut.StripTrailingWord: `\s` is taken as PHP's ASCII white space (space, tab, newline, vertical tab, form feed, carriage return), without Unicode white space.
- FieldValues.CruiseText: `$level * 100` on unbounded integers. PHP's overflow to float beyond 64 bits is not modelled.
- Achievement.AchievementTitle: states only the fully missing case. Otherwise the title is its definition.
- Achievement.Pilot: states only the missing-name case. Otherwise it is Helpers.Safe of the name.
- Every footer is "FSHub • <event type>" except the screenshot footer, which the code writes as "FSHub • Screenshot" (Router.FooterNamesEvent).
- The transformers use the corrected FieldValues.CruiseText and Screenshot.ScreenshotTime, not the as-written ones (see Findings).

## Findings

| source | as written | input that shows it | evidently intended | confidence | as-written member | corrected member |
|---|---|---|---|---|---|---|
| Fshub-discord-EN-2.0.1.php:596-598, 787-789 | `$plan['cruise_lvl'] * 100` is evaluated for any set level, so in PHP 8 an array or a non-numeric string throws a TypeError and the whole request fails | `plan.cruise_lvl = []` or `"FL350"` | the cruise field falls back to "N/A" like every other missing or unusable value | not executed | FieldValues.CruiseAsWrittenThrows | FieldValues.CruiseTextCorrectsAsWritten |
| Fshub-discord-EN-2.0.1.php:985-994 | `new DateTime($s['datetime'])` on an array throws a TypeError, which `catch (Exception $e)` does not catch, so the request fails instead of showing "N/A" | `datetime = ["2024-01-01"]` | any value that is not a date shows "N/A" | not executed | Screenshot.ScreenshotTimeAsWrittenThrows | Screenshot.ScreenshotTimeCorrectsAsWritten |
