/**
 * The two entry points around the router: `handle_webhook`, which receives
 * an FSHub event and forwards it to Discord, and `handle_test_notification`,
 * which sends a canned event of a chosen type. Both append to the plugin's
 * log. The decoded request body, the configured webhook URL, the outcome of
 * the HTTP post and the clock are inputs; whether and what the plugin posts
 * is an output.
 */
module Webhook {
  import opened Wrappers
  import opened Numbers
  import opened Php
  import opened Discord
  import opened FieldValues
  import opened Router

  /** One row of the plugin's log table: event kind, status, message and the payload id. */
  datatype LogRecord = LogRecord(kind: string, status: string, message: string, payloadId: Value)

  /** The REST response: HTTP code, `status` and the optional `message` of its JSON body. */
  datatype Reply = Reply(code: int, status: string, message: Option<string>)

  /** What the HTTP post to Discord returns: a transport error, or a reply with its code and body. */
  datatype Delivery = TransportError(error: string) | HttpReply(code: int, body: string)

  /** A post of a payload to the webhook URL. */
  datatype Post = Post(url: string, payload: Payload)

  /** What one webhook request does: the response, the log records it appends, and the post it makes. */
  datatype Outcome = Outcome(reply: Reply, records: seq<LogRecord>, post: Option<Post>)

  /** What one test request does: its single log record and the post it makes. */
  datatype TestOutcome = TestOutcome(record: LogRecord, post: Option<Post>)

  /** `!empty($webhook)`: the option holds a URL ("" and "0" are empty, as is an unset option). */
  predicate Configured(url: string) {
    url != "" && url != "0"
  }

  /** `in_array($type, $allowed, true)`: a string, and one of the four forwarded types. */
  predicate IsAllowed(t: Value) {
    t.Str? && t.s in AllowedTypes
  }

  const InvalidJson := "Invalid JSON"
  const NotConfigured := "The Discord webhook is not configured."
  const UnknownTest := "Error: The test type is unknown or did not generate an embed."

  /** The record every request starts with. */
  function Received(id: Value): LogRecord {
    LogRecord("webhook_received", "success", "Request received", id)
  }

  /** The record of a post that reached Discord: success only for the codes 200 and 204. */
  function DeliveredRecord(code: int, text: string, id: Value): (r: LogRecord)
    ensures r.kind == "discord_sent"
    ensures r.status == "success" <==> code == 200 || code == 204
    ensures r.status == "failed" <==> code != 200 && code != 204
  {
    if code == 204 || code == 200 then
      LogRecord("discord_sent", "success", "Discord message sent (Code: " + IntToStr(code) + ")", id)
    else
      LogRecord("discord_sent", "failed", "Discord error (Code: " + IntToStr(code) + "): " + text, id)
  }

  /** The record of the post itself: its transport error, or what Discord answered. */
  function DeliveryRecord(delivery: Delivery, id: Value): (r: LogRecord)
    ensures r.kind == "discord_sent" && r.payloadId == id
    ensures r.status == "success" <==> delivery.HttpReply? && (delivery.code == 200 || delivery.code == 204)
  {
    match delivery
    case TransportError(e) => LogRecord("discord_sent", "failed", "Error sending to Discord: " + e, id)
    case HttpReply(code, text) => DeliveredRecord(code, text, id)
  }

  /** The response once the post was made: 500 with the transport error, else 200 "ok" whatever the code. */
  function DeliveryReply(delivery: Delivery): (r: Reply)
    ensures delivery.TransportError? ==> r == Reply(500, "error", Some(delivery.error))
    ensures delivery.HttpReply? ==> r == Reply(200, "ok", None)
  {
    match delivery
    case TransportError(e) => Reply(500, "error", Some(e))
    case HttpReply(_, _) => Reply(200, "ok", None)
  }

  /** The specification of `handle_webhook`, one branch per early return. */
  function WebhookOutcome(body: Value, url: string, delivery: Delivery, parseDate: string -> Option<string>): (o: Outcome)
    ensures |o.records| == 2 && o.records[0] == Received(FlightId(body))
  {
    var id := FlightId(body);
    if !Truthy(body) then
      Outcome(Reply(400, "error", Some(InvalidJson)), [Received(id), LogRecord("webhook_received", "failed", InvalidJson, id)], None)
    else
      var t := Get(body, "_type");
      var d := Coalesce(Get(body, "_data"), EmptyArray);
      if !IsAllowed(t) then
        Outcome(Reply(200, "ignored", None),
          [Received(id), LogRecord("webhook_received", "ignored", "Ignored event type: " + ToStr(t), id)], None)
      else
        var forwarded := ForwardOutcome(url, delivery, BuildPayload(t.s, d, parseDate), id);
        Outcome(forwarded.reply, [Received(id)] + forwarded.records, forwarded.post)
  }

  /**
   * The part of `handle_webhook` after the payload is built: refuse with 500
   * when no webhook is configured, otherwise post the payload and report the
   * delivery. Exactly one record, of kind "discord_sent".
   */
  function ForwardOutcome(url: string, delivery: Delivery, payload: Payload, id: Value): (o: Outcome)
    ensures |o.records| == 1 && o.records[0].kind == "discord_sent" && o.records[0].payloadId == id
    ensures o.post.Some? <==> Configured(url)
    ensures o.post.Some? ==> o.post.value == Post(url, payload)
  {
    if !Configured(url) then
      Outcome(Reply(500, "error", Some(NotConfigured)), [LogRecord("discord_sent", "failed", "Missing Discord webhook", id)], None)
    else
      Outcome(DeliveryReply(delivery), [DeliveryRecord(delivery, id)], Some(Post(url, payload)))
  }

  /** A body that decodes to nothing truthy is refused with 400, logged as invalid, and nothing is posted. */
  lemma WebhookRejectsInvalidBody(body: Value, url: string, delivery: Delivery, parseDate: string -> Option<string>)
    ensures var o := WebhookOutcome(body, url, delivery, parseDate);
      (o.reply.code == 400 <==> !Truthy(body))
      && (!Truthy(body) ==> o.post == None && o.reply.message == Some(InvalidJson) && o.records[1].status == "failed")
  {
  }

  /**
   * The plugin posts exactly when the body is truthy, its type is one of the
   * four allowed strings and a webhook URL is configured; what it posts is
   * the router's payload for that type and data, which always has an embed.
   */
  lemma WebhookPostsOnlyWhenReady(body: Value, url: string, delivery: Delivery, parseDate: string -> Option<string>)
    ensures var o := WebhookOutcome(body, url, delivery, parseDate);
      var t := Get(body, "_type");
      && (o.post.Some? <==> Truthy(body) && IsAllowed(t) && Configured(url))
      && (o.post.Some? ==> o.post.value == Post(url, BuildPayload(t.s, Coalesce(Get(body, "_data"), EmptyArray), parseDate))
                           && HasEmbeds(o.post.value.payload))
  {
  }

  /**
   * The response code: 400 for an invalid body; 200 "ignored" for a type
   * that is not forwarded; 500 when no webhook is configured or the post
   * fails in transport; 200 "ok" whenever Discord answered at all.
   */
  lemma WebhookStatusCodes(body: Value, url: string, delivery: Delivery, parseDate: string -> Option<string>)
    ensures var o := WebhookOutcome(body, url, delivery, parseDate);
      var allowed := Truthy(body) && IsAllowed(Get(body, "_type"));
      && (o.reply == Reply(200, "ignored", None) <==> Truthy(body) && !IsAllowed(Get(body, "_type")))
      && (o.reply.code == 500 <==> allowed && (!Configured(url) || delivery.TransportError?))
      && (o.reply == Reply(200, "ok", None) <==> allowed && Configured(url) && delivery.HttpReply?)
      && (!Configured(url) && allowed ==> o.reply.message == Some(NotConfigured))
  {
  }

  /** The delivery is logged as a success exactly when Discord answered 200 or 204; any answer still gives "ok". */
  lemma WebhookSuccessLogged(body: Value, url: string, delivery: Delivery, parseDate: string -> Option<string>)
    ensures var o := WebhookOutcome(body, url, delivery, parseDate);
      && (o.records[1].status == "success" <==>
            o.post.Some? && delivery.HttpReply? && (delivery.code == 200 || delivery.code == 204))
      && (o.post.Some? && delivery.HttpReply? ==> o.reply.status == "ok")
  {
  }

  /** The specification of `handle_test_notification` for a test type and its canned data. */
  function TestNotificationOutcome(testType: string, fixture: Value, url: string, delivery: Delivery, now: int,
                                   parseDate: string -> Option<string>): (o: TestOutcome)
    ensures o.record.kind == "discord_test_sent" && o.record.payloadId == Str("TEST-" + IntToStr(now))
  {
    var payload := BuildPayload(testType, fixture, parseDate);
    var result: (string, string, Option<Post>) :=
      if !HasEmbeds(payload) then ("failed", UnknownTest, None)
      else if !Configured(url) then ("failed", "Missing Discord webhook", None)
      else match delivery
        case TransportError(e) => ("failed", e, Some(Post(url, payload)))
        case HttpReply(_, _) => ("success", "Test successful", Some(Post(url, payload)));
    var message := "Discord notification test: " + testType + " (" + result.1 + ")";
    TestOutcome(LogRecord("discord_test_sent", result.0, message, Str("TEST-" + IntToStr(now))), result.2)
  }

  /** A type the router does not handle is reported as an error, and nothing is posted. */
  lemma TestUnknownTypeFails(testType: string, fixture: Value, url: string, delivery: Delivery, now: int,
                             parseDate: string -> Option<string>)
    requires testType !in AllowedTypes
    ensures var o := TestNotificationOutcome(testType, fixture, url, delivery, now, parseDate);
      && o.post == None
      && o.record.status == "failed"
      && o.record.message == "Discord notification test: " + testType + " (" + UnknownTest + ")"
  {
  }

  /**
   * A test succeeds exactly when its type is handled, a webhook is
   * configured and Discord answered, whatever the HTTP code of the answer.
   */
  lemma TestSuccessIgnoresHttpCode(testType: string, fixture: Value, url: string, delivery: Delivery, now: int,
                                   parseDate: string -> Option<string>)
    ensures var o := TestNotificationOutcome(testType, fixture, url, delivery, now, parseDate);
      && (o.record.status == "success" <==> testType in AllowedTypes && Configured(url) && delivery.HttpReply?)
      && (o.post.Some? <==> testType in AllowedTypes && Configured(url))
  {
  }

  /** The plugin's configuration and its log. */
  class Plugin {
    /** The `fshub_discord_webhook_url` option. */
    var webhookUrl: string
    /** The rows `log_event` has inserted, oldest first. */
    var log: seq<LogRecord>

    constructor (url: string)
      ensures webhookUrl == url && log == []
    {
      webhookUrl := url;
      log := [];
    }

    /** `log_event(...)`: appends one record. */
    method LogEvent(kind: string, status: string, message: string, payloadId: Value)
      modifies this`log
      ensures log == old(log) + [LogRecord(kind, status, message, payloadId)]
    {
      log := log + [LogRecord(kind, status, message, payloadId)];
    }

    /** `handle_webhook($request)` for the decoded body of the request. */
    method HandleWebhook(body: Value, delivery: Delivery, parseDate: string -> Option<string>) returns (reply: Reply, post: Option<Post>)
      modifies this`log
      ensures var o := WebhookOutcome(body, webhookUrl, delivery, parseDate);
        reply == o.reply && post == o.post && log == old(log) + o.records
    {
      var payloadId := FlightId(body);
      LogEvent("webhook_received", "success", "Request received", payloadId);
      if !Truthy(body) {
        LogEvent("webhook_received", "failed", InvalidJson, payloadId);
        return Reply(400, "error", Some(InvalidJson)), None;
      }
      var t := Get(body, "_type");
      var d := Coalesce(Get(body, "_data"), EmptyArray);
      if !IsAllowed(t) {
        LogEvent("webhook_received", "ignored", "Ignored event type: " + ToStr(t), payloadId);
        return Reply(200, "ignored", None), None;
      }
      var payload := BuildPayload(t.s, d, parseDate);
      ghost var before := log;
      reply, post := Forward(payload, delivery, payloadId);
      ghost var forwarded := ForwardOutcome(webhookUrl, delivery, payload, payloadId);
      assert log == old(log) + ([Received(payloadId)] + forwarded.records) by {
        assert before == old(log) + [Received(payloadId)];
      }
    }

    /** The part of `handle_webhook` after the payload is built: check the URL, post, log and answer. */
    method Forward(payload: Payload, delivery: Delivery, payloadId: Value) returns (reply: Reply, post: Option<Post>)
      modifies this`log
      ensures var o := ForwardOutcome(webhookUrl, delivery, payload, payloadId);
        reply == o.reply && post == o.post && log == old(log) + o.records
    {
      var webhook := webhookUrl;
      if !Configured(webhook) {
        LogEvent("discord_sent", "failed", "Missing Discord webhook", payloadId);
        return Reply(500, "error", Some(NotConfigured)), None;
      }
      post := Some(Post(webhook, payload));
      reply := LogDelivery(delivery, payloadId);
    }

    /** The tail of `handle_webhook` once the post was made: log its result and answer. */
    method LogDelivery(delivery: Delivery, payloadId: Value) returns (reply: Reply)
      modifies this`log
      ensures reply == DeliveryReply(delivery) && log == old(log) + [DeliveryRecord(delivery, payloadId)]
    {
      match delivery {
        case TransportError(e) =>
          LogEvent("discord_sent", "failed", "Error sending to Discord: " + e, payloadId);
          reply := Reply(500, "error", Some(e));
        case HttpReply(code, text) =>
          if code == 204 || code == 200 {
            LogEvent("discord_sent", "success", "Discord message sent (Code: " + IntToStr(code) + ")", payloadId);
          } else {
            LogEvent("discord_sent", "failed", "Discord error (Code: " + IntToStr(code) + "): " + text, payloadId);
          }
          reply := Reply(200, "ok", None);
      }
    }

    /** `handle_test_notification()` for the chosen type, its canned data and the current time. */
    method HandleTestNotification(testType: string, fixture: Value, delivery: Delivery, now: int,
                                  parseDate: string -> Option<string>) returns (post: Option<Post>)
      modifies this`log
      ensures var o := TestNotificationOutcome(testType, fixture, webhookUrl, delivery, now, parseDate);
        post == o.post && log == old(log) + [o.record]
    {
      var payload := BuildPayload(testType, fixture, parseDate);
      var status := "failed";
      var message := "Unknown error";
      post := None;
      if HasEmbeds(payload) {
        var webhook := webhookUrl;
        if !Configured(webhook) {
          status := "failed";
          message := "Missing Discord webhook";
        } else {
          post := Some(Post(webhook, payload));
          match delivery {
            case TransportError(e) =>
              status := "failed";
              message := e;
            case HttpReply(_, _) =>
              status := "success";
              message := "Test successful";
          }
        }
      } else {
        message := UnknownTest;
      }
      LogEvent("discord_test_sent", status, "Discord notification test: " + testType + " (" + message + ")", Str("TEST-" + IntToStr(now)));
    }
  }
}
