/** The serverless relay of `api/log-event.js`: it accepts a POSTed analytics
    event, turns it into a Discord embed and forwards it to a webhook. The
    webhook URL (from the environment), the clock readings and the outcome
    of the outgoing request are inputs. */
module LogEvent {
  import opened Js

  /** The fields the handler destructures from `req.body`. */
  datatype Body = Body(event: JsValue, quality: JsValue, processingTime: JsValue,
                       imageType: JsValue, audioType: JsValue)

  /** The request as the handler reads it. A missing body is None; a missing
      `user-agent` header is "". */
  datatype Request = Request(verb: string, body: Option<Body>, userAgent: string)

  /** What the webhook call does: it throws, or it answers with a status. */
  datatype Delivery = Unreachable | Answered(status: int)

  datatype Field = Field(name: string, value: JsValue, inline: bool)

  datatype Embed = Embed(title: string, color: int, fields: seq<Field>, footer: string, timestamp: string)

  /** The POST made to the webhook. */
  datatype Message = Message(url: string, embed: Embed)

  datatype Payload = Failure(error: string) | Success

  /** The response, and the message sent to the webhook on the way, if any. */
  datatype Reply = Reply(status: int, payload: Payload, sent: Option<Message>)

  // ---------------------------------------------------------------------------
  // getEventTitle and getEventColor

  /** The four events the relay knows by name. */
  predicate KnownEvent(event: JsValue)
  {
    event in {Str("video_processed"), Str("processing_started"), Str("processing_cancelled"),
              Str("processing_failed")}
  }

  const DefaultTitle := "\U{1F4CA} Event Logged"
  const DefaultColor := 0x6b7280

  function EventTitle(event: JsValue): (r: string)
    ensures r == DefaultTitle <==> !KnownEvent(event)
  {
    if event == Str("video_processed") then "\U{1F3AC} Video Processed Successfully!"
    else if event == Str("processing_started") then "\U{2699}\U{FE0F} Processing Started"
    else if event == Str("processing_cancelled") then "\U{274C} Processing Cancelled"
    else if event == Str("processing_failed") then "\U{26A0}\U{FE0F} Processing Failed"
    else DefaultTitle
  }

  function EventColor(event: JsValue): (r: int)
    ensures r == DefaultColor <==> !KnownEvent(event)
  {
    if event == Str("video_processed") then 0x22c55e
    else if event == Str("processing_started") then 0x3b82f6
    else if event == Str("processing_cancelled") then 0xf59e0b
    else if event == Str("processing_failed") then 0xef4444
    else DefaultColor
  }

  /** Title and colour agree on which events are known: exactly the four
      named ones get their own title and their own colour, and no two of
      them share either. */
  lemma TitleAndColorAgree(e1: JsValue, e2: JsValue)
    ensures EventTitle(e1) == DefaultTitle <==> !KnownEvent(e1)
    ensures EventColor(e1) == DefaultColor <==> !KnownEvent(e1)
    ensures KnownEvent(e1) && KnownEvent(e2) && e1 != e2 ==>
              EventTitle(e1) != EventTitle(e2) && EventColor(e1) != EventColor(e2)
  {
  }

  // ---------------------------------------------------------------------------
  // getBrowserInfo

  datatype Browser = Chrome | Firefox | Safari | Edge | MobileBrowser | OtherBrowser

  function BrowserLabel(b: Browser): string
  {
    match b
    case Chrome => "\U{1F310} Chrome"
    case Firefox => "\U{1F98A} Firefox"
    case Safari => "\U{1F9ED} Safari"
    case Edge => "\U{1F537} Edge"
    case MobileBrowser => "\U{1F4F1} Mobile Browser"
    case OtherBrowser => "\U{1F310} Other"
  }

  /** The ordered substring tests of `getBrowserInfo`. */
  function BrowserOf(ua: string): Browser
  {
    if Includes(ua, "Chrome") && !Includes(ua, "Edg") then Chrome
    else if Includes(ua, "Firefox") then Firefox
    else if Includes(ua, "Safari") && !Includes(ua, "Chrome") then Safari
    else if Includes(ua, "Edg") then Edge
    else if Includes(ua, "Mobile") then MobileBrowser
    else OtherBrowser
  }

  /** Each label, stated on its own rather than through the order of the
      tests: an "Edg" agent is never Chrome; "Chrome" without "Edg" wins
      even over "Firefox"; Mobile and Other are what is left when none of
      the four browser names occurs. */
  lemma BrowserOfByLabel(ua: string)
    ensures var c, f, s, e, m :=
              Includes(ua, "Chrome"), Includes(ua, "Firefox"), Includes(ua, "Safari"),
              Includes(ua, "Edg"), Includes(ua, "Mobile");
            && (BrowserOf(ua) == Chrome <==> c && !e)
            && (BrowserOf(ua) == Firefox <==> f && !(c && !e))
            && (BrowserOf(ua) == Safari <==> s && !c && !f)
            && (BrowserOf(ua) == Edge <==> e && !f && !(s && !c))
            && (BrowserOf(ua) == MobileBrowser <==> m && !c && !f && !s && !e)
            && (BrowserOf(ua) == OtherBrowser <==> !m && !c && !f && !s && !e)
  {
  }

  /** The six labels are distinct, so the label names the browser. */
  lemma BrowserLabelsDistinct(a: Browser, b: Browser)
    ensures BrowserLabel(a) == BrowserLabel(b) <==> a == b
  {
    if a != b {
      var la, lb := BrowserLabel(a), BrowserLabel(b);
      assert la[|la| - 2] != lb[|lb| - 2] || la[2] != lb[2];
    }
  }

  /** The agent string the handler uses: the header, or "Unknown". */
  function AgentOf(req: Request): (ua: string)
    ensures req.userAgent != "" ==> ua == req.userAgent
    ensures |ua| > 0
  {
    if req.userAgent != "" then req.userAgent else "Unknown"
  }

  /** A request without a user agent is reported as "Other". */
  lemma MissingAgentIsOther(req: Request)
    requires req.userAgent == ""
    ensures BrowserLabel(BrowserOf(AgentOf(req))) == "\U{1F310} Other"
  {
    var u := "Unknown";
    NotIncludesMissingChar(u, "Chrome", 'C');
    NotIncludesMissingChar(u, "Firefox", 'F');
    NotIncludesMissingChar(u, "Safari", 'S');
    NotIncludesMissingChar(u, "Edg", 'E');
    NotIncludesMissingChar(u, "Mobile", 'M');
  }

  // ---------------------------------------------------------------------------
  // The embed and the handler

  const NotApplicable := Str("N/A")

  /** `value || 'N/A'` */
  function OrNotApplicable(v: JsValue): (r: JsValue)
    ensures Truthy(v) ==> r == v
    ensures !Truthy(v) ==> r == NotApplicable
    ensures Truthy(r)
  {
    if Truthy(v) then v else NotApplicable
  }

  /** `processingTime ? `${processingTime}s` : 'N/A'` */
  function SecondsOrNotApplicable(v: JsValue): (r: JsValue)
    ensures Truthy(v) ==> r == Str(ToText(v) + "s")
    ensures !Truthy(v) ==> r == NotApplicable
  {
    if Truthy(v) then Str(ToText(v) + "s") else NotApplicable
  }

  const FieldNames: seq<string> := ["\U{1F4CA} Quality", "\U{23F1}\U{FE0F} Processing Time",
                                    "\U{1F5BC}\U{FE0F} Image Type", "\U{1F3B5} Audio Type",
                                    "\U{1F310} Browser", "\U{1F4C5} Time (IST)"]

  const Footer := "LooperVid Analytics"

  /** The embed built from the body, the agent and the two clock readings. */
  function EmbedFor(b: Body, ua: string, localTime: string, isoTime: string): (r: Embed)
    ensures |r.fields| == 6
    ensures forall i :: 0 <= i < 6 ==> r.fields[i].name == FieldNames[i] && r.fields[i].inline
    ensures forall i :: 0 <= i < 4 ==> Truthy(r.fields[i].value)
    ensures r.title == EventTitle(b.event) && r.color == EventColor(b.event)
    ensures r.footer == Footer && r.timestamp == isoTime
  {
    Embed(EventTitle(b.event), EventColor(b.event),
          [Field(FieldNames[0], OrNotApplicable(b.quality), true),
           Field(FieldNames[1], SecondsOrNotApplicable(b.processingTime), true),
           Field(FieldNames[2], OrNotApplicable(b.imageType), true),
           Field(FieldNames[3], OrNotApplicable(b.audioType), true),
           Field(FieldNames[4], Str(BrowserLabel(BrowserOf(ua))), true),
           Field(FieldNames[5], Str(localTime), true)],
          Footer, isoTime)
  }

  /** A processing time of zero is reported as "N/A", not as "0s"; any other
      number is reported in seconds. */
  lemma ZeroTimeIsNotApplicable(b: Body, ua: string, localTime: string, isoTime: string, n: int)
    ensures b.processingTime == Num(0) ==> EmbedFor(b, ua, localTime, isoTime).fields[1].value == NotApplicable
    ensures b.processingTime == Num(n) && n != 0 ==>
              EmbedFor(b, ua, localTime, isoTime).fields[1].value == Str(IntToDecimal(n) + "s")
  {
  }

  /** `response.ok` */
  predicate Ok(d: Delivery)
  {
    d.Answered? && 200 <= d.status <= 299
  }

  /** `handler(req, res)`. */
  function Handle(req: Request, webhookUrl: string, delivery: Delivery, localTime: string, isoTime: string)
    : (r: Reply)
    ensures req.verb != "POST" ==> r == Reply(405, Failure("Method not allowed"), None)
    ensures req.verb == "POST" && webhookUrl == "" ==> r == Reply(500, Failure("Webhook not configured"), None)
    ensures r.sent.Some? <==> req.verb == "POST" && webhookUrl != "" && req.body.Some?
    ensures r.sent.Some? ==> r.sent.value.url == webhookUrl
    ensures r.status == 200 <==> r.sent.Some? && Ok(delivery)
    ensures r.status == 200 ==> r.payload == Success
    ensures r.status != 200 ==> r.payload.Failure?
    ensures req.verb == "POST" && webhookUrl != "" && r.status != 200 ==>
              r == Reply(500, Failure("Failed to log event"), r.sent)
  {
    if req.verb != "POST" then Reply(405, Failure("Method not allowed"), None)
    else if webhookUrl == "" then Reply(500, Failure("Webhook not configured"), None)
    else match req.body
      case None => Reply(500, Failure("Failed to log event"), None)
      case Some(b) =>
        var message := Message(webhookUrl, EmbedFor(b, AgentOf(req), localTime, isoTime));
        if Ok(delivery) then Reply(200, Success, Some(message))
        else Reply(500, Failure("Failed to log event"), Some(message))
  }

  /** The relay reports only what it was told and the browser family: the
      message sent carries the body's quality and types, or "N/A", and the
      label of the agent, in fixed positions. */
  lemma SentMessageCarriesBody(req: Request, webhookUrl: string, delivery: Delivery,
                               localTime: string, isoTime: string)
    requires req.verb == "POST" && webhookUrl != "" && req.body.Some?
    ensures var m := Handle(req, webhookUrl, delivery, localTime, isoTime).sent.value;
            var b := req.body.value;
            && m.embed.fields[0].value == (if Truthy(b.quality) then b.quality else NotApplicable)
            && m.embed.fields[2].value == (if Truthy(b.imageType) then b.imageType else NotApplicable)
            && m.embed.fields[3].value == (if Truthy(b.audioType) then b.audioType else NotApplicable)
            && m.embed.fields[4].value == Str(BrowserLabel(BrowserOf(AgentOf(req))))
            && m.embed.title == EventTitle(b.event)
  {
  }
}
