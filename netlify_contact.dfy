/**
 * The serverless contact relay (netlify/functions/contact.js): dispatch on the
 * HTTP method, a presence check on the three fields, one `sendMail`, and a
 * single catch-all failure reply. There is no configuration check and no
 * e-mail shape check.
 */
module NetlifyContact {
  import opened Wrappers
  import opened JsText
  import opened Mail
  import opened Lambda

  /** What `JSON.parse(event.body)` gives: the fields, or an exception (a malformed or null body). */
  datatype ParsedBody = Unparsable | Parsed(fields: ContactFields)

  /** The part of the invocation event the handler reads. */
  datatype Event = Event(httpMethod: string, body: ParsedBody)

  /** A handler's reply together with the envelope it passed to `sendMail`, if any. */
  datatype Invocation = Invocation(response: LambdaResponse, mail: Option<Envelope>)

  const MethodNotAllowed := "Method not allowed"
  const MissingFields := "All fields are required"
  const Sent := "Message sent successfully!"
  const SendFailed := "Failed to send message. Please try again."

  /** The envelope of the relayed message: the configured address as both sender and recipient, no reply-to. */
  function FunctionEnvelope(cfg: Config, f: ContactFields): Envelope
    requires AllPresent(f)
  {
    Envelope(cfg.emailUser, cfg.emailUser, None, Subject(f.name.value))
  }

  /** The reply to a delivered message. */
  function SentResponse(): LambdaResponse {
    LambdaResponse(200, JsonHeaders()[AllowHeaders := "Content-Type"][AllowMethods := "POST, OPTIONS"], MessageJson(Sent), false)
  }

  /** `exports.handler`, with the way `sendMail` settles as an input. */
  function Handler(event: Event, cfg: Config, outcome: SendOutcome): (r: Invocation)
    ensures r.mail.Some? <==> event.httpMethod == "POST" && event.body.Parsed? && AllPresent(event.body.fields)
    ensures r.mail.Some? ==> r.mail.value == Envelope(cfg.emailUser, cfg.emailUser, None, Subject(event.body.fields.name.value))
    ensures r.response.statusCode in {200, 400, 405, 500}
  {
    if event.httpMethod == "OPTIONS" then
      Invocation(Preflight("POST, OPTIONS"), None)
    else if event.httpMethod != "POST" then
      Invocation(JsonError(405, MethodNotAllowed), None)
    else
      match event.body
      case Unparsable => Invocation(JsonError(500, SendFailed), None)
      case Parsed(f) =>
        if !Truthy(f.name) || !Truthy(f.email) || !Truthy(f.message) then
          Invocation(LambdaResponse(400, map[], MessageJson(MissingFields), false), None)
        else
          var envelope := FunctionEnvelope(cfg, f);
          match outcome
          case Delivered => Invocation(SentResponse(), Some(envelope))
          case Failed(_) => Invocation(JsonError(500, SendFailed), Some(envelope))
  }

  /** OPTIONS: the preflight reply whatever the body, which is never parsed, and no mail. */
  lemma PreflightIgnoresBody(b1: ParsedBody, b2: ParsedBody, cfg: Config, o1: SendOutcome, o2: SendOutcome)
    ensures Handler(Event("OPTIONS", b1), cfg, o1) == Handler(Event("OPTIONS", b2), cfg, o2)
    ensures Handler(Event("OPTIONS", b1), cfg, o1).response == LambdaResponse(200, PreflightHeaders("POST, OPTIONS"), "", false)
    ensures Handler(Event("OPTIONS", b1), cfg, o1).mail == None
  {
  }

  /** Any method but OPTIONS and POST: 405 "Method not allowed". */
  lemma OtherMethodsRefused(event: Event, cfg: Config, outcome: SendOutcome)
    requires event.httpMethod != "OPTIONS" && event.httpMethod != "POST"
    ensures Handler(event, cfg, outcome) == Invocation(JsonError(405, MethodNotAllowed), None)
  {
  }

  /** A falsy field in a POST: 400 "All fields are required" with no headers, and no mail. */
  lemma MissingFieldRejected(f: ContactFields, cfg: Config, outcome: SendOutcome)
    requires !AllPresent(f)
    ensures Handler(Event("POST", Parsed(f)), cfg, outcome) ==
      Invocation(LambdaResponse(400, map[], MessageJson(MissingFields), false), None)
  {
  }

  /** Only presence is checked: any non-empty fields reach `sendMail`, configured or not, address-shaped or not. */
  lemma PresenceIsTheOnlyCheck(f: ContactFields, cfg: Config, outcome: SendOutcome)
    requires AllPresent(f)
    ensures Handler(Event("POST", Parsed(f)), cfg, outcome).mail == Some(Envelope(cfg.emailUser, cfg.emailUser, None, Subject(f.name.value)))
  {
  }

  /** A delivered message: 200 "Message sent successfully!" with the CORS headers. */
  lemma DeliveredReply(f: ContactFields, cfg: Config)
    requires AllPresent(f)
    ensures var r := Handler(Event("POST", Parsed(f)), cfg, Delivered).response;
      r.statusCode == 200 && r.body == MessageJson(Sent) &&
      r.headers == map[ContentType := "application/json", AllowOrigin := "*", AllowHeaders := "Content-Type", AllowMethods := "POST, OPTIONS"]
  {
  }

  /** Every exception in the POST path, a body that does not parse or a failed send, gives the one 500 reply. */
  lemma FailuresCollapse(event: Event, cfg: Config, outcome: SendOutcome)
    requires event.httpMethod == "POST"
    requires event.body.Unparsable? || (AllPresent(event.body.fields) && outcome.Failed?)
    ensures Handler(event, cfg, outcome).response == JsonError(500, SendFailed)
  {
  }
}
