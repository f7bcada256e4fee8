/**
 * The standalone Express deployment (backend/server.js): the `/api/contact`
 * relay and the `/api/resume` download. The decisions are pure functions; the
 * route handlers are methods that drive a response object and the mail
 * transport, proved to produce what those functions prescribe.
 */
module Server {
  import opened Wrappers
  import opened JsText
  import opened Mail
  import EmailPattern
  import Base64

  const ConfigErrorMessage := "Server configuration error. Email service not configured."
  const ConfigErrorDetail := "Missing email credentials. Please set EMAIL_USER and EMAIL_PASS in .env file"
  const MissingFieldsMessage := "All fields are required"
  const MissingFieldsDetail := "Missing required fields"
  const BadEmailMessage := "Please enter a valid email address"
  const BadEmailDetail := "Invalid email format"
  const SentMessage := "Message sent successfully!"
  const DefaultFailure := "Failed to send message. Please try again."
  const AuthFailure := "Email authentication failed. Please check email credentials."
  const ConnectionFailure := "Connection error. Please check your internet connection."
  const InvalidLoginFailure := "Email authentication failed. Invalid email or password."
  const ResumeNotFound := "Resume not found"
  const ResumeFailure := "Error downloading resume"

  const ContentType := "Content-Type"
  const ContentDisposition := "Content-Disposition"
  /** The type `res.json` sets on a response that has none yet. */
  const JsonMediaType := "application/json"
  /** The Content-Type a JSON reply ends up with once `res.send` adds the charset. */
  const JsonType := "application/json; charset=utf-8"
  const PdfType := "application/pdf"
  /** The PDF type after `res.send` has added the charset for a string body. */
  const PdfUtf8Type := "application/pdf; charset=utf-8"

  /**
   * `setCharset(type, 'utf-8')`, which `res.send` applies to the Content-Type
   * of a string body: a type without parameters gains a UTF-8 charset; a
   * type that already has parameters is kept as it is.
   */
  function WithUtf8Charset(t: string): string {
    if ';' in t then t else t + "; charset=utf-8"
  }

  /** The two Content-Types a reply of this server can end with after `res.json`. */
  lemma CharsetTypes()
    ensures WithUtf8Charset(JsonMediaType) == JsonType
    ensures WithUtf8Charset(PdfType) == PdfUtf8Type
    ensures WithUtf8Charset(JsonType) == JsonType
  {
    assert ';' !in JsonMediaType && ';' !in PdfType;
    assert JsonType[16] == ';';
  }
  const AttachmentDisposition := "attachment; filename=\"resume.pdf\""

  /** The object a handler passes to `res.json`: `message`, and `error` and `code` when present. */
  datatype JsonBody = JsonBody(message: string, error: Option<string>, code: Option<string>)

  /** A status and a JSON body: every reply of the contact route. */
  datatype Reply = Reply(status: int, body: JsonBody)

  // ---------------------------------------------------------------------------
  // Classification of transport errors (backend/server.js:87-97)
  // ---------------------------------------------------------------------------

  /** One row of an ordered table that maps transport errors to user messages. */
  datatype Rule =
    | CodeIn(codes: set<string>, text: string)         // `error.code` is one of `codes`
    | MessageIncludes(fragment: string, text: string)  // `error.message` is truthy and includes `fragment`
    | AnyMessage(prefix: string)                       // `error.message` is truthy; the text is `prefix` + the message

  predicate Applies(r: Rule, e: TransportError) {
    match r
    case CodeIn(codes, _) => e.code.Some? && e.code.value in codes
    case MessageIncludes(fragment, _) => Truthy(e.message) && Includes(e.message.value, fragment)
    case AnyMessage(_) => Truthy(e.message)
  }

  function TextOf(r: Rule, e: TransportError): string
    requires Applies(r, e)
  {
    match r
    case CodeIn(_, text) => text
    case MessageIncludes(_, text) => text
    case AnyMessage(prefix) => prefix + e.message.value
  }

  /** The text of the first rule that applies, or `fallback` when none does. */
  function FirstMatch(rules: seq<Rule>, e: TransportError, fallback: string): string
    decreases |rules|
  {
    if rules == [] then fallback
    else if Applies(rules[0], e) then TextOf(rules[0], e)
    else FirstMatch(rules[1..], e, fallback)
  }

  /** First match wins: the rule that applies first decides, whatever later rules say. */
  lemma {:induction false} FirstMatchWins(rules: seq<Rule>, e: TransportError, fallback: string, i: int)
    requires 0 <= i < |rules| && Applies(rules[i], e)
    requires forall j | 0 <= j < i :: !Applies(rules[j], e)
    ensures FirstMatch(rules, e, fallback) == TextOf(rules[i], e)
    decreases i
  {
    if i > 0 {
      assert !Applies(rules[0], e);
      assert forall j | 0 <= j < i - 1 :: rules[1..][j] == rules[j + 1];
      FirstMatchWins(rules[1..], e, fallback, i - 1);
    }
  }

  /** When no rule applies, the fallback is the text. */
  lemma {:induction false} FirstMatchFallback(rules: seq<Rule>, e: TransportError, fallback: string)
    requires forall j | 0 <= j < |rules| :: !Applies(rules[j], e)
    ensures FirstMatch(rules, e, fallback) == fallback
    decreases |rules|
  {
    if rules != [] {
      assert !Applies(rules[0], e);
      assert forall j | 0 <= j < |rules| - 1 :: rules[1..][j] == rules[j + 1];
      FirstMatchFallback(rules[1..], e, fallback);
    }
  }

  /** The classification the handler applies, in its order. */
  const Classification: seq<Rule> := [
    CodeIn({"EAUTH", "EENVELOPE"}, AuthFailure),
    CodeIn({"ECONNECTION", "ETIMEDOUT"}, ConnectionFailure),
    MessageIncludes("Invalid login", InvalidLoginFailure),
    AnyMessage("Error: ")
  ]

  /** The user message for a transport error, as the handler's if-chain computes it. */
  function ErrorMessage(e: TransportError): (r: string)
    ensures |r| > 0
    ensures r in {AuthFailure, ConnectionFailure, InvalidLoginFailure, DefaultFailure} ||
      (Truthy(e.message) && r == "Error: " + e.message.value)
  {
    if e.code == Some("EAUTH") || e.code == Some("EENVELOPE") then AuthFailure
    else if e.code == Some("ECONNECTION") || e.code == Some("ETIMEDOUT") then ConnectionFailure
    else if Truthy(e.message) && Includes(e.message.value, "Invalid login") then InvalidLoginFailure
    else if Truthy(e.message) then "Error: " + e.message.value
    else DefaultFailure
  }

  /** The if-chain is the ordered table read first match first. */
  lemma ErrorMessageIsFirstMatch(e: TransportError)
    ensures ErrorMessage(e) == FirstMatch(Classification, e, DefaultFailure)
  {
    var t := Classification;
    if e.code in {Some("EAUTH"), Some("EENVELOPE")} {
      FirstMatchWins(t, e, DefaultFailure, 0);
    } else if e.code in {Some("ECONNECTION"), Some("ETIMEDOUT")} {
      FirstMatchWins(t, e, DefaultFailure, 1);
    } else if Truthy(e.message) && Includes(e.message.value, "Invalid login") {
      FirstMatchWins(t, e, DefaultFailure, 2);
    } else if Truthy(e.message) {
      FirstMatchWins(t, e, DefaultFailure, 3);
    } else {
      FirstMatchFallback(t, e, DefaultFailure);
    }
  }

  /** The five outcomes of the classification, each applying only when the earlier ones do not. */
  lemma ClassificationCases(e: TransportError)
    ensures e.code in {Some("EAUTH"), Some("EENVELOPE")} ==> ErrorMessage(e) == AuthFailure
    ensures (e.code !in {Some("EAUTH"), Some("EENVELOPE")} && e.code in {Some("ECONNECTION"), Some("ETIMEDOUT")}) ==>
      ErrorMessage(e) == ConnectionFailure
    ensures (e.code !in {Some("EAUTH"), Some("EENVELOPE"), Some("ECONNECTION"), Some("ETIMEDOUT")} &&
      Truthy(e.message) && Includes(e.message.value, "Invalid login")) ==> ErrorMessage(e) == InvalidLoginFailure
    ensures (e.code !in {Some("EAUTH"), Some("EENVELOPE"), Some("ECONNECTION"), Some("ETIMEDOUT")} &&
      Truthy(e.message) && !Includes(e.message.value, "Invalid login")) ==> ErrorMessage(e) == "Error: " + e.message.value
    ensures (e.code !in {Some("EAUTH"), Some("EENVELOPE"), Some("ECONNECTION"), Some("ETIMEDOUT")} &&
      !Truthy(e.message)) ==> ErrorMessage(e) == DefaultFailure
  {
  }

  /** The body of the 500 reply to a failed send (backend/server.js:99-103). */
  function FailureBody(e: TransportError): (b: JsonBody)
    ensures b.message == ErrorMessage(e)
    ensures b.error == Some(if Truthy(e.message) then e.message.value else "Unknown error")
    ensures b.code == Some(if Truthy(e.code) then e.code.value else "UNKNOWN")
    ensures b.error.value != "" && b.code.value != ""
  {
    JsonBody(ErrorMessage(e), Some(OrElse(e.message, "Unknown error")), Some(OrElse(e.code, "UNKNOWN")))
  }

  // ---------------------------------------------------------------------------
  // The contact route (backend/server.js:27-105)
  // ---------------------------------------------------------------------------

  /** What the contact route decides before any mail is sent. */
  datatype Verdict = ConfigMissing | FieldsMissing | EmailMalformed | Relay(envelope: Envelope)

  /** The envelope of the relayed message: from the operator, to the operator, replies to the submitter. */
  function ServerEnvelope(user: string, f: ContactFields): Envelope
    requires AllPresent(f)
  {
    Envelope(Some("\"Portfolio Contact\" <" + user + ">"), Some(user), f.email, Subject(f.name.value))
  }

  /** The checks in the handler's order: configuration, then presence, then the e-mail shape. */
  ghost function Decide(cfg: Config, f: ContactFields): Verdict {
    if !Configured(cfg) then ConfigMissing
    else if !AllPresent(f) then FieldsMissing
    else if !EmailPattern.MatchesEmailRegex(f.email.value) then EmailMalformed
    else Relay(ServerEnvelope(cfg.emailUser.value, f))
  }

  /** The envelope handed to the transport, if the request gets that far. */
  ghost function ContactMail(cfg: Config, f: ContactFields): (m: Option<Envelope>)
    ensures m.Some? <==> Configured(cfg) && AllPresent(f) && EmailPattern.MatchesEmailRegex(f.email.value)
  {
    match Decide(cfg, f)
    case Relay(e) => Some(e)
    case _ => None
  }

  /** The reply of the contact route, given how the send settles when there is one. */
  ghost function ContactReply(cfg: Config, f: ContactFields, outcome: SendOutcome): (r: Reply)
    ensures r.status in {200, 400, 500}
    ensures r.status == 200 <==> ContactMail(cfg, f).Some? && outcome.Delivered?
    ensures r.body.message != ""
  {
    match Decide(cfg, f)
    case ConfigMissing => Reply(500, JsonBody(ConfigErrorMessage, Some(ConfigErrorDetail), None))
    case FieldsMissing => Reply(400, JsonBody(MissingFieldsMessage, Some(MissingFieldsDetail), None))
    case EmailMalformed => Reply(400, JsonBody(BadEmailMessage, Some(BadEmailDetail), None))
    case Relay(_) =>
      match outcome
      case Delivered => Reply(200, JsonBody(SentMessage, None, None))
      case Failed(e) => Reply(500, FailureBody(e))
  }

  /** Unset credentials: a configuration error for every body and every transport, and no mail. */
  lemma ConfigCheckedFirst(cfg: Config, f: ContactFields, outcome: SendOutcome)
    requires !Configured(cfg)
    ensures ContactReply(cfg, f, outcome) == Reply(500, JsonBody(ConfigErrorMessage, Some(ConfigErrorDetail), None))
    ensures ContactMail(cfg, f) == None
  {
  }

  /** A falsy field: "All fields are required" and no mail. */
  lemma MissingFieldRejected(cfg: Config, f: ContactFields, outcome: SendOutcome)
    requires Configured(cfg) && !AllPresent(f)
    ensures ContactReply(cfg, f, outcome) == Reply(400, JsonBody(MissingFieldsMessage, Some(MissingFieldsDetail), None))
    ensures ContactMail(cfg, f) == None
  {
  }

  /** An empty e-mail is a missing field, never a malformed address. */
  lemma EmptyEmailIsMissing(cfg: Config, f: ContactFields, outcome: SendOutcome)
    requires Configured(cfg) && f.email == Some("")
    ensures ContactReply(cfg, f, outcome).body.message == MissingFieldsMessage
  {
  }

  /** The format error is given exactly when configuration and presence pass and the regex fails. */
  lemma FormatErrorExactly(cfg: Config, f: ContactFields, outcome: SendOutcome)
    ensures ContactReply(cfg, f, outcome) == Reply(400, JsonBody(BadEmailMessage, Some(BadEmailDetail), None)) <==>
      Configured(cfg) && AllPresent(f) && !EmailPattern.MatchesEmailRegex(f.email.value)
  {
  }

  /** A valid submission sends one message to the operator, replying to the submitter, and reports success when delivered. */
  lemma ValidSubmissionRelayed(cfg: Config, f: ContactFields)
    requires Configured(cfg) && AllPresent(f) && EmailPattern.MatchesEmailRegex(f.email.value)
    ensures ContactMail(cfg, f).Some?
    ensures ContactMail(cfg, f).value.to == cfg.emailUser
    ensures ContactMail(cfg, f).value.replyTo == f.email
    ensures ContactMail(cfg, f).value.subject == "New Contact Message from " + f.name.value
    ensures ContactReply(cfg, f, Delivered) == Reply(200, JsonBody(SentMessage, None, None))
  {
  }

  /** A failed send is always a 500 whose `error` and `code` fall back to "Unknown error" and "UNKNOWN". */
  lemma SendFailureReported(cfg: Config, f: ContactFields, e: TransportError)
    requires ContactMail(cfg, f).Some?
    ensures ContactReply(cfg, f, Failed(e)).status == 500
    ensures ContactReply(cfg, f, Failed(e)).body.message == ErrorMessage(e)
    ensures ContactReply(cfg, f, Failed(e)).body.error == Some(OrElse(e.message, "Unknown error"))
    ensures ContactReply(cfg, f, Failed(e)).body.code == Some(OrElse(e.code, "UNKNOWN"))
  {
  }

  // ---------------------------------------------------------------------------
  // The Express response object
  // ---------------------------------------------------------------------------

  /** What a response carries once sent. */
  datatype Payload = NoPayload | JsonPayload(json: JsonBody) | FilePayload(bytes: seq<Base64.byte>) | Truncated

  /** How `res.sendFile` ends: the whole file sent, or an error before or after the headers went out. */
  datatype StreamOutcome = Streamed(bytes: seq<Base64.byte>) | FailedBeforeHeaders | FailedAfterHeaders

  /** The part of Express's `res` the handlers use. */
  class ServerResponse {
    var statusCode: int
    var headers: map<string, string>
    var payload: Payload
    var headersSent: bool

    /** A response as Express hands it to a route: status 200, nothing set, nothing sent. */
    predicate IsFresh()
      reads this
    {
      statusCode == 200 && headers == map[] && payload == NoPayload && !headersSent
    }

    constructor ()
      ensures IsFresh()
    {
      statusCode, headers, payload, headersSent := 200, map[], NoPayload, false;
    }

    /** `res.status(code)`. */
    method Status(code: int)
      modifies this`statusCode
      ensures statusCode == code
    {
      statusCode := code;
    }

    /** `res.setHeader(name, value)`; Node refuses it once the headers are out. */
    method SetHeader(name: string, value: string)
      requires !headersSent
      modifies this`headers
      ensures headers == old(headers)[name := value]
    {
      headers := headers[name := value];
    }

    /**
     * `res.json(body)`: the JSON type unless a Content-Type is already set;
     * then `res.send` gives the serialised string body, adding a UTF-8 charset
     * to whichever type is now set.
     */
    method Json(body: JsonBody)
      requires !headersSent
      modifies this`headers, this`payload, this`headersSent
      ensures ContentType in old(headers) ==>
        headers == old(headers)[ContentType := WithUtf8Charset(old(headers)[ContentType])]
      ensures ContentType !in old(headers) ==> headers == old(headers)[ContentType := JsonType]
      ensures payload == JsonPayload(body) && headersSent
    {
      CharsetTypes();
      var t := if ContentType in headers then headers[ContentType] else JsonMediaType;
      headers := headers[ContentType := WithUtf8Charset(t)];
      payload, headersSent := JsonPayload(body), true;
    }

    /** `res.sendFile`: streams the file; reports whether it failed. */
    method SendFile(outcome: StreamOutcome) returns (failed: bool)
      requires !headersSent
      modifies this`payload, this`headersSent
      ensures failed <==> !outcome.Streamed?
      ensures outcome.Streamed? ==> payload == FilePayload(outcome.bytes) && headersSent
      ensures outcome.FailedBeforeHeaders? ==> payload == old(payload) && !headersSent
      ensures outcome.FailedAfterHeaders? ==> payload == Truncated && headersSent
    {
      match outcome
      case Streamed(bytes) =>
        payload, headersSent := FilePayload(bytes), true;
        failed := false;
      case FailedBeforeHeaders =>
        failed := true;
      case FailedAfterHeaders =>
        payload, headersSent := Truncated, true;
        failed := true;
    }
  }

  /**
   * `POST /api/contact`: configuration, presence and shape checks, then one
   * `sendMail`, then the reply; the response and the transport's log end up as
   * ContactReply and ContactMail prescribe.
   */
  method HandleContact(cfg: Config, f: ContactFields, outcome: SendOutcome, res: ServerResponse, mailer: Mailer)
    requires res.IsFresh()
    modifies res, mailer
    ensures res.statusCode == ContactReply(cfg, f, outcome).status
    ensures res.payload == JsonPayload(ContactReply(cfg, f, outcome).body)
    ensures res.headers == map[ContentType := JsonType] && res.headersSent
    ensures mailer.log == old(mailer.log) + ToSeq(ContactMail(cfg, f))
  {
    if !Truthy(cfg.emailUser) || !Truthy(cfg.emailPass) {
      res.Status(500);
      res.Json(JsonBody(ConfigErrorMessage, Some(ConfigErrorDetail), None));
      return;
    }
    if !Truthy(f.name) || !Truthy(f.email) || !Truthy(f.message) {
      res.Status(400);
      res.Json(JsonBody(MissingFieldsMessage, Some(MissingFieldsDetail), None));
      return;
    }
    var shaped := EmailPattern.MatchEmail(f.email.value);
    if !shaped {
      res.Status(400);
      res.Json(JsonBody(BadEmailMessage, Some(BadEmailDetail), None));
      return;
    }
    var sent := mailer.SendMail(ServerEnvelope(cfg.emailUser.value, f), outcome);
    match sent
    case Delivered =>
      res.Json(JsonBody(SentMessage, None, None));
    case Failed(e) =>
      res.Status(500);
      res.Json(FailureBody(e));
  }

  /**
   * `GET /api/resume`: 404 when the file is absent; otherwise the PDF and
   * attachment headers, then the file, or a 500 if streaming fails before
   * anything was sent (the PDF content type set earlier stays in place, and
   * `res.send` adds a UTF-8 charset to it).
   */
  method HandleResume(fileExists: bool, stream: StreamOutcome, res: ServerResponse)
    requires res.IsFresh()
    modifies res
    ensures !fileExists ==> res.statusCode == 404 && res.payload == JsonPayload(JsonBody(ResumeNotFound, None, None))
    ensures !fileExists ==> res.headers == map[ContentType := JsonType]
    ensures fileExists && !stream.FailedBeforeHeaders? ==>
      res.headers == map[ContentType := PdfType, ContentDisposition := AttachmentDisposition]
    ensures fileExists && stream.FailedBeforeHeaders? ==>
      res.headers == map[ContentType := PdfUtf8Type, ContentDisposition := AttachmentDisposition]
    ensures fileExists && stream.Streamed? ==> res.statusCode == 200 && res.payload == FilePayload(stream.bytes)
    ensures fileExists && stream.FailedBeforeHeaders? ==>
      res.statusCode == 500 && res.payload == JsonPayload(JsonBody(ResumeFailure, None, None))
    ensures fileExists && stream.FailedAfterHeaders? ==> res.statusCode == 200 && res.payload == Truncated
    ensures res.headersSent
  {
    if !fileExists {
      res.Status(404);
      res.Json(JsonBody(ResumeNotFound, None, None));
      return;
    }
    res.SetHeader(ContentType, PdfType);
    res.SetHeader(ContentDisposition, AttachmentDisposition);
    var failed := res.SendFile(stream);
    if failed && !res.headersSent {
      CharsetTypes();
      res.Status(500);
      res.Json(JsonBody(ResumeFailure, None, None));
    }
  }
}
