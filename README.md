# Contact relay and resume download of a portfolio site

This project is a Dafny model of the decision logic in a personal portfolio
site's backend, and of the contact form that calls it. The contact relay and
the resume download each exist in two deployments:

- **The Express server** (`backend/server.js`). `POST /api/contact` checks three
  things in order: that the mail credentials are configured, that the `name`,
  `email` and `message` fields are non-empty, and that the address matches
  `^[^\s@]+@[^\s@]+\.[^\s@]+$`. It then sends one message to the operator, with
  the submitter as reply-to. A transport error is turned into a user message
  through an ordered, first-match-wins classification. `GET /api/resume` replies
  404 when the PDF is absent. Otherwise it sets the PDF and attachment headers
  and streams the file.
- **The serverless functions** (`netlify/functions/contact.js`, `resume.js`).
  Both dispatch on the HTTP method (OPTIONS preflight, 405 for other methods).
  The contact function checks only that the fields are non-empty and has one
  catch-all failure reply. The resume function returns the file as base 64
  (section 4 of RFC 4648), flagged `isBase64Encoded`.
- **The contact form** (`fronted/src/components/Contact.js`). It holds three
  pieces of state: `formData`, `isSubmitting` and `submitMessage`. Its cycle is
  Idle → Submitting → Idle, and it derives its status text from how the request
  settles.

Modules, one per source file or shared concept:

| module | file | models |
|---|---|---|
| `Wrappers`, `JsText` | wrappers.dfy, js_text.dfy | optional values; JavaScript truthiness, `\|\|` and `includes` on strings |
| `EmailPattern` | email_pattern.dfy | the regex's language, a character-level characterisation, and a one-pass matcher, proved to agree |
| `Mail` | mail.dfy | configuration, submitted fields, envelope, transport outcome; the transport as a class whose ghost `log` records each `sendMail` |
| `Base64` | base64.dfy | RFC 4648 section 4 encoding and canonical decoding, proved inverse |
| `Server` | server.dfy | the Express routes: pure decision functions, an Express response class, and handler methods proved against those functions |
| `Lambda`, `NetlifyContact`, `NetlifyResume` | lambda.dfy, netlify_contact.dfy, netlify_resume.dfy | the serverless handlers as pure functions from the event and the effect outcomes to the response (and the envelope sent, if any) |
| `ContactForm` | contact_form.dfy | the form component as a class with its three state fields |
| `Variants`, `EndToEnd` | variants.dfy, end_to_end.dfy | where the two relays agree and differ; one form session against the Express route |

Inputs that the source gets from outside are parameters of the model:

- the environment (`Config`);
- the parsed request body (`ContactFields`; for the serverless function, a `ParsedBody`, which may fail to parse);
- how `sendMail` settles (`SendOutcome`);
- whether the file exists, and how reading or streaming it ends (`FileRead`, `StreamOutcome`);
- how the browser's `fetch` settles (`FetchOutcome`).

One Express detail matters for the resume route. `res.json` sets a JSON content
type only when none is set yet. It then calls `res.send`, which adds a UTF-8
charset to the Content-Type of a string body. So when `sendFile` fails before the
headers are sent, the 500 reply keeps the attachment header, and its Content-Type
becomes `application/pdf; charset=utf-8`. `Server.HandleResume` states this
outright.

## Model

| member | source | states |
|---|---|---|
| `EmailPattern.MatchEmail` | backend/server.js:49-50 | the executable check accepts a string exactly when it is in the regex's language, and exactly when it has the four-condition shape |
| `EmailPattern.RegexIffShape` | backend/server.js:49 | the regex accepts exactly the strings with no `\s` character, exactly one '@', a non-empty part before it, and a '.' strictly inside the part after it |
| `EmailPattern.SampleAddresses` | backend/server.js:49 | "foo" and "foo@bar" are refused and "a@b.co" is accepted |
| `Mail.Subject` | backend/server.js:62 | the subject starts with "New Contact Message from ", continues with the submitted name, and has no other characters |
| `Mail.Mailer.SendMail` | backend/server.js:58-77 | a `sendMail` call appends its envelope to the log and settles as the environment decides |
| `Server.FirstMatchWins` | backend/server.js:87-97 | in an ordered rule table, the first rule that applies decides the text whatever the later rules say |
| `Server.FirstMatchFallback` | backend/server.js:87 | when no rule applies, the text is the default |
| `Server.ErrorMessage` | backend/server.js:87-97 | the user message is never empty and is one of the four fixed messages or "Error: " + the transport's message |
| `Server.ErrorMessageIsFirstMatch` | backend/server.js:87-97 | the if-chain equals the ordered table {EAUTH, EENVELOPE} → authentication, {ECONNECTION, ETIMEDOUT} → connection, "Invalid login" → invalid login, any message → "Error: " + message, else the default, read first match first |
| `Server.ClassificationCases` | backend/server.js:89-97 | each of the five outcomes applies only when none of the earlier conditions holds |
| `Server.FailureBody` | backend/server.js:99-103 | a failure body carries the classified message, the transport message or "Unknown error", and the code or "UNKNOWN" |
| `Server.ContactMail` | backend/server.js:30-62 | an envelope is sent exactly when the credentials are set, all fields are present and the address matches the regex |
| `Server.ContactReply` | backend/server.js:30-103 | the status is 200, 400 or 500; it is 200 exactly when a message was relayed and delivered; the message is never empty |
| `Server.ConfigCheckedFirst` | backend/server.js:30-36 | with a credential unset, every body gets 500 "Server configuration error…" and no mail is sent |
| `Server.MissingFieldRejected` | backend/server.js:41-46 | with credentials set and a falsy field, the reply is 400 "All fields are required" and no mail is sent |
| `Server.EmptyEmailIsMissing` | backend/server.js:41-55 | an empty address yields the missing-fields message, never the format message |
| `Server.FormatErrorExactly` | backend/server.js:41-55 | the address-format reply is given if and only if configuration and presence pass and the regex fails |
| `Server.ValidSubmissionRelayed` | backend/server.js:58-62 | a valid submission sends one envelope to EMAIL_USER, replying to the submitted address, with the name in the subject; delivered, the reply is 200 "Message sent successfully!" |
| `Server.SendFailureReported` | backend/server.js:81-103 | a failed send always gives 500 with the classified message and the defaulted `error` and `code` |
| `Server.HandleContact` | backend/server.js:27-105 | the handler leaves the status, JSON body and headers that ContactReply prescribes, and the transport log grows by exactly the envelope of ContactMail |
| `Server.CharsetTypes` | backend/server.js:117-125 | the charset step of `res.send` turns the JSON media type into "application/json; charset=utf-8" and the PDF type set at line 117 into "application/pdf; charset=utf-8", and leaves the full JSON type unchanged |
| `Server.HandleResume` | backend/server.js:107-129 | no file: 404 "Resume not found" as JSON; a file: PDF and attachment headers, then the file with 200, or 500 "Error downloading resume" if streaming fails before anything was sent, with the PDF type now carrying a UTF-8 charset |
| `Lambda.Preflight` | netlify/functions/contact.js:5-15 | a preflight reply is 200 with an empty body, allowing any origin and the given methods |
| `Lambda.JsonError` | netlify/functions/contact.js:18-27 | an error reply carries `{ message }` as JSON with a JSON content type and any origin allowed |
| `NetlifyContact.Handler` | netlify/functions/contact.js:3-84 | an envelope is sent exactly for a POST whose body parses with all three fields present; it goes from and to EMAIL_USER with no reply-to; the status is 200, 400, 405 or 500 |
| `NetlifyContact.PreflightIgnoresBody` | netlify/functions/contact.js:5-15 | OPTIONS gives the same 200 empty reply allowing "POST, OPTIONS" whatever the body, and sends no mail |
| `NetlifyContact.OtherMethodsRefused` | netlify/functions/contact.js:18-27 | any method but OPTIONS and POST gets 405 "Method not allowed" and no mail |
| `NetlifyContact.MissingFieldRejected` | netlify/functions/contact.js:33-38 | a falsy field gives 400 "All fields are required" with no headers and no mail |
| `NetlifyContact.PresenceIsTheOnlyCheck` | netlify/functions/contact.js:33-61 | any non-empty fields reach `sendMail`, configured or not and whatever the address's shape |
| `NetlifyContact.DeliveredReply` | netlify/functions/contact.js:63-72 | a delivered send gives 200 "Message sent successfully!" with the four CORS and content-type headers |
| `NetlifyContact.FailuresCollapse` | netlify/functions/contact.js:29-30 | a body that fails to parse and a failed send both give the one 500 "Failed to send message. Please try again." |
| `NetlifyResume.Handler` | netlify/functions/resume.js:4-73 | the status is 200, 404, 405 or 500, and the body is flagged base 64 exactly for a GET that read the file |
| `NetlifyResume.PreflightReply` | netlify/functions/resume.js:6-16 | OPTIONS gives 200 with an empty body allowing "GET, OPTIONS" |
| `NetlifyResume.OtherMethodsRefused` | netlify/functions/resume.js:19-28 | any method but OPTIONS and GET gets 405 "Method not allowed" |
| `NetlifyResume.MissingFileNotFound` | netlify/functions/resume.js:35-44 | a GET without the file gets 404 "Resume not found" |
| `NetlifyResume.ReadFailureReported` | netlify/functions/resume.js:62-72 | a read that throws gives 500 "Error downloading resume" |
| `NetlifyResume.DownloadIsTheFile` | netlify/functions/resume.js:47-61 | a GET with the file gives 200 with the PDF attachment headers, and the body decodes from base 64 to exactly the file's bytes |
| `NetlifyResume.CorsOnEveryReply` | netlify/functions/resume.js:22-68 | every reply names an allowed origin, and every non-OPTIONS reply allows "*" |
| `Base64.ValueOf` | netlify/functions/resume.js:48 | a character has a 6-bit value exactly when it is in the alphabet, and the value maps back to that character |
| `Base64.Encode` | netlify/functions/resume.js:48 | the encoding of n bytes has 4·⌈n/3⌉ characters, all in the alphabet except for padding in the last two places |
| `Base64.DecodeEncode` | netlify/functions/resume.js:48-60 | decoding the encoding of any byte sequence gives back that sequence |
| `Base64.EncodeDecode` | netlify/functions/resume.js:48-60 | whatever the decoder accepts is the encoding of what it returns |
| `Base64.DecodeIffEncode` | netlify/functions/resume.js:48-60 | decoding s gives b if and only if s is the encoding of b |
| `ContactForm.FormData.With` | fronted/src/components/Contact.js:13-15 | replacing one field sets it to the new value and leaves the other two unchanged |
| `ContactForm.CaughtText` | fronted/src/components/Contact.js:56-68 | an exception mentioning "Failed to fetch" or "NetworkError" gives the cannot-connect text; otherwise one mentioning "backend server" shows its own text; otherwise the generic connection text |
| `ContactForm.Settle` | fronted/src/components/Contact.js:22-68 | the fields are cleared exactly on an ok JSON reply, which shows "✅ Message sent successfully!"; a rejected `fetch` shows the catch block's text for its reason; the status text is never empty |
| `ContactForm.NotJsonReasonBranch` | fronted/src/components/Contact.js:32-37 | the text thrown for a non-JSON reply matches the "backend server" test and neither network test |
| `ContactForm.NotJsonReported` | fronted/src/components/Contact.js:32-63 | a non-JSON reply shows "❌ Error sending message. Server did not respond properly. Is the backend server running?" and keeps the fields |
| `ContactForm.FailureReplyText` | fronted/src/components/Contact.js:42-45 | a non-ok JSON reply shows "❌ " + `data.message`, else `data.error`, else the default |
| `ContactForm.Contact.constructor` | fronted/src/components/Contact.js:5-11 | the component starts with empty name, email and message, not submitting, and an empty status text |
| `ContactForm.Contact.Render` | fronted/src/components/Contact.js:100-103 | the button is disabled exactly while submitting, and the status paragraph appears exactly when there is a status text |
| `ContactForm.Contact.HandleChange` | fronted/src/components/Contact.js:13-15 | the named field takes the value; the other fields, `isSubmitting` and `submitMessage` are unchanged |
| `ContactForm.Contact.BeginSubmit` | fronted/src/components/Contact.js:17-29 | starting a submission sets `isSubmitting`, clears the status text and sends the current fields |
| `ContactForm.Contact.Finish` | fronted/src/components/Contact.js:39-71 | settling sets the status text from the outcome, clears the fields only on an ok JSON reply, and returns to idle |
| `ContactForm.Contact.HandleSubmit` | fronted/src/components/Contact.js:17-71 | a submission goes from Idle through Submitting back to Idle, with a non-empty status text whatever the outcome |
| `EndToEnd.Session` | fronted/src/components/Contact.js:17-71 | the form clears and shows success exactly when the Express route relayed a delivered message; otherwise it shows the route's own message and keeps the fields |
| `Variants.AgreeOnMissingFields` | netlify/functions/contact.js:33-38 | both relays give 400 "All fields are required" and send nothing for a falsy field |
| `Variants.AgreeOnValidSubmission` | netlify/functions/contact.js:50-72 | for a valid submission, both relays send to the same recipient with the same subject; only the server sets reply-to; both succeed together |
| `Variants.DisagreeOnFoo` | backend/server.js:49-55 | "foo" is refused by the server and handed to the transport by the serverless function |
| `Variants.DisagreeOnMissingConfiguration` | netlify/functions/contact.js:41-53 | with credentials unset, the server sends nothing while the serverless function still attempts the send |

## Left out

- The nodemailer transport and SMTP delivery. `sendMail` is an abstract effect: it logs the envelope, and the run's outcome is passed in.
- The HTML and text bodies of the mail (string templates only). The envelope keeps sender, recipient, reply-to and subject.
- Filesystem access (`existsSync`, `readFileSync`, `sendFile`). Whether the file exists, its bytes, and how reading or streaming ends are inputs.
- The Express bootstrapping: `cors()` (and so the wildcard CORS header on the Express replies), `express.json()` and its own 400 for malformed bodies, the static `/uploads` route, the `/api` welcome route and `app.listen`.
- `JSON.parse` in the serverless contact function. Its result is an input: the fields, or a throw (malformed or `null` body). Bodies that parse to a non-object are not modelled.
- Request fields, `error.code`/`error.message` and the reply's `data.message`/`data.error` are modelled as absent or strings. Non-string JSON values are not modelled.
- `Lambda.JsonError`: the JSON body is written out by `MessageJson`. This matches `JSON.stringify` only for messages without quotes, backslashes or control characters, which holds for every message the functions send.
- `Server.ServerResponse`: `headers` holds only what the routes and `res.json` set. It leaves out `X-Powered-By` (set by Express's initialisation), `ETag` and `Content-Length` (set by `res.send`), and the headers `sendFile` adds while streaming. `Server.HandleContact` and `Server.HandleResume` state exact header maps only in these terms.
- `Server.ServerResponse.Json`: `WithUtf8Charset` adds the charset only to a type without parameters. A type that already has parameters, whose charset `setCharset` would replace, is kept as it is. No route sets such a type.
- `Server.HandleResume`: a stream that fails after the headers went out is a `Truncated` payload. Exactly how much of the file had been sent is not modelled.
- `console.*` logging, async/await and `fetch`. Each awaited outcome is an input to a sequential step, and there is no concurrency.
- The JSX and CSS of the form, except the button state and status paragraph (`Render`). `fronted/src/components/Resume.js` is not part of this model: it is Blob/object-URL plumbing with no decision beyond `response.ok`.
- A JSON reply whose body is `null` would make the form's `data.message` throw. Both servers always reply with an object, so this case is not modelled.
