/**
 * What both deployments of the contact relay share: the configuration read
 * from the environment, the fields of a submission, the envelope handed to
 * the mail transport, the transport's outcome, and the transport itself as an
 * abstract effect that records every envelope it is given.
 */
module Mail {
  import opened Wrappers
  import opened JsText

  /** `process.env.EMAIL_USER` and `process.env.EMAIL_PASS`; None when unset. */
  datatype Config = Config(emailUser: Option<string>, emailPass: Option<string>)

  /** Both credentials are set and non-empty (the negation of the check at backend/server.js:30). */
  predicate Configured(cfg: Config) {
    Truthy(cfg.emailUser) && Truthy(cfg.emailPass)
  }

  /** The `name`, `email` and `message` of a parsed request body; None when absent or null. */
  datatype ContactFields = ContactFields(name: Option<string>, email: Option<string>, message: Option<string>)

  /** None of the three fields is falsy: the negation of `!name || !email || !message`. */
  predicate AllPresent(f: ContactFields) {
    Truthy(f.name) && Truthy(f.email) && Truthy(f.message)
  }

  /** The envelope of one `sendMail` call: sender, recipient, reply-to address and subject (the bodies are not modelled). */
  datatype Envelope = Envelope(from: Option<string>, to: Option<string>, replyTo: Option<string>, subject: string)

  /** The subject line both deployments use. */
  function Subject(name: string): (s: string)
    ensures |s| == |"New Contact Message from "| + |name|
    ensures s[..|"New Contact Message from "|] == "New Contact Message from "
    ensures s[|"New Contact Message from "|..] == name
  {
    "New Contact Message from " + name
  }

  /** The `code` and `message` of the error a failed `sendMail` rejects with; None when absent. */
  datatype TransportError = TransportError(code: Option<string>, message: Option<string>)

  /** How a `sendMail` call settles. */
  datatype SendOutcome = Delivered | Failed(error: TransportError)

  /** The mail transport, seen only through the envelopes it has been asked to send. */
  class Mailer {
    /** Every envelope passed to `sendMail`, in call order. */
    ghost var log: seq<Envelope>

    constructor ()
      ensures log == []
    {
      log := [];
    }

    /** `transporter.sendMail(e)`: records the call; how it settles is the environment's choice. */
    method SendMail(e: Envelope, outcome: SendOutcome) returns (r: SendOutcome)
      modifies this
      ensures log == old(log) + [e]
      ensures r == outcome
    {
      log := log + [e];
      r := outcome;
    }
  }
}
