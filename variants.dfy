/**
 * Where the two deployments of the contact relay agree and where they part:
 * the Express route (Server) checks configuration, presence and the address's
 * shape; the serverless function (NetlifyContact) checks presence only.
 */
module Variants {
  import opened Wrappers
  import opened Mail
  import opened Lambda
  import EmailPattern
  import Server
  import NetlifyContact

  /** A falsy field: both reply 400 "All fields are required" and neither sends mail. */
  lemma AgreeOnMissingFields(cfg: Config, f: ContactFields, outcome: SendOutcome)
    requires Configured(cfg) && !AllPresent(f)
    ensures Server.ContactReply(cfg, f, outcome).status == 400
    ensures Server.ContactMail(cfg, f) == None
    ensures var r := NetlifyContact.Handler(NetlifyContact.Event("POST", NetlifyContact.Parsed(f)), cfg, outcome);
      r.response.statusCode == 400 && r.mail == None &&
      r.response.body == MessageJson(Server.ContactReply(cfg, f, outcome).body.message)
  {
  }

  /**
   * A well-formed submission: both send one message to the same recipient with
   * the same subject; only the server sets the reply-to address; both report
   * "Message sent successfully!" exactly when the send is delivered.
   */
  lemma AgreeOnValidSubmission(cfg: Config, f: ContactFields, outcome: SendOutcome)
    requires Configured(cfg) && AllPresent(f) && EmailPattern.MatchesEmailRegex(f.email.value)
    ensures var s := Server.ContactMail(cfg, f);
      var n := NetlifyContact.Handler(NetlifyContact.Event("POST", NetlifyContact.Parsed(f)), cfg, outcome).mail;
      s.Some? && n.Some? && s.value.to == n.value.to && s.value.subject == n.value.subject &&
      s.value.replyTo == f.email && n.value.replyTo == None
    ensures var n := NetlifyContact.Handler(NetlifyContact.Event("POST", NetlifyContact.Parsed(f)), cfg, outcome).response;
      (Server.ContactReply(cfg, f, outcome).status == 200) == (n.statusCode == 200) &&
      (outcome.Delivered? ==> n.body == MessageJson(Server.ContactReply(cfg, f, outcome).body.message))
  {
  }

  /** "foo" as the address: the server refuses it and sends nothing; the function hands it to the transport. */
  lemma DisagreeOnFoo(cfg: Config, outcome: SendOutcome)
    requires Configured(cfg)
    ensures var f := ContactFields(Some("Ada"), Some("foo"), Some("Hello"));
      Server.ContactReply(cfg, f, outcome).body.message == Server.BadEmailMessage &&
      Server.ContactMail(cfg, f) == None &&
      NetlifyContact.Handler(NetlifyContact.Event("POST", NetlifyContact.Parsed(f)), cfg, outcome).mail.Some?
  {
    EmailPattern.SampleAddresses();
  }

  /** Unset credentials: the server refuses before validating; the function still attempts the send. */
  lemma DisagreeOnMissingConfiguration(cfg: Config, f: ContactFields, outcome: SendOutcome)
    requires !Configured(cfg) && AllPresent(f)
    ensures Server.ContactMail(cfg, f) == None
    ensures NetlifyContact.Handler(NetlifyContact.Event("POST", NetlifyContact.Parsed(f)), cfg, outcome).mail.Some?
  {
  }
}
