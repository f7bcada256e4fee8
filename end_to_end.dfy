/**
 * The contact form talking to the Express route: the user fills in the three
 * fields and submits, the route handles the JSON the form sends, and the form
 * settles with the route's reply.
 */
module EndToEnd {
  import opened Wrappers
  import opened JsText
  import opened Mail
  import EmailPattern
  import Server
  import ContactForm

  /** The request body `JSON.stringify(formData)` as the route reads it. */
  function ToFields(d: ContactForm.FormData): (f: ContactFields)
    ensures AllPresent(f) <==> d.name != "" && d.email != "" && d.message != ""
  {
    ContactFields(Some(d.name), Some(d.email), Some(d.message))
  }

  /** The outcome the form sees for a reply of the route: `response.ok` and the JSON body. */
  function AsFetchOutcome(r: Server.Reply): (o: ContactForm.FetchOutcome)
    ensures o.JsonReply? && (o.ok <==> 200 <= r.status < 300)
  {
    ContactForm.JsonReply(200 <= r.status < 300, ContactForm.ReplyData(Some(r.body.message), r.body.error))
  }

  /**
   * One session with a fresh form: type `typed` into the three inputs, submit,
   * let the route handle it with the transport settling as `outcome`. The form
   * shows success and clears exactly when the route relayed a delivered
   * message; otherwise it shows the route's own message and keeps the fields.
   */
  method Session(cfg: Config, typed: ContactForm.FormData, outcome: SendOutcome)
    returns (shown: string, fields: ContactForm.FormData, submitting: bool)
    ensures !submitting
    ensures var ok := Configured(cfg) && typed.name != "" && typed.email != "" && typed.message != "" &&
      EmailPattern.MatchesEmailRegex(typed.email) && outcome.Delivered?;
      (ok ==> shown == ContactForm.SuccessText && fields == ContactForm.EmptyForm) &&
      (!ok ==> shown == ContactForm.FailureMark + Server.ContactReply(cfg, ToFields(typed), outcome).body.message &&
               fields == typed)
  {
    var form := new ContactForm.Contact();
    form.HandleChange(ContactForm.Name, typed.name);
    form.HandleChange(ContactForm.Email, typed.email);
    form.HandleChange(ContactForm.Message, typed.message);
    assert form.formData == typed;
    var request := form.BeginSubmit();
    var res := new Server.ServerResponse();
    var mailer := new Mailer();
    Server.HandleContact(cfg, ToFields(request), outcome, res, mailer);
    var reply := Server.Reply(res.statusCode, res.payload.json);
    form.Finish(AsFetchOutcome(reply));
    shown, fields, submitting := form.submitMessage, form.formData, form.isSubmitting;
  }
}
