/**
 * The contact form component (fronted/src/components/Contact.js): three
 * pieces of state, `formData`, `isSubmitting` and `submitMessage`, updated by
 * `handleChange` and by `handleSubmit`, whose awaited request is split into
 * starting the submission and settling it with the request's outcome.
 */
module ContactForm {
  import opened Wrappers
  import opened JsText

  /** The `name` attribute of an input of the form. */
  datatype Field = Name | Email | Message

  /** The form's three text fields. */
  datatype FormData = FormData(name: string, email: string, message: string) {

    function Get(f: Field): string {
      match f
      case Name => name
      case Email => email
      case Message => message
    }

    /** `{ ...formData, [f]: v }`. */
    function With(f: Field, v: string): (d: FormData)
      ensures d.Get(f) == v
      ensures forall g: Field | g != f :: d.Get(g) == Get(g)
    {
      match f
      case Name => this.(name := v)
      case Email => this.(email := v)
      case Message => this.(message := v)
    }
  }

  const EmptyForm := FormData("", "", "")

  /** The parts of a JSON reply the form reads: `data.message` and `data.error`. */
  datatype ReplyData = ReplyData(message: Option<string>, error: Option<string>)

  /** How the awaited request ends. */
  datatype FetchOutcome =
    | FetchRejected(reason: string)           // `fetch` itself throws, with this message
    | NotJson(ok: bool)                       // a response whose body `response.json()` cannot parse
    | JsonReply(ok: bool, data: ReplyData)    // a response with a JSON body; `ok` is `response.ok`

  const SuccessText := "\U{2705} Message sent successfully!"
  const FailureMark := "\U{274C} "
  const SendingError := "Error sending message. "
  const FallbackFailure := "Failed to send message. Please try again."
  /** The message of the error thrown when the body is not JSON, in three parts: its middle is what the catch block looks for. */
  const NotJsonReason := "Server did not respond properly. Is the " + "backend server" + " running?"
  const CannotConnect := "Cannot connect to server. Make sure the backend server is running on port 5000."
  const CheckConnection := "Please check your connection and try again."

  /** The status text for an exception with message `reason` (the catch block). */
  function CaughtText(reason: string): (t: string)
    ensures (Includes(reason, "Failed to fetch") || Includes(reason, "NetworkError")) ==>
      t == FailureMark + SendingError + CannotConnect
    ensures (!Includes(reason, "Failed to fetch") && !Includes(reason, "NetworkError") && Includes(reason, "backend server")) ==>
      t == FailureMark + SendingError + reason
    ensures (!Includes(reason, "Failed to fetch") && !Includes(reason, "NetworkError") && !Includes(reason, "backend server")) ==>
      t == FailureMark + SendingError + CheckConnection
  {
    var detail :=
      if Includes(reason, "Failed to fetch") || Includes(reason, "NetworkError") then CannotConnect
      else if Includes(reason, "backend server") then reason
      else CheckConnection;
    FailureMark + SendingError + detail
  }

  /** The text shown after a request settles, and whether the fields are cleared. */
  datatype Settlement = Settlement(text: string, clearForm: bool)

  function Settle(o: FetchOutcome): (s: Settlement)
    ensures s.clearForm <==> o.JsonReply? && o.ok
    ensures o.JsonReply? && o.ok ==> s.text == SuccessText
    ensures o.FetchRejected? ==> s.text == CaughtText(o.reason)
    ensures s.text != ""
  {
    match o
    case FetchRejected(reason) => Settlement(CaughtText(reason), false)
    case NotJson(_) => Settlement(CaughtText(NotJsonReason), false)
    case JsonReply(ok, data) =>
      if ok then Settlement(SuccessText, true)
      else Settlement(FailureMark + OrElse(data.message, OrElse(data.error, FallbackFailure)), false)
  }

  /** The thrown text matches the "backend server" test and neither network test before it. */
  lemma NotJsonReasonBranch()
    ensures !Includes(NotJsonReason, "Failed to fetch") && !Includes(NotJsonReason, "NetworkError")
    ensures Includes(NotJsonReason, "backend server")
  {
    assert 'F' !in NotJsonReason && 'N' !in NotJsonReason;
    NotIncludedWithoutFirstChar(NotJsonReason, "Failed to fetch");
    NotIncludedWithoutFirstChar(NotJsonReason, "NetworkError");
    IncludedInConcat("Server did not respond properly. Is the ", "backend server", " running?");
  }

  /** A reply that is not JSON is reported through the "backend server" branch, not the cannot-connect one. */
  lemma NotJsonReported(ok: bool)
    ensures Settle(NotJson(ok)) == Settlement(FailureMark + SendingError + NotJsonReason, false)
  {
    NotJsonReasonBranch();
  }

  /** A JSON failure reply shows its `message`, else its `error`, else the fallback. */
  lemma FailureReplyText(data: ReplyData)
    ensures Truthy(data.message) ==> Settle(JsonReply(false, data)).text == FailureMark + data.message.value
    ensures !Truthy(data.message) && Truthy(data.error) ==> Settle(JsonReply(false, data)).text == FailureMark + data.error.value
    ensures !Truthy(data.message) && !Truthy(data.error) ==> Settle(JsonReply(false, data)).text == FailureMark + FallbackFailure
  {
  }

  /** What lines 100-103 render from the state: the button's `disabled` and label, and the status paragraph. */
  datatype View = View(buttonDisabled: bool, buttonLabel: string, status: Option<string>)

  /** The component's state. */
  class Contact {
    var formData: FormData
    var isSubmitting: bool
    var submitMessage: string

    /** The initial state of the three `useState` hooks. */
    constructor ()
      ensures formData == EmptyForm && !isSubmitting && submitMessage == ""
    {
      formData, isSubmitting, submitMessage := EmptyForm, false, "";
    }

    /** Waiting for no request: the form may be submitted. */
    predicate Idle()
      reads this
    {
      !isSubmitting
    }

    /** The rendered button and status paragraph. */
    function Render(): (v: View)
      reads this
      ensures v.buttonDisabled <==> isSubmitting
      ensures v.status.Some? <==> submitMessage != ""
      ensures v.status.Some? ==> v.status.value == submitMessage
    {
      View(isSubmitting, if isSubmitting then "Sending..." else "Send Message",
           if submitMessage != "" then Some(submitMessage) else None)
    }

    /** `handleChange`: the named field takes the input's value; nothing else changes. */
    method HandleChange(f: Field, v: string)
      modifies this
      ensures formData.Get(f) == v
      ensures forall g: Field | g != f :: formData.Get(g) == old(formData).Get(g)
      ensures isSubmitting == old(isSubmitting) && submitMessage == old(submitMessage)
    {
      formData := formData.With(f, v);
    }

    /** The start of `handleSubmit`: submitting, no status text; returns the fields the request carries. */
    method BeginSubmit() returns (request: FormData)
      modifies this
      ensures isSubmitting && submitMessage == ""
      ensures formData == old(formData) && request == formData
    {
      isSubmitting := true;
      submitMessage := "";
      request := formData;
    }

    /** The rest of `handleSubmit`, once the request has settled with `o`: the status text, the fields, and back to idle. */
    method Finish(o: FetchOutcome)
      requires isSubmitting
      modifies this
      ensures submitMessage == Settle(o).text
      ensures formData == if o.JsonReply? && o.ok then EmptyForm else old(formData)
      ensures Idle()
    {
      var s := Settle(o);
      submitMessage := s.text;
      if s.clearForm {
        formData := EmptyForm;
      }
      isSubmitting := false;
    }

    /** The whole of `handleSubmit`, Idle to Submitting to Idle, for a request that settles with `o`. */
    method HandleSubmit(o: FetchOutcome) returns (request: FormData)
      modifies this
      ensures request == old(formData)
      ensures submitMessage == Settle(o).text && submitMessage != ""
      ensures formData == if o.JsonReply? && o.ok then EmptyForm else old(formData)
      ensures Idle()
    {
      request := BeginSubmit();
      Finish(o);
    }
  }
}
