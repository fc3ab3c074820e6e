/** The send-notification page (client/src/pages/Notifications.jsx): a form of
    message, link and audience type, the payload built from it, and the success,
    error and loading flags around the push request. */
module NotificationsPage {
  import opened Common
  import opened Http

  const MessageRequired := "Message is required"
  const SendFailed := "Failed to send notification"
  const GlobalType := "global"

  /** The form state. */
  datatype Form = Form(message: string, url: string, notificationType: string)

  /** The names of the page's inputs. */
  datatype Field = MessageField | UrlField | TypeField

  function EmptyForm(): Form {
    Form("", "", GlobalType)
  }

  /** `{...prev, [name]: value}`. */
  function Edit(f: Form, name: Field, value: string): (r: Form)
    ensures name == MessageField ==> r.message == value
    ensures name == UrlField ==> r.url == value
    ensures name == TypeField ==> r.notificationType == value
    ensures name != MessageField ==> r.message == f.message
    ensures name != UrlField ==> r.url == f.url
    ensures name != TypeField ==> r.notificationType == f.notificationType
  {
    match name
    case MessageField => f.(message := value)
    case UrlField => f.(url := value)
    case TypeField => f.(notificationType := value)
  }

  /** `!s.trim()`; by TrimEmptyIff, s is all whitespace. */
  predicate Blank(s: string) {
    JsTrim(s) == ""
  }

  /** The JSON body of the push request; `url` is None when the key is absent. */
  datatype Payload = Payload(message: string, notificationType: string, url: Option<string>)

  /** The payload built from a form: the trimmed message, the type as chosen, and
      the trimmed link only when it is not blank. */
  function PayloadOf(f: Form): Payload {
    var u := JsTrim(f.url);
    Payload(JsTrim(f.message), f.notificationType, if u != "" then Some(u) else None)
  }

  /** A payload the page can send carries a message that is neither empty nor
      padded with whitespace, so the server's missing-field check does not refuse
      it; a link, when present, is likewise non-empty and unpadded, and it is
      present exactly when the form's link is not all whitespace. */
  lemma PayloadClean(f: Form)
    requires !AllSpace(f.message, IsJsSpace)
    ensures var p := PayloadOf(f);
      p.message != "" && JsTrim(p.message) == p.message
      && p.notificationType == f.notificationType
      && (p.url.Some? <==> !AllSpace(f.url, IsJsSpace))
      && (p.url.Some? ==> p.url.value != "" && JsTrim(p.url.value) == p.url.value)
  {
    TrimEmptyIff(f.message, IsJsSpace);
    TrimEmptyIff(f.url, IsJsSpace);
    TrimIdempotent(f.message, IsJsSpace);
    TrimIdempotent(f.url, IsJsSpace);
  }

  /** The payload object as the handler assembles it: message and type first,
      then the link key only for a non-blank link. */
  method BuildPayload(f: Form) returns (p: Payload)
    ensures p == PayloadOf(f)
  {
    p := Payload(JsTrim(f.message), f.notificationType, None);
    var url := JsTrim(f.url);
    if url != "" {
      p := p.(url := Some(url));
    }
  }

  /** `err.response?.data?.message || 'Failed to send notification'`. */
  function FailureMessage(e: HttpError): (m: string)
    ensures m != ""
    ensures e.response.Some? && Present(e.response.value.message) ==> m == e.response.value.message.value
    ensures !(e.response.Some? && Present(e.response.value.message)) ==> m == SendFailed
  {
    if e.response.Some? && Present(e.response.value.message) then e.response.value.message.value
    else SendFailed
  }

  class NotificationsPageState {
    var form: Form
    var loading: bool
    var success: bool
    var error: Option<string>

    constructor()
      ensures form == EmptyForm() && !loading && !success && error == None
    {
      form, loading, success, error := EmptyForm(), false, false, None;
    }

    /** handleInputChange: only the named field changes; a shown success or error
        is cleared. */
    method InputChange(name: Field, value: string)
      modifies this
      ensures form == Edit(old(form), name, value)
      ensures !success && error == None
      ensures loading == old(loading)
    {
      form := Edit(form, name, value);
      if success || error.Some? {
        success := false;
        error := None;
      }
    }

    /** handleSubmit, with the push request's outcome as an argument. A message
        that is blank after trimming sets the required-message error and sends
        nothing. Otherwise exactly the payload of the form is sent; success shows
        the success flag and resets the form, failure shows the server's message or
        the fallback and keeps the form; loading is off afterwards. */
    method Submit(response: Outcome<()>) returns (sent: Option<Payload>)
      modifies this
      ensures Blank(old(form.message)) ==>
        sent == None && error == Some(MessageRequired)
        && form == old(form) && success == old(success) && loading == old(loading)
      ensures !Blank(old(form.message)) ==>
        sent == Some(PayloadOf(old(form))) && !loading
        && (if response.Done? then success && error == None && form == EmptyForm()
            else !success && error == Some(FailureMessage(response.error)) && form == old(form))
    {
      if Blank(form.message) {
        error := Some(MessageRequired);
        return None;
      }
      loading := true;
      error := None;
      success := false;
      var payload := BuildPayload(form);
      sent := Some(payload);
      if response.Done? {
        success := true;
        form := EmptyForm();
      } else {
        error := Some(FailureMessage(response.error));
      }
      loading := false;
    }
  }
}
