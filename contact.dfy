/** The contact form: three text fields, a guard against empty fields, and
    one insert into the `contacts` table whose outcome is a parameter. */
module Contact {
  import opened Common

  /** The record inserted into `contacts`. */
  datatype ContactMessage = ContactMessage(name: string, email: string, message: string)

  datatype ContactField = NameField | EmailField | MessageField

  const FillInAll: string := "Please fill in all fields"
  const SendFailed: string := "Failed to send message. Please try again."

  /** `!name || !email || !message`: only the empty string is refused, so a
      field holding only white space passes. */
  predicate Incomplete(m: ContactMessage) {
    m.name == "" || m.email == "" || m.message == ""
  }

  /** `{...formData, [name]: value}`. */
  function WithField(m: ContactMessage, field: ContactField, value: string): (r: ContactMessage)
    ensures field == NameField ==> r == ContactMessage(value, m.email, m.message)
    ensures field == EmailField ==> r == ContactMessage(m.name, value, m.message)
    ensures field == MessageField ==> r == ContactMessage(m.name, m.email, value)
  {
    match field
    case NameField => m.(name := value)
    case EmailField => m.(email := value)
    case MessageField => m.(message := value)
  }

  /** Filling every field with a non-empty value, whatever the order, gives
      a form the guard lets through. */
  lemma FilledFormPasses(m: ContactMessage, a: string, b: string, c: string)
    requires a != "" && b != "" && c != ""
    ensures !Incomplete(WithField(WithField(WithField(m, NameField, a), EmailField, b), MessageField, c))
    ensures !Incomplete(WithField(WithField(WithField(m, MessageField, c), NameField, a), EmailField, b))
  {
  }

  class ContactForm {
    var form: ContactMessage
    var loading: bool
    var success: bool
    var error: Option<string>
    /** Every record inserted into `contacts`, in order. */
    var sent: seq<ContactMessage>

    constructor()
      ensures form == ContactMessage("", "", "") && !loading && !success
      ensures error.None? && sent == []
    {
      form := ContactMessage("", "", "");
      loading := false;
      success := false;
      error := None;
      sent := [];
    }

    /** `handleChange`: only the named field changes. */
    method HandleChange(field: ContactField, value: string)
      modifies this
      ensures form == WithField(old(form), field, value)
      ensures loading == old(loading) && success == old(success)
      ensures error == old(error) && sent == old(sent)
    {
      form := WithField(form, field, value);
    }

    /** `handleSubmit`. An incomplete form only sets the guard's message and
        sends nothing. Otherwise the error is cleared and exactly one record
        holding the three fields as typed is sent; a success clears the form
        and sets the success flag, a failure sets the error and keeps the
        form. Loading is off afterwards. */
    method HandleSubmit(outcome: Outcome)
      modifies this
      ensures Incomplete(old(form)) ==>
        error == Some(FillInAll) && form == old(form) && sent == old(sent) &&
        loading == old(loading) && success == old(success)
      ensures !Incomplete(old(form)) ==> sent == old(sent) + [old(form)] && !loading
      ensures !Incomplete(old(form)) && outcome.Done? ==>
        form == ContactMessage("", "", "") && success && error.None?
      ensures !Incomplete(old(form)) && outcome.Failed? ==>
        form == old(form) && error == Some(SendFailed) && success == old(success)
    {
      if Incomplete(form) {
        error := Some(FillInAll);
        return;
      }
      loading := true;
      error := None;
      sent := sent + [ContactMessage(form.name, form.email, form.message)];
      match outcome {
        case Done =>
          form := ContactMessage("", "", "");
          success := true;
        case Failed(_) =>
          error := Some(SendFailed);
      }
      loading := false;
    }

    /** The close buttons of the error banner and of the success dialog. */
    method DismissError()
      modifies this
      ensures error.None? && form == old(form) && success == old(success)
      ensures loading == old(loading) && sent == old(sent)
    {
      error := None;
    }

    method DismissSuccess()
      modifies this
      ensures !success && form == old(form) && error == old(error)
      ensures loading == old(loading) && sent == old(sent)
    {
      success := false;
    }
  }
}
