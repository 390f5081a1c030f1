/** The contact form's submit handler (script.js). The checks run in a fixed
    order: every field present, then the e-mail pattern, and only then the
    simulated send, which disables the submit button for two seconds and
    ends with a success notification. */
module ContactForm {
  import opened Wrappers
  import opened EmailValidation
  import opened Notifications

  const FillInMessage: string := "Please fill in all fields"
  const BadEmailMessage: string := "Please enter a valid email address"
  const SentMessage: string := "Message sent successfully! I'll get back to you soon."
  const SendingLabel: string := "Sending..."

  /** The four values read from the form; `None` is a field the form lacks
      (FormData.get gives null). */
  datatype Fields = Fields(name: Option<string>, email: Option<string>, subject: Option<string>, message: Option<string>)

  /** JavaScript truthiness of a field value: present and not the empty
      string. Nothing is trimmed. */
  predicate Filled(v: Option<string>) {
    v.Some? && v.value != ""
  }

  predicate AllFilled(f: Fields) {
    Filled(f.name) && Filled(f.email) && Filled(f.subject) && Filled(f.message)
  }

  /** What the handler decides for a submission. */
  datatype Verdict = MissingField | InvalidEmail | StartSend

  /** The ordered checks of the submit handler. */
  function Check(f: Fields): (v: Verdict)
    ensures v == MissingField <==> !AllFilled(f)
    ensures v == InvalidEmail <==> AllFilled(f) && !IsValidEmail(f.email.value)
    ensures v == StartSend <==> AllFilled(f) && IsValidEmail(f.email.value)
  {
    if !Filled(f.name) || !Filled(f.email) || !Filled(f.subject) || !Filled(f.message) then MissingField
    else if !IsValidEmail(f.email.value) then InvalidEmail
    else StartSend
  }

  /** The error notification text of a rejected submission. */
  function ErrorMessage(v: Verdict): (m: string)
    requires v != StartSend
    ensures m == FillInMessage <==> v == MissingField
    ensures v == InvalidEmail ==> m == BadEmailMessage
  {
    if v == MissingField then FillInMessage else BadEmailMessage
  }

  /** A missing or empty field is reported before the address is looked at:
      the verdict does not depend on the e-mail value at all. */
  lemma MissingFieldIgnoresEmail(f: Fields, e: Option<string>)
    requires !Filled(f.name) || !Filled(f.subject) || !Filled(f.message)
    ensures Check(f) == MissingField && Check(f.(email := e)) == MissingField
  {
  }

  /** A value made only of white space counts as filled; with such a name,
      subject and message and a matching address, the send starts. */
  lemma {:induction false} BlankValuesAreFilled(ws: string, addr: string)
    requires ws != [] && forall j :: 0 <= j < |ws| ==> IsWhitespace(ws[j])
    requires WellShaped(addr)
    ensures Check(Fields(Some(ws), Some(addr), Some(ws), Some(ws))) == StartSend
  {
    EmailCharacterization(addr);
    assert addr != [] by { assert Count(addr, '@') == 1; }
  }

  /** The form: its submit button and the sends still waiting on their
      two-second timer, each holding the button text it will restore. */
  class Form {
    const board: NotificationArea
    var buttonText: string
    var buttonDisabled: bool
    var pending: seq<string>

    ghost predicate Valid()
      reads this, board
    {
      board.Valid()
    }

    constructor (board: NotificationArea, caption: string)
      requires board.Valid()
      ensures Valid() && this.board == board
      ensures buttonText == caption && !buttonDisabled && pending == []
    {
      this.board := board;
      buttonText := caption;
      buttonDisabled := false;
      pending := [];
    }

    /** The submit handler. On a rejection it shows an error notification and
        leaves the button alone; otherwise it starts the simulated send. */
    method Submit(f: Fields) returns (v: Verdict)
      requires Valid()
      modifies this, board
      ensures Valid() && v == Check(f)
      ensures v != StartSend ==>
        buttonText == old(buttonText) && buttonDisabled == old(buttonDisabled) &&
        pending == old(pending) &&
        |board.notices| == 1 && board.notices[0].message == ErrorMessage(v) &&
        board.notices[0].kind == "error"
      ensures v == StartSend ==>
        buttonText == SendingLabel && buttonDisabled &&
        pending == old(pending) + [old(buttonText)] &&
        board.notices == old(board.notices) && board.nextId == old(board.nextId)
    {
      v := Check(f);
      if v != StartSend {
        var _ := board.Show(ErrorMessage(v), Some("error"));
        return;
      }
      pending := pending + [buttonText];
      buttonText := SendingLabel;
      buttonDisabled := true;
    }

    /** The send timer of the oldest pending submission fires: a success
        notification, and the button gets back the text it had then. */
    method SendFinished()
      requires Valid() && pending != []
      modifies this, board
      ensures Valid()
      ensures buttonText == old(pending[0]) && !buttonDisabled && pending == old(pending[1..])
      ensures |board.notices| == 1 && board.notices[0].message == SentMessage
      ensures board.notices[0].background == SuccessBackground
    {
      var _ := board.Show(SentMessage, Some("success"));
      buttonText := pending[0];
      buttonDisabled := false;
      pending := pending[1..];
    }
  }
}
