/**
  The synchronous part of the contact form's submit handler: every field is
  checked on its own, every field that fails gets the error border, and only
  a submit on which all three pass puts the button into its sending state.
 */
module ContactForm {
  import opened JsText
  import opened Email

  datatype Field = NameField | EmailField | MessageField

  /** The outcome of checking the three raw field values. */
  datatype Verdict = Verdict(isValid: bool, marked: set<Field>)

  datatype NoticeKind = Success | Error

  /** The message box `showFormMessage` puts under the form. */
  datatype Notice = Notice(text: string, kind: NoticeKind)

  const ErrorBorder: string := "#ef4444"
  const InvalidNotice: Notice := Notice("Please fill in all fields correctly", Error)

  /** The decision the handler takes on the raw values, with the three tests
      as the handler writes them: name and message must not be blank, and
      the e-mail must not be blank and must fit the pattern, which sees the
      untrimmed value. Each field is marked on its own, and the form is valid
      exactly when nothing is marked. */
  function Validate(name: string, email: string, message: string): (v: Verdict)
    ensures v.isValid <==> v.marked == {}
    ensures NameField in v.marked <==> AllWhitespace(name)
    ensures EmailField in v.marked <==> !IsValidEmail(email)
    ensures MessageField in v.marked <==> AllWhitespace(message)
  {
    TrimEmptyIffAllWhitespace(name);
    TrimEmptyIffAllWhitespace(message);
    var marked :=
      (if Trim(name) == [] then {NameField} else {}) +
      (if Trim(email) == [] || !IsValidEmail(email) then {EmailField} else {}) +
      (if Trim(message) == [] then {MessageField} else {});
    if IsValidEmail(email) then ValidEmailIsNotBlank(email); Verdict(marked == {}, marked)
    else Verdict(marked == {}, marked)
  }

  /** The form is accepted exactly when all three tests pass. */
  lemma ValidIffAllFieldsPass(name: string, email: string, message: string)
    ensures Validate(name, email, message).isValid <==>
      Trim(name) != [] && Trim(email) != [] && IsValidEmail(email) && Trim(message) != []
  {
    TrimEmptyIffAllWhitespace(name);
    TrimEmptyIffAllWhitespace(email);
    TrimEmptyIffAllWhitespace(message);
  }

  /** Every failing field is marked, not only the first: an all-blank form
      marks all three. */
  lemma BlankFormMarksEveryField()
    ensures Validate("", "", "").marked == {NameField, EmailField, MessageField}
  {
    assert !IsValidEmail("");
  }

  /** A blank name with a good address and message fails on the name alone. */
  lemma BlankNameFailsAlone()
    ensures Validate("", "a@b.com", "Hello") == Verdict(false, {NameField})
  {
    LettersAreRun("a");
    LettersAreRun("b");
    LettersAreRun("com");
    AssembledAddressIsValid("a", "b", "com");
    assert "a" + "@" + "b" + "." + "com" == "a@b.com";
    assert !AllWhitespace("Hello") by {
      assert !IsWhitespace("Hello"[0]);
    }
  }

  /** The address is tested untrimmed, so a leading space fails the e-mail
      field even though the value is not blank. */
  lemma LeadingSpaceFailsEmail()
    ensures EmailField in Validate("Ann", " a@b.com", "Hi").marked
    ensures Trim(" a@b.com") != []
  {
    assert !IsValidEmail(" a@b.com") by {
      assert IsWhitespace(" a@b.com"[0]);
    }
    TrimEmptyIffAllWhitespace(" a@b.com");
    assert !IsWhitespace(" a@b.com"[1]);
  }

  /** The page state the submit handler reads and writes: the three inputs'
      values and inline border colours, the submit button's `sending` class
      and `disabled` flag, and the message box under the form. */
  class Form {
    var name: string
    var email: string
    var message: string
    var nameBorder: string
    var emailBorder: string
    var messageBorder: string
    var sending: bool
    var disabled: bool
    var notice: Option<Notice>

    constructor (name: string, email: string, message: string)
      ensures this.name == name && this.email == email && this.message == message
      ensures nameBorder == "" && emailBorder == "" && messageBorder == ""
      ensures !sending && !disabled && notice == None
    {
      this.name, this.email, this.message := name, email, message;
      nameBorder, emailBorder, messageBorder := "", "", "";
      sending, disabled := false, false;
      notice := None;
    }

    /** The submit handler up to the simulated request. It reports whether
        it went on to send. Each failing field gets the error border and the
        other borders keep their colour; a rejected submit shows the error
        notice and leaves the button alone; an accepted one marks the button
        as sending and disables it. */
    method Submit() returns (sent: bool)
      modifies this
      ensures name == old(name) && email == old(email) && message == old(message)
      ensures var v := Validate(name, email, message);
        sent == v.isValid &&
        nameBorder == (if NameField in v.marked then ErrorBorder else old(nameBorder)) &&
        emailBorder == (if EmailField in v.marked then ErrorBorder else old(emailBorder)) &&
        messageBorder == (if MessageField in v.marked then ErrorBorder else old(messageBorder))
      ensures !sent ==> sending == old(sending) && disabled == old(disabled) && notice == Some(InvalidNotice)
      ensures sent ==> sending && disabled && notice == old(notice)
    {
      var nameBlank := Trim(name) == [];
      var emailBad := Trim(email) == [] || !IsValidEmail(email);
      var messageBlank := Trim(message) == [];
      ghost var v := Validate(name, email, message);
      assert NameField in v.marked <==> nameBlank;
      assert EmailField in v.marked <==> emailBad;
      assert MessageField in v.marked <==> messageBlank;
      var isValid := true;
      if nameBlank {
        nameBorder := ErrorBorder;
        isValid := false;
      }
      if emailBad {
        emailBorder := ErrorBorder;
        isValid := false;
      }
      if messageBlank {
        messageBorder := ErrorBorder;
        isValid := false;
      }
      if !isValid {
        notice := Some(InvalidNotice);
        return false;
      }
      sending := true;
      disabled := true;
      return true;
    }
  }

  datatype Option<T> = None | Some(value: T)
}
