/**
 * The submit handler of frontend/src/components/PasswordChangeForm.jsx:
 * the validation chain, the payload handed to the callback, and the
 * form state each path leaves behind. Rendering and the 3-second timer
 * that clears the success message are not part of this model.
 */
module PasswordChange {
  import opened Json
  import opened JsString

  /** The three inputs of the form. */
  datatype Form = Form(currentPassword: string, newPassword: string, confirmPassword: string)

  /** The argument of `onPasswordChange`. */
  datatype Payload = Payload(currentPassword: string, newPassword: string)

  /** How the `onPasswordChange` promise settles; a rejection carries `err.message`, which may be missing. */
  datatype CallbackOutcome = Resolved | Rejected(message: Option<string>)

  /** The component state after a submit. */
  datatype FormState = FormState(form: Form, loading: bool, error: string, success: string)

  /** A submit: what was sent to the callback, if anything, and the resulting state. */
  datatype Submission = Submission(sent: Option<Payload>, state: FormState)

  const MIN_PASSWORD_LENGTH: nat := 6
  const EmptyForm: Form := Form("", "", "")

  /** `!s.trim()`. */
  predicate Blank(s: string)
  {
    Trim(s) == ""
  }

  /** The first failing check's message, in the handler's order; None when every check passes. */
  function FirstError(f: Form): (r: Option<string>)
    ensures r == Some("Current password is required") <==> Blank(f.currentPassword)
    ensures r == Some("New password is required") <==> !Blank(f.currentPassword) && Blank(f.newPassword)
    ensures r == Some("New password must be at least 6 characters long") <==>
      !Blank(f.currentPassword) && !Blank(f.newPassword) && Utf16Length(f.newPassword) < MIN_PASSWORD_LENGTH
    ensures r == Some("New passwords do not match") <==>
      !Blank(f.currentPassword) && !Blank(f.newPassword) && Utf16Length(f.newPassword) >= MIN_PASSWORD_LENGTH
      && f.newPassword != f.confirmPassword
    ensures r.None? <==>
      !Blank(f.currentPassword) && !Blank(f.newPassword) && Utf16Length(f.newPassword) >= MIN_PASSWORD_LENGTH
      && f.newPassword == f.confirmPassword
  {
    if Blank(f.currentPassword) then Some("Current password is required")
    else if Blank(f.newPassword) then Some("New password is required")
    else if Utf16Length(f.newPassword) < MIN_PASSWORD_LENGTH then Some("New password must be at least 6 characters long")
    else if f.newPassword != f.confirmPassword then Some("New passwords do not match")
    else None
  }

  /** handleSubmit on form `f`, with `outcome` the way the callback settles if it is called. */
  function HandleSubmit(f: Form, outcome: CallbackOutcome): (s: Submission)
    ensures !s.state.loading
    ensures s.sent.Some? <==> FirstError(f).None?
    ensures FirstError(f).Some? ==> s.state == FormState(f, false, FirstError(f).value, "")
    ensures s.sent.Some? ==> s.sent.value == Payload(f.currentPassword, f.newPassword)
    ensures s.sent.Some? && outcome.Resolved? ==> s.state == FormState(EmptyForm, false, "", "Password changed successfully!")
    ensures s.sent.Some? && outcome.Rejected? ==>
      s.state == FormState(f, false, if Truthy(outcome.message) then outcome.message.value else "Failed to change password", "")
  {
    match FirstError(f)
    case Some(message) => Submission(None, FormState(f, false, message, ""))
    case None =>
      var payload := Payload(f.currentPassword, f.newPassword);
      match outcome
      case Resolved => Submission(Some(payload), FormState(EmptyForm, false, "", "Password changed successfully!"))
      case Rejected(message) =>
        Submission(Some(payload), FormState(f, false, if Truthy(message) then message.value else "Failed to change password", ""))
  }

  /** A password of spaces only counts as missing. */
  lemma WhitespaceIsBlank(s: string)
    requires forall i | 0 <= i < |s| :: s[i] == ' '
    ensures Blank(s)
  {
    TrimIsEmpty(s);
  }

  /**
   * The length check counts the untrimmed value: five spaces and one letter
   * pass it, although only one character is left after trimming.
   */
  lemma LengthCountsSurroundingSpaces()
    ensures FirstError(Form("secret", "     a", "     a")).None?
    ensures |Trim("     a")| == 1
  {
    assert TrimStart("     a") == "a";
    assert TrimEnd("a") == "a";
    assert TrimStart("secret") == "secret";
    assert TrimEnd("secret") == "secret";
  }

  /** A validation failure never reaches the callback and keeps what was typed. */
  lemma RejectedFormKeptAndNotSent(f: Form, outcome: CallbackOutcome)
    requires FirstError(f).Some?
    ensures HandleSubmit(f, outcome).sent == None
    ensures HandleSubmit(f, outcome).state.form == f
  {
  }
}
