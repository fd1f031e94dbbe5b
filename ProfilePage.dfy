/**
 * The password section of the profile page (src/pages/Profile.tsx).
 *
 * The page shows the signed-in customer's details and a form to change the
 * password.  The form's labels come from the field names by a small
 * formatter; the class `PasswordForm` has the form's state, and its submit
 * handler is split in two: `HandlePasswordSubmit` checks the fields and
 * produces the request, `SettlePasswordChange` takes the server's answer.
 */
module ProfilePage {
  import opened JsText

  // ---------------------------------------------------------------------------
  // The label formatter

  predicate IsUpperAscii(c: char) { 'A' <= c <= 'Z' }

  predicate IsLowerAscii(c: char) { 'a' <= c <= 'z' }

  /** `replace(/([A-Z])/g, ' $1')`: a space goes in front of every capital letter. */
  function SpaceCapitals(s: string): (r: string)
    ensures |r| == |s| + CountCapitals(s)
  {
    if s == [] then []
    else (if IsUpperAscii(s[0]) then [' ', s[0]] else [s[0]]) + SpaceCapitals(s[1..])
  }

  /** `toUpperCase` of one character, for the ASCII letters. */
  function ToUpperAscii(c: char): (u: char)
    ensures IsLowerAscii(c) ==> IsUpperAscii(u) && u as int == c as int - 32
    ensures !IsLowerAscii(c) ==> u == c
  {
    if IsLowerAscii(c) then (c as int - 32) as char else c
  }

  /** The characters `.` does not match in a regular expression. */
  predicate IsLineTerminator(c: char) {
    c == '\n' || c == '\r' || c == '\U{2028}' || c == '\U{2029}'
  }

  /** `replace(/^./, str => str.toUpperCase())`: the first character is upper-cased. */
  function CapitalizeFirst(s: string): (r: string)
    ensures |r| == |s|
    ensures r != [] ==> r[0] == if IsLineTerminator(s[0]) then s[0] else ToUpperAscii(s[0])
    ensures r != [] ==> r[1..] == s[1..]
  {
    if s == [] || IsLineTerminator(s[0]) then s
    else [ToUpperAscii(s[0])] + s[1..]
  }

  /**
   * The label shown for a form field: one character more per capital, and
   * for a name starting with a lower-case letter, that letter capitalised
   * followed by the spaced rest.
   */
  function FieldLabel(field: string): (r: string)
    ensures |r| == |field| + CountCapitals(field)
    ensures field != [] && IsLowerAscii(field[0]) ==> r == [ToUpperAscii(field[0])] + SpaceCapitals(field[1..])
  {
    CapitalizeFirst(SpaceCapitals(field))
  }

  /** The number of capital letters in a text. */
  function CountCapitals(s: string): nat {
    if s == [] then 0 else (if IsUpperAscii(s[0]) then 1 else 0) + CountCapitals(s[1..])
  }

  /** The text without its spaces. */
  function WithoutSpaces(s: string): string {
    if s == [] then [] else (if s[0] == ' ' then [] else [s[0]]) + WithoutSpaces(s[1..])
  }

  lemma {:induction false} WithoutSpacesOfConcat(a: string, b: string)
    ensures WithoutSpaces(a + b) == WithoutSpaces(a) + WithoutSpaces(b)
  {
    if a != [] {
      assert (a + b)[0] == a[0];
      assert (a + b)[1..] == a[1..] + b;
      WithoutSpacesOfConcat(a[1..], b);
    } else {
      assert a + b == b;
    }
  }

  /**
   * The formatter only adds spaces: taking the spaces out of a field name
   * without spaces gives the name back.
   */
  lemma {:induction false} SpaceCapitalsUnspaced(s: string)
    requires ' ' !in s
    ensures WithoutSpaces(SpaceCapitals(s)) == s
  {
    if s != [] {
      assert ' ' !in s[1..];
      SpaceCapitalsUnspaced(s[1..]);
      var head := if IsUpperAscii(s[0]) then [' ', s[0]] else [s[0]];
      var tail := SpaceCapitals(s[1..]);
      assert SpaceCapitals(s) == head + tail;
      WithoutSpacesOfConcat(head, tail);
      if IsUpperAscii(s[0]) {
        assert WithoutSpaces(head) == [s[0]] by {
          assert head[1..] == [s[0]];
        }
      }
      assert s == [s[0]] + s[1..];
    }
  }

  /** Every capital of the formatted text has a space just before it. */
  lemma {:induction false} SpaceCapitalsSpaceBefore(s: string)
    ensures forall i :: 0 <= i < |SpaceCapitals(s)| && IsUpperAscii(SpaceCapitals(s)[i]) ==>
      i > 0 && SpaceCapitals(s)[i - 1] == ' '
  {
    if s != [] {
      SpaceCapitalsSpaceBefore(s[1..]);
      var head := if IsUpperAscii(s[0]) then [' ', s[0]] else [s[0]];
      var tail := SpaceCapitals(s[1..]);
      var r := SpaceCapitals(s);
      assert r == head + tail;
      forall i | 0 <= i < |r| && IsUpperAscii(r[i])
        ensures i > 0 && r[i - 1] == ' '
      {
        if i >= |head| {
          assert r[i] == tail[i - |head|];
          if i - |head| > 0 {
            assert r[i - 1] == tail[i - |head| - 1];
          }
        }
      }
    }
  }

  lemma {:induction false} SpaceCapitalsOfConcat(a: string, b: string)
    ensures SpaceCapitals(a + b) == SpaceCapitals(a) + SpaceCapitals(b)
  {
    if a == [] {
      assert a + b == b;
    } else {
      assert (a + b)[0] == a[0];
      assert (a + b)[1..] == a[1..] + b;
      SpaceCapitalsOfConcat(a[1..], b);
    }
  }

  predicate NoCapitals(s: string) {
    forall i :: 0 <= i < |s| ==> !IsUpperAscii(s[i])
  }

  lemma {:induction false} SpaceCapitalsOfNoCapitals(s: string)
    requires NoCapitals(s)
    ensures SpaceCapitals(s) == s
  {
    if s != [] {
      SpaceCapitalsOfNoCapitals(s[1..]);
    }
  }

  /**
   * A camel-case name of two words, the first starting with a small letter,
   * is labelled as the two words with a space between and the first one
   * capitalized.
   */
  lemma CamelCaseLabel(first: string, capital: char, rest: string)
    requires first != [] && IsLowerAscii(first[0]) && NoCapitals(first)
    requires IsUpperAscii(capital) && NoCapitals(rest)
    ensures FieldLabel(first + [capital] + rest) == [ToUpperAscii(first[0])] + first[1..] + " " + [capital] + rest
  {
    CamelCaseSpaced(first, capital, rest);
    var tail := first[1..] + " " + [capital] + rest;
    assert first + [' ', capital] + rest == [first[0]] + tail by {
      assert first == [first[0]] + first[1..];
    }
    CapitalizeFirstOfLower(first[0], tail);
  }

  /** The space goes in front of the one capital, and nowhere else. */
  lemma CamelCaseSpaced(first: string, capital: char, rest: string)
    requires NoCapitals(first) && IsUpperAscii(capital) && NoCapitals(rest)
    ensures SpaceCapitals(first + [capital] + rest) == first + [' ', capital] + rest
  {
    SpaceCapitalsOfConcat(first + [capital], rest);
    SpaceCapitalsOfConcat(first, [capital]);
    SpaceCapitalsOfNoCapitals(first);
    SpaceCapitalsOfNoCapitals(rest);
    assert SpaceCapitals([capital]) == [' ', capital] by {
      assert [capital][1..] == [];
    }
  }

  lemma CapitalizeFirstOfLower(c: char, s: string)
    requires IsLowerAscii(c)
    ensures CapitalizeFirst([c] + s) == [ToUpperAscii(c)] + s
  {
    assert ([c] + s)[0] == c;
    assert ([c] + s)[1..] == s;
  }

  /** The three labels of the password form. */
  lemma CurrentPasswordLabel()
    ensures FieldLabel("currentPassword") == "Current Password"
  {
    var first, rest := "current", "assword";
    assert NoCapitals(first) && NoCapitals(rest);
    CamelCaseLabel(first, 'P', rest);
    assert first + ['P'] + rest == "currentPassword";
    assert ToUpperAscii(first[0]) == 'C';
    assert [ToUpperAscii(first[0])] + first[1..] + " " + ['P'] + rest == "Current Password";
  }

  lemma NewPasswordLabel()
    ensures FieldLabel("newPassword") == "New Password"
  {
    var first, rest := "new", "assword";
    assert NoCapitals(first) && NoCapitals(rest);
    CamelCaseLabel(first, 'P', rest);
    assert first + ['P'] + rest == "newPassword";
    assert ToUpperAscii(first[0]) == 'N';
    assert [ToUpperAscii(first[0])] + first[1..] + " " + ['P'] + rest == "New Password";
  }

  lemma ConfirmPasswordLabel()
    ensures FieldLabel("confirmPassword") == "Confirm Password"
  {
    var first, rest := "confirm", "assword";
    assert NoCapitals(first) && NoCapitals(rest);
    CamelCaseLabel(first, 'P', rest);
    assert first + ['P'] + rest == "confirmPassword";
    assert ToUpperAscii(first[0]) == 'C';
    assert [ToUpperAscii(first[0])] + first[1..] + " " + ['P'] + rest == "Confirm Password";
  }

  // ---------------------------------------------------------------------------
  // The password change

  const MismatchError := "New password and confirm password do not match."
  const LengthError := "New password must be at least 8 characters long."
  const EmailError := "User email could not be determined. Cannot change password."
  const ChangedMessage := "Password changed successfully!"
  const ServerError := "Failed to change password due to a server error."
  const UnexpectedError := "An unexpected error occurred while changing password."

  datatype MessageType = Success | Failure

  datatype PasswordField = CurrentPassword | NewPassword | ConfirmPassword

  /** The body of the change request. */
  datatype ChangeRequest = ChangeRequest(mailId: string, password: string, newpassword: string)

  /**
   * How the request ended: the server accepted it with an optional message;
   * it answered with an error status, an optional message in the body and
   * the client's error message; the call threw an error with a message; or
   * it threw something else.
   */
  datatype ChangeOutcome =
    | Changed(message: Option<string>)
    | Rejected(dataMessage: Option<string>, errorMessage: string)
    | Thrown(thrownMessage: string)
    | Unknown

  /** `a || b` for an optional text: the text when it is there and not empty. */
  function OrElse(a: Option<string>, b: string): (r: string)
    ensures a.Some? && a.value != "" ==> r == a.value
    ensures a.None? || a.value == "" ==> r == b
  {
    if a.Some? && a.value != "" then a.value else b
  }

  /**
   * The checks of `handlePasswordSubmit`, in order: the two new passwords
   * must match, the new one must have at least 8 characters, and the
   * customer's mail address must be known and not empty.
   */
  function PasswordError(newPassword: string, confirmPassword: string, mailId: Option<string>): (e: Option<string>)
    ensures e.None? <==> newPassword == confirmPassword && |newPassword| >= 8 && mailId.Some? && mailId.value != ""
    ensures newPassword != confirmPassword ==> e == Some(MismatchError)
    ensures newPassword == confirmPassword && |newPassword| < 8 ==> e == Some(LengthError)
    ensures newPassword == confirmPassword && |newPassword| >= 8 && (mailId.None? || mailId.value == "") ==>
      e == Some(EmailError)
  {
    if newPassword != confirmPassword then Some(MismatchError)
    else if |newPassword| < 8 then Some(LengthError)
    else if mailId.None? || mailId.value == "" then Some(EmailError)
    else None
  }

  /** A request goes out only with a confirmed new password of at least 8 characters. */
  lemma AcceptedPasswordIsConfirmed(newPassword: string, confirmPassword: string, mailId: Option<string>)
    requires PasswordError(newPassword, confirmPassword, mailId).None?
    ensures newPassword == confirmPassword && |confirmPassword| >= 8 && mailId.Some? && |mailId.value| > 0
  {
  }

  /** The message and its kind after the request ended. */
  function OutcomeMessage(outcome: ChangeOutcome): (m: (string, MessageType))
    ensures m.1 == Success <==> outcome.Changed?
    ensures outcome.Changed? ==> m.0 == OrElse(outcome.message, ChangedMessage)
    ensures outcome.Rejected? ==> m.0 == OrElse(outcome.dataMessage, OrElse(Some(outcome.errorMessage), ServerError))
    ensures outcome.Thrown? ==> m.0 == outcome.thrownMessage
    ensures outcome.Unknown? ==> m.0 == UnexpectedError
  {
    match outcome
    case Changed(msg) => (OrElse(msg, ChangedMessage), Success)
    case Rejected(dataMessage, errorMessage) => (OrElse(dataMessage, OrElse(Some(errorMessage), ServerError)), Failure)
    case Thrown(msg) => (msg, Failure)
    case Unknown => (UnexpectedError, Failure)
  }

  class PasswordForm {
    var currentPassword: string
    var newPassword: string
    var confirmPassword: string
    var isSaving: bool
    var message: Option<string>
    var messageType: Option<MessageType>

    constructor ()
      ensures currentPassword == "" && newPassword == "" && confirmPassword == ""
      ensures !isSaving && message == None && messageType == None
    {
      currentPassword, newPassword, confirmPassword := "", "", "";
      isSaving, message, messageType := false, None, None;
    }

    /** The message box is shown when there is a message that is not empty. */
    predicate MessageShown()
      reads this
    {
      message.Some? && message.value != ""
    }

    /** `handlePasswordInputChange`: the named field takes the typed value. */
    method HandlePasswordInputChange(field: PasswordField, value: string)
      modifies this
      ensures currentPassword == if field == CurrentPassword then value else old(currentPassword)
      ensures newPassword == if field == NewPassword then value else old(newPassword)
      ensures confirmPassword == if field == ConfirmPassword then value else old(confirmPassword)
      ensures isSaving == old(isSaving) && message == old(message) && messageType == old(messageType)
    {
      match field
      case CurrentPassword => currentPassword := value;
      case NewPassword => newPassword := value;
      case ConfirmPassword => confirmPassword := value;
    }

    /**
     * `handlePasswordSubmit` up to the request.  Saving starts and the
     * message is cleared; a failing check sets its message as an error,
     * stops saving and sends nothing.  Otherwise the request carries the
     * customer's mail address, the current password and the new one.
     */
    method HandlePasswordSubmit(mailId: Option<string>) returns (request: Option<ChangeRequest>)
      modifies this
      ensures PasswordError(old(newPassword), old(confirmPassword), mailId).Some? ==>
        && request == None && !isSaving
        && message == PasswordError(old(newPassword), old(confirmPassword), mailId)
        && messageType == Some(Failure)
      ensures PasswordError(old(newPassword), old(confirmPassword), mailId).None? ==>
        && request == Some(ChangeRequest(mailId.value, old(currentPassword), old(newPassword)))
        && isSaving && message == None && messageType == None
      ensures MessageShown() <==> PasswordError(old(newPassword), old(confirmPassword), mailId).Some?
      ensures currentPassword == old(currentPassword) && newPassword == old(newPassword)
      ensures confirmPassword == old(confirmPassword)
    {
      isSaving := true;
      message := None;
      messageType := None;
      if newPassword != confirmPassword {
        message := Some(MismatchError);
        messageType := Some(Failure);
        isSaving := false;
        return None;
      }
      if |newPassword| < 8 {
        message := Some(LengthError);
        messageType := Some(Failure);
        isSaving := false;
        return None;
      }
      if mailId.None? || mailId.value == "" {
        message := Some(EmailError);
        messageType := Some(Failure);
        isSaving := false;
        return None;
      }
      request := Some(ChangeRequest(mailId.value, currentPassword, newPassword));
    }

    /**
     * The end of `handlePasswordSubmit`: the message of the outcome is
     * shown, saving stops, and after a successful change the three fields
     * are empty again; after a failure they are kept.
     */
    method SettlePasswordChange(outcome: ChangeOutcome)
      modifies this
      ensures message == Some(OutcomeMessage(outcome).0) && messageType == Some(OutcomeMessage(outcome).1)
      ensures MessageShown() <==> OutcomeMessage(outcome).0 != ""
      ensures !outcome.Thrown? ==> MessageShown()
      ensures !isSaving
      ensures outcome.Changed? ==> currentPassword == "" && newPassword == "" && confirmPassword == ""
      ensures !outcome.Changed? ==>
        currentPassword == old(currentPassword) && newPassword == old(newPassword) && confirmPassword == old(confirmPassword)
    {
      var m := OutcomeMessage(outcome);
      message := Some(m.0);
      messageType := Some(m.1);
      if outcome.Changed? {
        currentPassword, newPassword, confirmPassword := "", "", "";
      }
      isSaving := false;
    }
  }
}
