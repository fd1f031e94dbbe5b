/**
 * The contact form (src/pages/ContactUsPage.tsx).
 *
 * The form has four fields and an error line.  Its two buttons are links
 * that open a mail: one in the visitor's mail program, one in the Gmail
 * web page; both carry the same subject and body.  A click goes through only
 * when `validate` passes.  The class `ContactForm` has the form's state.
 */
module ContactUsPage {
  import opened JsText

  const BlankError := "Please fill in all fields."
  const EmailError := "Please enter a valid email address."
  const Recipient := "tech@foruselectric.com"

  datatype FormField = Name | Email | Subject | Message

  datatype Fields = Fields(name: string, email: string, subject: string, message: string)

  // ---------------------------------------------------------------------------
  // The e-mail check: `/\S+@\S+\.\S+/.test(email)`

  /** No white space anywhere in `s[i..j]`. */
  predicate NonSpaceRun(s: string, i: int, j: int)
    requires 0 <= i <= j <= |s|
  {
    forall k :: i <= k < j ==> !IsSpace(s[k])
  }

  /**
   * The pattern matches `s[a..e]` with the `@` at `at` and the `.` at `dot`:
   * a run of non-space characters, `@`, another run, `.`, and a third run,
   * each run at least one character long.
   */
  predicate MatchesAt(s: string, a: int, at: int, dot: int, e: int) {
    && 0 <= a < at && at + 1 < dot && dot + 1 < e <= |s|
    && s[at] == '@' && s[dot] == '.'
    && NonSpaceRun(s, a, at) && NonSpaceRun(s, at + 1, dot) && NonSpaceRun(s, dot + 1, e)
  }

  /** The pattern is not anchored: it may match anywhere in the text. */
  predicate EmailAccepted(s: string) {
    exists a, at, dot, e :: 0 <= a < |s| && a < at < |s| && at < dot < |s| && dot < e <= |s| && MatchesAt(s, a, at, dot, e)
  }

  /**
   * The check in its smallest form: some `@` has a non-space character just
   * before it, and after it comes a non-space run that reaches a `.` which
   * is followed by a non-space character.
   */
  predicate EmailShape(s: string) {
    exists at, dot :: 0 < at < |s| && at + 1 < dot < |s| - 1 && ShapeAt(s, at, dot)
  }

  predicate ShapeAt(s: string, at: int, dot: int)
    requires 0 < at && at + 1 < dot && dot + 1 < |s|
  {
    && s[at] == '@' && s[dot] == '.'
    && !IsSpace(s[at - 1]) && NonSpaceRun(s, at + 1, dot) && !IsSpace(s[dot + 1])
  }

  /** The unanchored pattern accepts a text exactly when the text has the smallest form. */
  lemma EmailAcceptedIffShape(s: string)
    ensures EmailAccepted(s) <==> EmailShape(s)
  {
    if EmailAccepted(s) {
      AcceptedHasShape(s);
    }
    if EmailShape(s) {
      ShapeIsAccepted(s);
    }
  }

  lemma AcceptedHasShape(s: string)
    requires EmailAccepted(s)
    ensures EmailShape(s)
  {
    var a, at, dot, e :| 0 <= a < |s| && a < at < |s| && at < dot < |s| && dot < e <= |s| && MatchesAt(s, a, at, dot, e);
    assert !IsSpace(s[at - 1]) && !IsSpace(s[dot + 1]);
    assert ShapeAt(s, at, dot);
  }

  lemma ShapeIsAccepted(s: string)
    requires EmailShape(s)
    ensures EmailAccepted(s)
  {
    var at, dot :| 0 < at < |s| && at + 1 < dot < |s| - 1 && ShapeAt(s, at, dot);
    assert NonSpaceRun(s, at - 1, at) && NonSpaceRun(s, dot + 1, dot + 2);
    assert MatchesAt(s, at - 1, at, dot, dot + 2);
  }

  /** An address is accepted. */
  lemma PlainAddressAccepted()
    ensures EmailAccepted("ann@example.com")
  {
    var s := "ann@example.com";
    assert MatchesAt(s, 0, 3, 11, 15);
  }

  /** The pattern is not anchored: text around an address does not matter. */
  lemma SurroundedAddressAccepted()
    ensures EmailAccepted("mail: ann@x.in please")
  {
    var s := "mail: ann@x.in please";
    assert MatchesAt(s, 6, 9, 11, 14);
  }

  /** Without a `.` after the `@` the address is refused. */
  lemma AddressWithoutDotRefused()
    ensures !EmailAccepted("ann@example")
  {
    var s := "ann@example";
    assert forall k :: 0 <= k < |s| ==> s[k] != '.';
    EmailAcceptedIffShape(s);
  }

  /** A blank between the name and the `@` breaks the address. */
  lemma SpacedAddressRefused()
    ensures !EmailAccepted("ann @example.com")
  {
    var s := "ann @example.com";
    assert forall k :: 0 <= k < |s| && s[k] == '@' ==> k == 4;
    assert IsSpace(s[3]);
    EmailAcceptedIffShape(s);
  }

  // ---------------------------------------------------------------------------
  // Validation and the mail links

  /** The checks of `validate`, in order: no field may be blank, then the address must fit the pattern. */
  function ValidationError(f: Fields): (e: Option<string>)
    ensures e.None? <==>
      !IsBlank(f.name) && !IsBlank(f.email) && !IsBlank(f.subject) && !IsBlank(f.message) && EmailAccepted(f.email)
    ensures IsBlank(f.name) || IsBlank(f.email) || IsBlank(f.subject) || IsBlank(f.message) ==> e == Some(BlankError)
  {
    if IsBlank(f.name) || IsBlank(f.email) || IsBlank(f.subject) || IsBlank(f.message) then Some(BlankError)
    else if !EmailAccepted(f.email) then Some(EmailError)
    else None
  }

  /** The e-mail message is reached only by an address that fits the pattern being refused. */
  lemma EmailErrorMeansBadAddress(f: Fields)
    ensures ValidationError(f) == Some(EmailError) <==>
      !IsBlank(f.name) && !IsBlank(f.email) && !IsBlank(f.subject) && !IsBlank(f.message) && !EmailAccepted(f.email)
  {
  }

  /**
   * The text of the mail, `[name line, email line, '', message].join('\n')`:
   * the name line, the address line, an empty line and the message.
   */
  function MailBody(f: Fields): (r: string)
    ensures r == "Name: " + f.name + "\nEmail: " + f.email + "\n\n" + f.message
  {
    var parts := ["Name: " + f.name, "Email: " + f.email, "", f.message];
    assert parts[1..] == ["Email: " + f.email, "", f.message];
    assert parts[1..][1..] == ["", f.message];
    assert parts[1..][1..][1..] == [f.message];
    assert Join(parts[1..][1..], "\n") == "\n" + f.message;
    assert Join(parts[1..], "\n") == "Email: " + f.email + "\n" + "\n" + f.message;
    assert "\n" + "Email: " == "\nEmail: ";
    assert "\n" + "\n" == "\n\n";
    Join(parts, "\n")
  }

  /** When no field holds a line break, the body splits back into its four lines. */
  lemma MailBodyLines(f: Fields)
    requires '\n' !in f.name && '\n' !in f.email && '\n' !in f.message
    ensures Split(MailBody(f), '\n') == ["Name: " + f.name, "Email: " + f.email, "", f.message]
  {
    var parts := ["Name: " + f.name, "Email: " + f.email, "", f.message];
    assert '\n' !in parts[0] by {
      assert forall k :: 0 <= k < 6 ==> parts[0][k] == "Name: "[k];
      assert forall k :: 6 <= k < |parts[0]| ==> parts[0][k] == f.name[k - 6];
    }
    assert '\n' !in parts[1] by {
      assert forall k :: 0 <= k < 7 ==> parts[1][k] == "Email: "[k];
      assert forall k :: 7 <= k < |parts[1]| ==> parts[1][k] == f.email[k - 7];
    }
    SplitJoin(parts, '\n');
  }

  const MailtoLead := "mailto:" + Recipient + "?subject="
  const GmailLead := "https://mail.google.com/mail/?view=cm&fs=1&to=" + Recipient + "&su="

  /**
   * A link that opens a message to the recipient: `lead`, the encoded
   * subject, then `&body=` and the encoded body.  `encode` is
   * `encodeURIComponent`, which is not part of this model.
   */
  function ComposeLink(lead: string, f: Fields, encode: string -> string): (r: string)
    ensures |r| >= |lead| + |encode(f.subject)| && r[..|lead|] == lead
    ensures r[|lead|..|lead| + |encode(f.subject)|] == encode(f.subject)
    ensures EndsWith(r, "&body=" + encode(MailBody(f)))
  {
    var subject := encode(f.subject);
    var tail := "&body=" + encode(MailBody(f));
    var r := lead + subject + tail;
    assert r[..|lead|] == lead;
    assert r[|lead|..|lead| + |subject|] == subject;
    assert r[|r| - |tail|..] == tail;
    r
  }

  /** The link of the first button, a mailto link. */
  function MailtoLink(f: Fields, encode: string -> string): string {
    ComposeLink(MailtoLead, f, encode)
  }

  /** The link of the second button, Gmail's compose page. */
  function GmailLink(f: Fields, encode: string -> string): string {
    ComposeLink(GmailLead, f, encode)
  }

  class ContactForm {
    var name: string
    var email: string
    var subject: string
    var message: string
    var error: Option<string>

    function Form(): Fields
      reads this
    {
      Fields(name, email, subject, message)
    }

    constructor ()
      ensures Form() == Fields("", "", "", "") && error == None
    {
      name, email, subject, message := "", "", "", "";
      error := None;
    }

    /** `handleChange`: the named field takes the typed value and the error goes away. */
    method HandleChange(field: FormField, value: string)
      modifies this
      ensures name == if field == Name then value else old(name)
      ensures email == if field == Email then value else old(email)
      ensures subject == if field == Subject then value else old(subject)
      ensures message == if field == Message then value else old(message)
      ensures error == None
    {
      error := None;
      match field
      case Name => name := value;
      case Email => email := value;
      case Subject => subject := value;
      case Message => message := value;
    }

    /** `validate`: a failing check sets its error; passing leaves the error as it was. */
    method Validate() returns (ok: bool)
      modifies this
      ensures ok <==> ValidationError(old(Form())).None?
      ensures error == if ok then old(error) else ValidationError(old(Form()))
      ensures Form() == old(Form())
    {
      if IsBlank(name) || IsBlank(email) || IsBlank(subject) || IsBlank(message) {
        error := Some(BlankError);
        return false;
      }
      if !EmailAccepted(email) {
        error := Some(EmailError);
        return false;
      }
      return true;
    }

    /**
     * A click on either button: the link is followed only when the form
     * validates; otherwise the click is cancelled.  Returns the address the
     * browser opens, if any.
     */
    method ClickLink(gmail: bool, encode: string -> string) returns (visited: Option<string>)
      modifies this
      ensures visited.Some? <==> ValidationError(old(Form())).None?
      ensures visited.Some? ==>
        visited.value == if gmail then GmailLink(old(Form()), encode) else MailtoLink(old(Form()), encode)
      ensures error == if visited.Some? then old(error) else ValidationError(old(Form()))
      ensures Form() == old(Form())
    {
      var f := Form();
      var link := if gmail then GmailLink(f, encode) else MailtoLink(f, encode);
      var ok := Validate();
      if ok {
        visited := Some(link);
      } else {
        visited := None;
      }
    }
  }
}
