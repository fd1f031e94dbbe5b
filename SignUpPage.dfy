/**
 * The sign-up form (src/pages/SignUpPage.tsx).
 *
 * The form collects the customer's details, checks the passwords, the
 * pincode and the contact number in that order, and asks the server to
 * send the one-time passwords.  The class `SignUpForm` has the form's state;
 * `HandleSendOtp` is `handleSendOtp` up to the request and `SettleSendOtp`
 * the part after the answer.
 */
module SignUpPage {
  import opened JsText

  const MismatchError := "Passwords do not match."
  const PincodeError := "Pincode is required and must be a valid number."
  const PincodeToast := "Pincode is required and must be a valid number (e.g., 123456)."
  const ContactError := "Contact Number is required."
  const SentToast := "OTP sent successfully!"

  // ---------------------------------------------------------------------------
  // The contact number input

  /** `value.substring(0, 10)`: the prefix of the input of at most ten characters, all of a shorter text. */
  function Truncate10(value: string): (r: string)
    ensures |r| == if |value| <= 10 then |value| else 10
    ensures r == value[..|r|]
  {
    if |value| <= 10 then value else value[..10]
  }

  /** Storing the stored number again changes nothing. */
  lemma Truncate10Idempotent(value: string)
    ensures Truncate10(Truncate10(value)) == Truncate10(value)
  {
  }

  // ---------------------------------------------------------------------------
  // The pincode rule

  /**
   * The check of `handleSendOtp`: the trimmed pincode is not empty, `parseInt`
   * reads a number from it, and `String` of that number is as long as the
   * trimmed text.
   */
  predicate PincodeAccepted(pincode: string) {
    var t := Trim(pincode);
    t != "" && ParseInt(t).Some? && |IntToString(ParseInt(t).value)| == |t|
  }

  /**
   * A text that is exactly how `String` writes an integer: "0", or digits
   * not starting with 0, or a minus sign followed by such digits.
   */
  predicate CanonicalInteger(t: string) {
    || (t != [] && AllDigits(t) && (t[0] != '0' || t == "0"))
    || (|t| >= 2 && t[0] == '-' && AllDigits(t[1..]) && t[1] != '0')
  }

  /**
   * The pincode rule, stated outright: a pincode is accepted exactly when,
   * after trimming, it is an integer as `String` would write it.  So
   * "560001" and " 560001 " pass, "-123" passes as well, and "012345",
   * "1234ab", "+123", "-0" and "" fail.
   */
  lemma PincodeRule(pincode: string)
    ensures PincodeAccepted(pincode) <==> CanonicalInteger(Trim(pincode))
  {
    var t := Trim(pincode);
    TrimIdempotent(pincode);
    assert TrimStart(t) == t;
    if CanonicalInteger(t) {
      CanonicalIsAccepted(t);
    }
    if PincodeAccepted(pincode) {
      AcceptedIsCanonical(t);
    }
  }

  lemma CanonicalIsAccepted(t: string)
    requires TrimStart(t) == t && CanonicalInteger(t)
    ensures t != "" && ParseInt(t).Some? && |IntToString(ParseInt(t).value)| == |t|
  {
    if t != [] && AllDigits(t) && (t[0] != '0' || t == "0") {
      assert Unsigned(t) == t;
      DigitPrefixOfDigits(t);
      NatToStringOfDecimalValue(t);
    } else {
      var d := t[1..];
      assert Unsigned(t) == d;
      DigitPrefixOfDigits(d);
      PositiveDecimalValue(d);
      NatToStringOfDecimalValue(d);
      var v: int := DecimalValue(d);
      assert ParseInt(t) == Some(-v);
      assert IntToString(-v) == "-" + NatToString(v);
    }
  }

  lemma AcceptedIsCanonical(t: string)
    requires TrimStart(t) == t
    requires t != "" && ParseInt(t).Some? && |IntToString(ParseInt(t).value)| == |t|
    ensures CanonicalInteger(t)
  {
    var u := Unsigned(t);
    var d := DigitPrefix(u);
    var v: int := DecimalValue(d);
    NatToStringOfDecimalValueShorter(d);
    if t[0] == '-' {
      assert ParseInt(t) == Some(-v);
      if v == 0 {
        assert false;
      }
      assert |NatToString(v)| == |u|;
      assert d == u;
      if d[0] == '0' {
        if |d| >= 2 {
          LeadingZeroShortens(d);
        }
        assert false;
      }
    } else if t[0] == '+' {
      assert false;
    } else {
      assert u == t;
      assert ParseInt(t) == Some(v);
      assert d == t;
      if t[0] == '0' && |t| >= 2 {
        LeadingZeroShortens(t);
        assert false;
      }
    }
  }

  /** Neither end of a trimmed-looking text needs trimming. */
  lemma TrimOfUnpadded(t: string)
    requires t != [] && !IsSpace(t[0]) && !IsSpace(t[|t| - 1])
    ensures Trim(t) == t
  {
  }

  /** A six-digit pincode that does not start with 0 passes. */
  lemma SixDigitPincodeAccepted(t: string)
    requires IsSixDigits(t) && t[0] != '0'
    ensures PincodeAccepted(t)
  {
    TrimOfUnpadded(t);
    PincodeRule(t);
  }

  /** Blanks around such a pincode do not matter. */
  lemma PaddedPincodeAccepted(t: string)
    requires IsSixDigits(t) && t[0] != '0'
    ensures PincodeAccepted(" " + t + " ")
  {
    TrimOfUnpadded(t);
    TrimOfBlankPadded(t);
    PincodeRule(" " + t + " ");
  }

  /** A leading zero is refused, as in "012345": `String` of the number is one character shorter. */
  lemma LeadingZeroPincodeRefused(t: string)
    requires |t| >= 2 && AllDigits(t) && t[0] == '0'
    ensures !PincodeAccepted(t)
  {
    TrimOfUnpadded(t);
    PincodeRule(t);
  }

  /**
   * Any character other than a digit is refused, save a minus sign in
   * front: so "1234ab" fails though `parseInt` reads its first four digits,
   * and "+123" fails since `String` never writes a plus sign.
   */
  lemma NonDigitPincodeRefused(t: string, i: int)
    requires t != [] && !IsSpace(t[0]) && !IsSpace(t[|t| - 1])
    requires 0 <= i < |t| && !IsDigit(t[i]) && !(i == 0 && t[0] == '-')
    ensures !PincodeAccepted(t)
  {
    TrimOfUnpadded(t);
    PincodeRule(t);
    if i > 0 && |t| >= 2 && t[0] == '-' {
      assert t[1..][i - 1] == t[i];
    }
  }

  // ---------------------------------------------------------------------------
  // The form

  /** The body of the sign-up request; the pincode goes as the parsed number. */
  datatype SignUpRequest = SignUpRequest(
    firstName: string, lastName: string, companyName: string, phone: string, email: string,
    businessType: string, monthlyOrder: string, password: string, gstNumber: string,
    address: string, state: string, pincode: int)

  /** How the request ended: the codes were sent, or the server refused with an optional message. */
  datatype SendOutcome = Sent | Refused(message: Option<string>)

  class SignUpForm {
    var firstName: string
    var lastName: string
    var companyName: string
    var contactNumber: string
    var mailId: string
    var password: string
    var confirmPassword: string
    var gstNumber: string
    var address: string
    var customerState: string
    var pincode: string
    var monthlyOrders: string
    var businessType: string
    var otpSent: bool
    var error: string
    var isLoading: bool

    constructor ()
      ensures firstName == "" && lastName == "" && companyName == "" && contactNumber == "" && mailId == ""
      ensures password == "" && confirmPassword == "" && gstNumber == "" && address == "" && customerState == ""
      ensures pincode == "" && monthlyOrders == "" && businessType == ""
      ensures !otpSent && error == "" && !isLoading
    {
      firstName, lastName, companyName, contactNumber, mailId := "", "", "", "", "";
      password, confirmPassword, gstNumber, address, customerState := "", "", "", "", "";
      pincode, monthlyOrders, businessType := "", "", "";
      otpSent, error, isLoading := false, "", false;
    }

    /** The verify-codes step replaces the "Send OTP" button once the codes were sent. */
    predicate ShowsVerifyStep()
      reads this
    {
      otpSent
    }

    /** `handleContactNumberChange`: only the first ten characters are kept. */
    method HandleContactNumberChange(value: string)
      modifies this
      ensures contactNumber == Truncate10(value)
      ensures firstName == old(firstName) && lastName == old(lastName) && companyName == old(companyName)
      ensures mailId == old(mailId) && password == old(password) && confirmPassword == old(confirmPassword)
      ensures gstNumber == old(gstNumber) && address == old(address) && customerState == old(customerState)
      ensures pincode == old(pincode) && monthlyOrders == old(monthlyOrders) && businessType == old(businessType)
      ensures otpSent == old(otpSent) && error == old(error) && isLoading == old(isLoading)
    {
      contactNumber := Truncate10(value);
    }

    /** The request built from the form and the parsed pincode. */
    function Request(parsedPincode: int): SignUpRequest
      reads this
    {
      SignUpRequest(firstName, lastName, companyName, contactNumber, mailId,
        businessType, monthlyOrders, password, gstNumber, address, customerState, parsedPincode)
    }

    /**
     * `handleSendOtp` up to the request.  The error is cleared and loading
     * starts; the passwords must match, then the pincode must pass the rule,
     * then the contact number must not be blank.  A failing check sets its
     * error, shows its toast, stops loading and sends nothing.  Otherwise the
     * request goes out with the parsed pincode, still loading.
     */
    method HandleSendOtp() returns (request: Option<SignUpRequest>, toast: Option<string>)
      modifies this
      ensures old(password) != old(confirmPassword) ==>
        request == None && error == MismatchError && toast == Some(MismatchError) && !isLoading
      ensures old(password) == old(confirmPassword) && !PincodeAccepted(old(pincode)) ==>
        request == None && error == PincodeError && toast == Some(PincodeToast) && !isLoading
      ensures old(password) == old(confirmPassword) && PincodeAccepted(old(pincode)) && IsBlank(old(contactNumber)) ==>
        request == None && error == ContactError && toast == Some(ContactError) && !isLoading
      ensures old(password) == old(confirmPassword) && PincodeAccepted(old(pincode)) && !IsBlank(old(contactNumber)) ==>
        && request == Some(old(Request(ParseInt(Trim(pincode)).value)))
        && error == "" && toast == None && isLoading
      ensures firstName == old(firstName) && lastName == old(lastName) && companyName == old(companyName)
      ensures contactNumber == old(contactNumber) && mailId == old(mailId) && password == old(password)
      ensures confirmPassword == old(confirmPassword) && gstNumber == old(gstNumber) && address == old(address)
      ensures customerState == old(customerState) && pincode == old(pincode) && monthlyOrders == old(monthlyOrders)
      ensures businessType == old(businessType) && otpSent == old(otpSent)
      ensures ShowsVerifyStep() == old(ShowsVerifyStep())
    {
      error := "";
      isLoading := true;
      if password != confirmPassword {
        error := MismatchError;
        toast := Some(MismatchError);
        isLoading := false;
        return None, toast;
      }
      var trimmedPincode := Trim(pincode);
      var parsedPincode := ParseInt(trimmedPincode);
      ghost var refused := trimmedPincode == "" || parsedPincode.None? || |IntToString(parsedPincode.value)| != |trimmedPincode|;
      assert refused <==> !PincodeAccepted(pincode);
      if trimmedPincode == "" || parsedPincode.None? || |IntToString(parsedPincode.value)| != |trimmedPincode| {
        error := PincodeError;
        toast := Some(PincodeToast);
        isLoading := false;
        return None, toast;
      }
      if IsBlank(contactNumber) {
        error := ContactError;
        toast := Some(ContactError);
        isLoading := false;
        return None, toast;
      }
      request := Some(Request(parsedPincode.value));
      toast := None;
    }

    /**
     * The end of `handleSendOtp`: loading stops; the verify step opens only
     * when the codes were sent.  Returns the toast text.
     */
    method SettleSendOtp(outcome: SendOutcome) returns (toast: string)
      modifies this
      ensures !isLoading
      ensures otpSent == (old(otpSent) || outcome.Sent?)
      ensures ShowsVerifyStep() <==> old(ShowsVerifyStep()) || outcome.Sent?
      ensures toast == match outcome
        case Sent => SentToast
        case Refused(m) => if m.Some? && m.value != "" then m.value else "Failed to send OTP"
      ensures firstName == old(firstName) && lastName == old(lastName) && companyName == old(companyName)
      ensures contactNumber == old(contactNumber) && mailId == old(mailId) && password == old(password)
      ensures confirmPassword == old(confirmPassword) && gstNumber == old(gstNumber) && address == old(address)
      ensures customerState == old(customerState) && pincode == old(pincode) && monthlyOrders == old(monthlyOrders)
      ensures businessType == old(businessType) && error == old(error)
    {
      if outcome.Sent? {
        toast := SentToast;
        otpSent := true;
      } else {
        var m := outcome.message;
        toast := if m.Some? && m.value != "" then m.value else "Failed to send OTP";
      }
      isLoading := false;
    }
  }
}
