/**
 * The sign-in page (src/pages/AuthPage.tsx): password or one-time-code sign-in, the code sent
 * by e-mail or SMS, for an existing account or a new one. The page is a small state machine
 * over which method is chosen, whether a code has been sent, and the code typed so far.
 */
module AuthPage {
  import opened Optional
  import opened JsString

  datatype AuthMode = Password | Otp
  datatype OtpChannel = Email | Phone

  predicate IsDigit(c: char) {
    '0' <= c <= '9'
  }

  /** A code as the code field can hold it: ASCII digits only, at most six of them. */
  predicate SanitizedCode(code: string) {
    |code| <= 6 && forall i :: 0 <= i < |code| ==> IsDigit(code[i])
  }

  /** `value.replace(/\D/g, "")`: the ASCII digits of the input, in order. */
  function Digits(s: string): (r: string)
    ensures |r| <= |s|
    ensures forall i :: 0 <= i < |r| ==> IsDigit(r[i])
    ensures forall c :: c in r <==> c in s && IsDigit(c)
  {
    if s == [] then ""
    else (if IsDigit(s[0]) then [s[0]] else "") + Digits(s[1..])
  }

  /** The digits of a concatenation are the digits of each part, in order: nothing is skipped. */
  lemma {:induction false} DigitsAppend(a: string, b: string)
    ensures Digits(a + b) == Digits(a) + Digits(b)
    decreases |a|
  {
    if a == [] {
      assert a + b == b;
    } else {
      var head := if IsDigit(a[0]) then [a[0]] else "";
      assert (a + b)[0] == a[0];
      assert (a + b)[1..] == a[1..] + b;
      calc {
        Digits(a + b);
        head + Digits(a[1..] + b);
        { DigitsAppend(a[1..], b); }
        head + (Digits(a[1..]) + Digits(b));
        (head + Digits(a[1..])) + Digits(b);
        Digits(a) + Digits(b);
      }
    }
  }

  /** A code pasted with a separator in the middle ("123 456") keeps all its digits and can be submitted. */
  lemma PastedCodeWithSeparator(a: string, sep: char, b: string)
    requires forall i :: 0 <= i < |a| ==> IsDigit(a[i])
    requires forall i :: 0 <= i < |b| ==> IsDigit(b[i])
    requires !IsDigit(sep) && |a| + |b| == 6
    ensures SanitizeOtp(a + [sep] + b) == a + b
    ensures CanSubmitOtpCode(SanitizeOtp(a + [sep] + b))
  {
    var pasted := a + [sep] + b;
    calc {
      Digits(pasted);
      { DigitsAppend(a + [sep], b); }
      Digits(a + [sep]) + Digits(b);
      { DigitsAppend(a, [sep]); }
      (Digits(a) + Digits([sep])) + Digits(b);
      { assert [sep][1..] == []; }
      (Digits(a) + "") + Digits(b);
      { DigitsOfDigits(a); DigitsOfDigits(b); }
      (a + "") + b;
      { assert a + "" == a; }
      a + b;
    }
    CanSubmitSanitized(a + b);
  }

  /** `value.replace(/\D/g, "").slice(0, 6)`, applied to every keystroke in the code field. */
  function SanitizeOtp(s: string): (r: string)
    ensures SanitizedCode(r)
    ensures |r| == if |Digits(s)| < 6 then |Digits(s)| else 6
    ensures r == Digits(s)[..|r|]
  {
    var d := Digits(s);
    if |d| <= 6 then d else d[..6]
  }

  lemma {:induction false} DigitsOfDigits(s: string)
    requires forall i :: 0 <= i < |s| ==> IsDigit(s[i])
    ensures Digits(s) == s
    decreases |s|
  {
    if s != [] {
      DigitsOfDigits(s[1..]);
      assert [s[0]] + s[1..] == s;
    }
  }

  /** Sanitising twice is sanitising once: a sanitised code passes through unchanged. */
  lemma SanitizeIdempotent(s: string)
    ensures SanitizeOtp(SanitizeOtp(s)) == SanitizeOtp(s)
  {
    DigitsOfDigits(SanitizeOtp(s));
  }

  /** `canSubmitOtpCode`: the trimmed code has at least six characters. */
  predicate CanSubmitOtpCode(code: string)
    ensures CanSubmitOtpCode(code) ==> |code| >= 6
  {
    |Trim(code)| >= 6
  }

  /** For a code the field can hold, submitting is allowed exactly when all six digits are in. */
  lemma CanSubmitSanitized(code: string)
    requires SanitizedCode(code)
    ensures CanSubmitOtpCode(code) <==> |code| == 6
  {
    CodeIsTrimmed(code);
  }

  lemma CodeIsTrimmed(code: string)
    requires SanitizedCode(code)
    ensures Trim(code) == code
  {
    if code != [] {
      DigitIsNotWhitespace(code[0]);
      DigitIsNotWhitespace(code[|code| - 1]);
    }
    TrimOfTrimmed(code);
  }

  lemma DigitIsNotWhitespace(c: char)
    requires IsDigit(c)
    ensures !IsWhitespace(c)
  {
  }

  /** `showEmailInput`: every form except the one for a code by SMS asks for an e-mail. */
  predicate ShowEmailInput(mode: AuthMode, channel: OtpChannel)
    ensures ShowEmailInput(mode, channel) <==> !(mode == Otp && channel == Phone)
  {
    mode == Password || channel == Email
  }

  /** `showPhoneInput`: only the one-time-code method asks for a phone number. */
  predicate ShowPhoneInput(mode: AuthMode, channel: OtpChannel)
    ensures ShowPhoneInput(mode, channel) ==> mode == Otp
  {
    mode == Otp && channel == Phone
  }

  /** Every combination of method and channel shows exactly one of the two address fields. */
  lemma ExactlyOneAddressField(mode: AuthMode, channel: OtpChannel)
    ensures ShowEmailInput(mode, channel) != ShowPhoneInput(mode, channel)
  {
  }

  /** The submit button's `disabled`. */
  predicate SubmitDisabled(loading: bool, mode: AuthMode, otpSent: bool, code: string)
    ensures !loading && (mode == Password || !otpSent) ==> !SubmitDisabled(loading, mode, otpSent, code)
    ensures loading ==> SubmitDisabled(loading, mode, otpSent, code)
  {
    loading || (mode == Otp && otpSent && !CanSubmitOtpCode(code))
  }

  /**
   * With a code the field can hold, the button is disabled exactly while loading, or while a
   * code is out and fewer than six digits are typed.
   */
  lemma SubmitDisabledForSanitized(loading: bool, mode: AuthMode, otpSent: bool, code: string)
    requires SanitizedCode(code)
    ensures SubmitDisabled(loading, mode, otpSent, code) <==>
      loading || (mode == Otp && otpSent && |code| < 6)
  {
    CanSubmitSanitized(code);
  }

  /** What a submit does, by method and by whether a code is out. */
  datatype SubmitAction = PasswordAuth | VerifyCode | SendCode

  function Dispatch(mode: AuthMode, otpSent: bool): (a: SubmitAction)
    ensures mode == Password <==> a == PasswordAuth
    ensures a == VerifyCode <==> mode == Otp && otpSent
    ensures a == SendCode <==> mode == Otp && !otpSent
  {
    match mode
    case Password => PasswordAuth
    case Otp => if otpSent then VerifyCode else SendCode
  }

  /** A call to the authentication service, with what the page puts in it. */
  datatype AuthRequest =
    | SignInWithPassword(email: string, password: string)
    | SignUp(email: string, password: string, fullName: string)
    | SendOtpByEmail(email: string, shouldCreateUser: bool, meta: Option<string>)
    | SendOtpBySms(phone: string, shouldCreateUser: bool, meta: Option<string>)
    | VerifyEmailOtp(email: string, token: string)
    | VerifySmsOtp(phone: string, token: string)

  /** What the user sees once a request has come back. */
  datatype Outcome =
    | SignedIn          // navigate to "/" after a password sign-in
    | AccountCreated    // the "Account created" notice after a sign-up
    | OtpSent           // the "OTP sent" notice
    | Verified          // the "Verified" notice, then "/"
    | Failed            // the "Error" notice
    | Unhandled         // a rejected promise nobody catches

  class AuthForm {
    var isLogin: bool
    var authMode: AuthMode
    var otpChannel: OtpChannel
    var email: string
    var phone: string
    var password: string
    var fullName: string
    var otpSent: bool
    var otpCode: string
    var loading: bool

    /** The code field only ever holds a sanitised code. */
    predicate Valid()
      reads this
    {
      SanitizedCode(otpCode)
    }

    constructor ()
      ensures Valid()
      ensures isLogin && authMode == Password && otpChannel == Phone
      ensures email == "" && phone == "" && password == "" && fullName == ""
      ensures !otpSent && otpCode == "" && !loading
    {
      isLogin, authMode, otpChannel := true, Password, Phone;
      email, phone, password, fullName := "", "", "", "";
      otpSent, otpCode, loading := false, "", false;
    }

    /** `resetOtpState`. */
    method ResetOtpState()
      modifies this
      ensures Valid() && !otpSent && otpCode == ""
      ensures isLogin == old(isLogin) && authMode == old(authMode) && otpChannel == old(otpChannel)
      ensures email == old(email) && phone == old(phone) && password == old(password)
      ensures fullName == old(fullName) && loading == old(loading)
    {
      otpSent := false;
      otpCode := "";
    }

    /** The Password and OTP buttons: choose the method and forget any code. */
    method ChooseMode(mode: AuthMode)
      modifies this
      ensures Valid() && authMode == mode && !otpSent && otpCode == ""
      ensures isLogin == old(isLogin) && otpChannel == old(otpChannel)
      ensures email == old(email) && phone == old(phone) && password == old(password)
      ensures fullName == old(fullName) && loading == old(loading)
    {
      authMode := mode;
      ResetOtpState();
    }

    /** The Phone OTP and Email OTP buttons: choose the channel and forget any code. */
    method ChooseChannel(channel: OtpChannel)
      modifies this
      ensures Valid() && otpChannel == channel && !otpSent && otpCode == ""
      ensures isLogin == old(isLogin) && authMode == old(authMode)
      ensures email == old(email) && phone == old(phone) && password == old(password)
      ensures fullName == old(fullName) && loading == old(loading)
    {
      otpChannel := channel;
      ResetOtpState();
    }

    /** The "Sign up" / "Sign in" link: flip between the two and forget any code. */
    method ToggleLogin()
      modifies this
      ensures Valid() && isLogin == !old(isLogin) && !otpSent && otpCode == ""
      ensures authMode == old(authMode) && otpChannel == old(otpChannel)
      ensures email == old(email) && phone == old(phone) && password == old(password)
      ensures fullName == old(fullName) && loading == old(loading)
    {
      isLogin := !isLogin;
      ResetOtpState();
    }

    /** Typing in the code field. */
    method EnterOtp(typed: string)
      modifies this
      ensures Valid() && otpCode == SanitizeOtp(typed)
      ensures isLogin == old(isLogin) && authMode == old(authMode) && otpChannel == old(otpChannel)
      ensures email == old(email) && phone == old(phone) && password == old(password)
      ensures fullName == old(fullName) && otpSent == old(otpSent) && loading == old(loading)
    {
      otpCode := SanitizeOtp(typed);
    }

    /** The request `sendOtp` makes: new accounts may be created and named only when signing up. */
    function SendRequest(): (r: AuthRequest)
      reads this
      ensures r.SendOtpByEmail? <==> otpChannel == Email
      ensures r.SendOtpByEmail? || r.SendOtpBySms?
      ensures r.SendOtpByEmail? ==> r.email == email
      ensures r.SendOtpBySms? ==> r.phone == phone
      ensures r.shouldCreateUser == !isLogin
      ensures r.meta == if isLogin then None else Some(fullName)
    {
      var meta := if isLogin then None else Some(fullName);
      if otpChannel == Email then SendOtpByEmail(email, !isLogin, meta)
      else SendOtpBySms(phone, !isLogin, meta)
    }

    /** The request `handleSubmit` makes in the current state. */
    function SubmitRequest(): (r: AuthRequest)
      reads this
      ensures Dispatch(authMode, otpSent) == PasswordAuth ==>
        r == if isLogin then SignInWithPassword(email, password) else SignUp(email, password, fullName)
      ensures Dispatch(authMode, otpSent) == VerifyCode ==>
        r == if otpChannel == Email then VerifyEmailOtp(email, otpCode) else VerifySmsOtp(phone, otpCode)
      ensures Dispatch(authMode, otpSent) == SendCode ==> r == SendRequest()
    {
      match Dispatch(authMode, otpSent)
      case PasswordAuth =>
        if isLogin then SignInWithPassword(email, password) else SignUp(email, password, fullName)
      case VerifyCode =>
        if otpChannel == Email then VerifyEmailOtp(email, otpCode) else VerifySmsOtp(phone, otpCode)
      case SendCode => SendRequest()
    }

    /**
     * `handleSubmit`, with `fails` standing for the service's answer. The request goes out
     * as `Dispatch` says; a code counts as sent only when sending it succeeded; any failure
     * shows the error notice; and loading is over when the handler returns.
     */
    method HandleSubmit(fails: bool) returns (request: AuthRequest, outcome: Outcome)
      requires Valid()
      modifies this
      ensures Valid() && !loading
      ensures request == old(SubmitRequest())
      ensures fails ==> outcome == Failed && otpSent == old(otpSent)
      ensures !fails ==> outcome == match Dispatch(old(authMode), old(otpSent))
                                   case PasswordAuth => if old(isLogin) then SignedIn else AccountCreated
                                   case VerifyCode => Verified
                                   case SendCode => OtpSent
      ensures otpSent == (old(otpSent) || (!fails && Dispatch(old(authMode), old(otpSent)) == SendCode))
      ensures isLogin == old(isLogin) && authMode == old(authMode) && otpChannel == old(otpChannel)
      ensures email == old(email) && phone == old(phone) && password == old(password)
      ensures fullName == old(fullName) && otpCode == old(otpCode)
    {
      loading := true;
      request := SubmitRequest();
      match Dispatch(authMode, otpSent) {
        case PasswordAuth =>
          outcome := if isLogin then SignedIn else AccountCreated;
        case VerifyCode =>
          outcome := Verified;
        case SendCode =>
          if !fails {
            otpSent := true;
          }
          outcome := OtpSent;
      }
      if fails {
        outcome := Failed;
      }
      loading := false;
    }

    /**
     * The "Resend OTP" button calls `sendOtp` itself: no loading state, and a failure is not
     * caught.
     */
    method ResendOtp(fails: bool) returns (request: AuthRequest, outcome: Outcome)
      requires Valid()
      modifies this
      ensures Valid() && request == old(SendRequest())
      ensures outcome == if fails then Unhandled else OtpSent
      ensures otpSent == (old(otpSent) || !fails)
      ensures isLogin == old(isLogin) && authMode == old(authMode) && otpChannel == old(otpChannel)
      ensures email == old(email) && phone == old(phone) && password == old(password)
      ensures fullName == old(fullName) && otpCode == old(otpCode) && loading == old(loading)
    {
      request := SendRequest();
      if fails {
        outcome := Unhandled;
      } else {
        otpSent := true;
        outcome := OtpSent;
      }
    }
  }
}
