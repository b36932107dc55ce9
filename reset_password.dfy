/** The reset-password page's logic: the password validators, the strength
    meter, the requirements checklist, the form-validity rule, the field
    handler and the submit guards with the message chosen from the reset
    API's answer. The API, the query-string lookup and the redirect timer
    are inputs or left out. */
module ResetPassword {
  import opened Wrappers

  const MinLength := 6
  const StrongLength := 8

  /** `validatePassword`: at least six characters. */
  predicate ValidatePassword(p: string)
  {
    |p| >= MinLength
  }

  /** The character classes of the page's regular expressions. */
  predicate IsAsciiUpper(c: char) { 'A' <= c <= 'Z' }
  predicate IsAsciiDigit(c: char) { '0' <= c <= '9' }
  predicate IsSpecial(c: char)
  {
    c == '!' || c == '@' || c == '#' || c == '$' || c == '%' || c == '^' || c == '&' || c == '*'
  }

  /** `/[A-Z]/.test(p)`, `/[0-9]/.test(p)`, `/[!@#$%^&*]/.test(p)`. */
  predicate HasUpper(p: string) { exists i :: 0 <= i < |p| && IsAsciiUpper(p[i]) }
  predicate HasDigit(p: string) { exists i :: 0 <= i < |p| && IsAsciiDigit(p[i]) }
  predicate HasSpecial(p: string) { exists i :: 0 <= i < |p| && IsSpecial(p[i]) }

  datatype Strength = Strength(level: nat, text: string)

  /** `getPasswordStrength`. */
  function PasswordStrength(p: string): (r: Strength)
    ensures r.level <= 4
    ensures r.text == ["", "Too short", "Weak", "Good", "Strong"][r.level]
  {
    if |p| == 0 then Strength(0, "")
    else if |p| < MinLength then Strength(1, "Too short")
    else if |p| < StrongLength then Strength(2, "Weak")
    else if HasUpper(p) && HasDigit(p) && HasSpecial(p) then Strength(4, "Strong")
    else if HasUpper(p) && HasDigit(p) then Strength(3, "Good")
    else Strength(2, "Weak")
  }

  /** The meter by length: 0 exactly for the empty password, 1 exactly for
      one to five characters, and 2 for six or seven whatever they are. */
  lemma StrengthByLength(p: string)
    ensures PasswordStrength(p).level == 0 <==> |p| == 0
    ensures PasswordStrength(p).level == 1 <==> 1 <= |p| <= 5
    ensures 6 <= |p| <= 7 ==> PasswordStrength(p).level == 2
  {
  }

  /** From eight characters on the content decides: 4 with an upper-case
      letter, a digit and a special character; 3 with the first two only;
      2 otherwise. */
  lemma StrengthByContent(p: string)
    requires |p| >= StrongLength
    ensures PasswordStrength(p).level == 4 <==> HasUpper(p) && HasDigit(p) && HasSpecial(p)
    ensures PasswordStrength(p).level == 3 <==> HasUpper(p) && HasDigit(p) && !HasSpecial(p)
    ensures PasswordStrength(p).level == 2 <==> !(HasUpper(p) && HasDigit(p))
  {
  }

  /** The meter shows at least "Weak" exactly when the password is valid. */
  lemma StrengthAtLeastWeakIffValid(p: string)
    ensures PasswordStrength(p).level >= 2 <==> ValidatePassword(p)
  {
  }

  /** A password of eight characters with an upper-case letter, a digit and
      no special character, rated "Good". */
  lemma GoodWithoutSpecial()
    ensures PasswordStrength("Abcdefg1") == Strength(3, "Good")
  {
    assert "Abcdefg1"[0] == 'A';
    assert "Abcdefg1"[7] == '1';
    assert !HasSpecial("Abcdefg1") by {
      forall i | 0 <= i < 8 ensures !IsSpecial("Abcdefg1"[i]) {
      }
    }
  }

  datatype Requirement = Requirement(text: string, met: bool)

  /** `passwordRequirements`: the checklist under the field. */
  function PasswordRequirements(p: string): (r: seq<Requirement>)
    ensures |r| == 5
    ensures r[0].met <==> ValidatePassword(p)
    ensures r[1].met <==> |p| >= StrongLength
    ensures r[2].met <==> HasUpper(p)
    ensures r[3].met <==> HasDigit(p)
    ensures r[4].met <==> HasSpecial(p)
  {
    [ Requirement("At least 6 characters", |p| >= MinLength),
      Requirement("8+ characters for better security", |p| >= StrongLength),
      Requirement("Includes uppercase letter", HasUpper(p)),
      Requirement("Includes number", HasDigit(p)),
      Requirement("Includes special character", HasSpecial(p)) ]
  }

  /** "Strong" is the same as a fully ticked checklist. */
  lemma StrongIffAllRequirementsMet(p: string)
    ensures PasswordStrength(p).level == 4 <==>
            forall i :: 0 <= i < |PasswordRequirements(p)| ==> PasswordRequirements(p)[i].met
  {
    var r := PasswordRequirements(p);
    if forall i :: 0 <= i < |r| ==> r[i].met {
      assert r[1].met && r[2].met && r[3].met && r[4].met;
    }
  }

  /** The two password fields. */
  datatype FormData = FormData(newPassword: string, confirmPassword: string)

  const EmptyForm := FormData("", "")

  datatype PasswordField = NewPassword | ConfirmPassword

  /** Which fields the user has typed in. */
  datatype Touched = Touched(newPassword: bool, confirmPassword: bool)

  const Untouched := Touched(false, false)

  /** `passwordsMatch`. */
  predicate PasswordsMatch(f: FormData)
  {
    f.newPassword == f.confirmPassword
  }

  /** `isFormValid`, whose last conjunct is the truthiness of the
      confirmation string. */
  predicate IsFormValid(f: FormData)
  {
    ValidatePassword(f.newPassword) && PasswordsMatch(f) && f.confirmPassword != ""
  }

  /** The non-empty-confirmation conjunct adds nothing: a valid new password
      that the confirmation matches is never empty. */
  lemma IsFormValidIff(f: FormData)
    ensures IsFormValid(f) <==> |f.newPassword| >= 6 && f.newPassword == f.confirmPassword
  {
    if |f.newPassword| >= 6 && f.newPassword == f.confirmPassword {
      assert |f.confirmPassword| >= 6;
    }
  }

  /** The `token` query parameter is truthy: present and non-empty. */
  predicate TokenPresent(token: Option<string>)
  {
    token.Some? && token.value != ""
  }

  /** The submit button is enabled (`disabled={loading || !isFormValid || !token}`). */
  predicate SubmitEnabled(loading: bool, f: FormData, token: Option<string>)
  {
    !loading && IsFormValid(f) && TokenPresent(token)
  }

  datatype MessageKind = NoKind | Error | Success

  /** The banner above the form. */
  datatype Message = Message(text: string, kind: MessageKind)

  const NoMessage := Message("", NoKind)

  const InvalidLinkText := "Invalid or expired reset link. Please request a new password reset."
  const MismatchText := "Passwords do not match. Please make sure both passwords are identical."
  const TooShortText := "Password must be at least 6 characters long."
  const SuccessText := "Password reset successfully! Redirecting to login..."

  /** The guards of `handleSubmit`, in order: a missing token, then a
      mismatch, then a short password. `None` when all three pass. */
  function SubmitGuard(token: Option<string>, f: FormData): (r: Option<string>)
    ensures r == None <==> TokenPresent(token) && PasswordsMatch(f) && ValidatePassword(f.newPassword)
    ensures r == Some(InvalidLinkText) <==> !TokenPresent(token)
    ensures r == Some(MismatchText) <==> TokenPresent(token) && !PasswordsMatch(f)
    ensures r == Some(TooShortText) <==> TokenPresent(token) && PasswordsMatch(f) && !ValidatePassword(f.newPassword)
  {
    if !TokenPresent(token) then Some(InvalidLinkText)
    else if !PasswordsMatch(f) then Some(MismatchText)
    else if !ValidatePassword(f.newPassword) then Some(TooShortText)
    else None
  }

  /** An enabled submit button always gets past the guards to the API. */
  lemma EnabledSubmitReachesApi(loading: bool, f: FormData, token: Option<string>)
    requires SubmitEnabled(loading, f, token)
    ensures SubmitGuard(token, f) == None
  {
  }

  /** What the reset API answers: success, or an error with the response's
      HTTP status and its `data.message`, either of which may be missing. */
  datatype ApiResult = ResetOk | ResetFailed(status: Option<int>, serverMessage: Option<string>)

  const FailurePrefix := "Failed to reset password. "

  /** The message shown for a failed reset: the server's own message when it
      sent a non-empty one, else the fixed prefix with a suffix chosen by
      the status. */
  function FailureText(status: Option<int>, serverMessage: Option<string>): (t: string)
    ensures serverMessage.Some? && serverMessage.value != "" ==> t == serverMessage.value
    ensures !(serverMessage.Some? && serverMessage.value != "") ==>
              t == FailurePrefix + (if status == Some(400) then "The link may have expired or is invalid."
                                    else if status == Some(401) then "Invalid or expired reset token."
                                    else "Please try again.")
  {
    var composed := FailurePrefix +
      (if status == Some(400) then "The link may have expired or is invalid."
       else if status == Some(401) then "Invalid or expired reset token."
       else "Please try again.");
    match serverMessage
    case Some(m) => if m != "" then m else composed
    case None => composed
  }

  /** The failure text never comes out empty, so the banner always shows. */
  lemma FailureTextShown(status: Option<int>, serverMessage: Option<string>)
    ensures FailureText(status, serverMessage) != ""
  {
    var t := FailureText(status, serverMessage);
    if !(serverMessage.Some? && serverMessage.value != "") {
      assert t[0] == 'F';
    }
  }

  /** The page state. */
  class ResetPasswordPage {
    const token: Option<string>
    var form: FormData
    var touched: Touched
    var message: Message
    var loading: bool

    constructor (token: Option<string>)
      ensures this.token == token
      ensures form == EmptyForm && touched == Untouched && message == NoMessage && !loading
    {
      this.token := token;
      form := EmptyForm;
      touched := Untouched;
      message := NoMessage;
      loading := false;
    }

    /** The `passwordStrength` the page renders. */
    function CurrentStrength(): Strength
      reads this
    {
      PasswordStrength(form.newPassword)
    }

    /** `handleInputChange(field, value)`: the field takes the value and is
        marked touched, the other field is left alone, and a shown message
        is cleared. */
    method HandleInputChange(field: PasswordField, value: string)
      modifies this
      ensures form == (if field == NewPassword then old(form).(newPassword := value)
                       else old(form).(confirmPassword := value))
      ensures touched == (if field == NewPassword then old(touched).(newPassword := true)
                          else old(touched).(confirmPassword := true))
      ensures message == if old(message).text != "" then NoMessage else old(message)
      ensures loading == old(loading)
    {
      if field == NewPassword {
        form := form.(newPassword := value);
        touched := touched.(newPassword := true);
      } else {
        form := form.(confirmPassword := value);
        touched := touched.(confirmPassword := true);
      }
      if message.text != "" {
        message := NoMessage;
      }
    }

    /** `handleSubmit`. The guards run in order and return early; only when
        all pass is the API consulted, and `response` is what it answers.
        `apiCalled` says whether the API was reached, `redirect` whether the
        delayed redirect to the login page is scheduled. Loading ends false
        on every path. */
    method HandleSubmit(response: ApiResult) returns (apiCalled: bool, redirect: bool)
      modifies this
      ensures apiCalled <==> SubmitGuard(token, old(form)) == None
      ensures redirect <==> apiCalled && response == ResetOk
      ensures !apiCalled ==> message == Message(SubmitGuard(token, old(form)).value, Error)
      ensures apiCalled && response.ResetOk? ==> message == Message(SuccessText, Success)
      ensures apiCalled && response.ResetFailed? ==>
                message == Message(FailureText(response.status, response.serverMessage), Error)
      ensures form == (if redirect then EmptyForm else old(form))
      ensures touched == (if redirect then Untouched else old(touched))
      ensures !loading
    {
      message := NoMessage;
      loading := true;
      apiCalled, redirect := false, false;

      if !TokenPresent(token) {
        message := Message(InvalidLinkText, Error);
        loading := false;
        return;
      }
      if !PasswordsMatch(form) {
        message := Message(MismatchText, Error);
        loading := false;
        return;
      }
      if !ValidatePassword(form.newPassword) {
        message := Message(TooShortText, Error);
        loading := false;
        return;
      }

      apiCalled := true;
      match response {
        case ResetOk =>
          message := Message(SuccessText, Success);
          form := EmptyForm;
          touched := Untouched;
          redirect := true;
        case ResetFailed(status, serverMessage) =>
          message := Message(FailureText(status, serverMessage), Error);
      }
      loading := false;
    }
  }
}
