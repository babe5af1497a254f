/**
 * The password-reset form: the password rule, the order of its checks, the
 * request it sends and the state it shows afterwards.
 */
module ResetPassword {

  import opened Js

  const RequiredMessage := "All fields are required"
  const RuleMessage := "Password must be at least 8 characters, include 1 uppercase letter and 1 number"
  const MismatchMessage := "Passwords do not match"
  const SuccessMessage := "Password has been reset successfully!"
  const FailureFallback := "Password reset failed"

  predicate IsUpper(c: char) { 'A' <= c <= 'Z' }

  predicate IsDigit(c: char) { '0' <= c <= '9' }

  /** The characters a regular expression's `.` does not match. */
  predicate IsLineTerminator(c: char)
  {
    c == '\n' || c == '\r' || c == '\U{2028}' || c == '\U{2029}'
  }

  /** Whether some character of `s` satisfies `p`, by a scan from the left. */
  function Contains(s: string, p: char -> bool): (b: bool)
    ensures b <==> exists i :: 0 <= i < |s| && p(s[i])
  {
    if s == [] then false
    else
      if p(s[0]) then true
      else
        var b := Contains(s[1..], p);
        assert forall i :: 1 <= i < |s| ==> s[i] == s[1..][i - 1];
        b
  }

  /**
   * `/^(?=.*[A-Z])(?=.*\d).{8,}$/.test(pwd)`: at least eight UTF-16 code
   * units (the pattern has no `u` flag, so `.` matches each half of a
   * surrogate pair), none of them a line terminator, at least one A-Z and
   * one 0-9.
   */
  function ValidatePassword(pwd: string): (ok: bool)
    ensures ok <==> Utf16Length(pwd) >= 8
                    && (forall i :: 0 <= i < |pwd| ==> !IsLineTerminator(pwd[i]))
                    && (exists i :: 0 <= i < |pwd| && IsUpper(pwd[i]))
                    && (exists i :: 0 <= i < |pwd| && IsDigit(pwd[i]))
  {
    Utf16Length(pwd) >= 8 && !Contains(pwd, IsLineTerminator) && Contains(pwd, IsUpper) && Contains(pwd, IsDigit)
  }

  /** Seven characters pass the length rule when one of them lies above U+FFFF. */
  lemma AstralCharCountsTwice(pwd: string)
    requires pwd == "Abcde1\U{1F600}"
    ensures |pwd| == 7 && Utf16Length(pwd) == 8
    ensures ValidatePassword(pwd)
  {
    assert pwd[6] > '\U{FFFF}';
    assert Utf16Length(pwd[6..]) == 2;
    Utf16LengthBmp(pwd[..6]);
    assert pwd == pwd[..6] + pwd[6..];
    Utf16LengthConcat(pwd[..6], pwd[6..]);
    assert IsUpper(pwd[0]) && IsDigit(pwd[5]);
    forall i | 0 <= i < |pwd| ensures !IsLineTerminator(pwd[i]) {
      assert pwd[i] in {'A', 'b', 'c', 'd', 'e', '1', '\U{1F600}'};
    }
  }

  /** The result of the checks `handleSubmit` runs before sending anything. */
  datatype Check = Passed | Rejected(message: string)

  /**
   * Required fields first (a blank field fails), then the rule on the
   * password as typed, then the match; the first failure decides the message.
   */
  function ValidateForm(email: string, username: string, password: string, confirm: string): (c: Check)
    ensures c.Passed? <==> !AllWhitespace(email) && !AllWhitespace(username) && !AllWhitespace(password)
                           && !AllWhitespace(confirm) && ValidatePassword(password) && password == confirm
    ensures (AllWhitespace(email) || AllWhitespace(username) || AllWhitespace(password) || AllWhitespace(confirm))
            ==> c == Rejected(RequiredMessage)
    ensures (!AllWhitespace(email) && !AllWhitespace(username) && !AllWhitespace(password) && !AllWhitespace(confirm)
             && !ValidatePassword(password)) ==> c == Rejected(RuleMessage)
    ensures (!AllWhitespace(email) && !AllWhitespace(username) && !AllWhitespace(password) && !AllWhitespace(confirm)
             && ValidatePassword(password) && password != confirm) ==> c == Rejected(MismatchMessage)
  {
    TrimEmptyIff(email);
    TrimEmptyIff(username);
    TrimEmptyIff(password);
    TrimEmptyIff(confirm);
    if Trim(email) == "" || Trim(username) == "" || Trim(password) == "" || Trim(confirm) == "" then
      Rejected(RequiredMessage)
    else if !ValidatePassword(password) then Rejected(RuleMessage)
    else if password != confirm then Rejected(MismatchMessage)
    else Passed
  }

  /** The inline hint under the confirmation field. */
  function ShowMismatchHint(password: string, confirm: string): (b: bool)
    ensures confirm == "" || password == confirm ==> !b
    ensures confirm != "" && password != confirm ==> b
  {
    confirm != "" && password != confirm
  }

  /** The hint never shows while the confirmation is empty, and shows for every other mismatch. */
  lemma MismatchHintAgreesWithCheck(email: string, username: string, password: string, confirm: string)
    requires ValidateForm(email, username, password, confirm) == Rejected(MismatchMessage)
    ensures ShowMismatchHint(password, confirm)
  {
  }

  /** The body of `POST /api/reset-password`. */
  datatype ResetRequest = ResetRequest(email: string, username: string, password: string)

  /** The request's answer (`response.ok`, `data.status`, `data.message`), or a request or parse that threw. */
  datatype ResetResponse = Answered(ok: bool, status: string, message: Option<string>) | Thrown(error: string)

  /** The error shown for an answer, or None when the reset succeeded. */
  function FailureMessage(resp: ResetResponse): (m: Option<string>)
    ensures m.None? <==> resp.Answered? && resp.ok && resp.status == "success"
    ensures resp.Answered? && m.Some? ==> m.value == OrDefault(resp.message, FailureFallback) && m.value != ""
    ensures resp.Thrown? ==> m == Some(resp.error)
  {
    match resp
    case Answered(ok, status, message) =>
      if !ok || status != "success" then Some(OrDefault(message, FailureFallback)) else None
    case Thrown(error) => Some(error)
  }

  /**
   * The rule is checked on the password as typed but the trimmed password is
   * sent, so a space-padded seven-character password passes every check and
   * what reaches the server breaks the rule.
   */
  lemma SentPasswordMayBreakRule(email: string, username: string, padded: string)
    requires email == "a@b.c" && username == "ann" && padded == " Abcdef1"
    ensures ValidateForm(email, username, padded, padded).Passed?
    ensures Trim(padded) == "Abcdef1" && !ValidatePassword(Trim(padded))
  {
    PaddedPasswordPassesRule(padded);
    assert !IsWhitespace(email[0]) && !IsWhitespace(username[0]) && !IsWhitespace(padded[1]);
    PaddedPasswordTrims(padded);
    Utf16LengthBmp(Trim(padded));
  }

  lemma PaddedPasswordTrims(padded: string)
    requires padded == " Abcdef1"
    ensures Trim(padded) == "Abcdef1"
  {
    var t := padded[1..];
    assert t == "Abcdef1";
    assert TrimStart(t) == t;
    assert TrimStart(padded) == t;
    assert TrimEnd(t) == t;
  }

  lemma PaddedPasswordPassesRule(padded: string)
    requires padded == " Abcdef1"
    ensures ValidatePassword(padded)
  {
    assert IsUpper(padded[1]) && IsDigit(padded[7]);
    forall i | 0 <= i < |padded| ensures !IsLineTerminator(padded[i]) && padded[i] <= '\U{FFFF}' {
      assert padded[i] in {' ', 'A', 'b', 'c', 'd', 'e', 'f', '1'};
    }
    Utf16LengthBmp(padded);
  }

  /** The form's state. */
  class ResetForm {
    var email: string
    var username: string
    var password: string
    var confirmPassword: string
    var error: string
    var success: string
    var isLoading: bool

    constructor ()
      ensures email == "" && username == "" && password == "" && confirmPassword == ""
      ensures error == "" && success == "" && !isLoading
    {
      email, username, password, confirmPassword := "", "", "", "";
      error, success := "", "";
      isLoading := false;
    }

    /**
     * `handleSubmit` up to the request: both messages are cleared; the first
     * failing check sets its message and sends nothing; otherwise the trimmed
     * values are sent and the form is loading.
     */
    method Submit() returns (request: Option<ResetRequest>)
      modifies this
      ensures email == old(email) && username == old(username)
      ensures password == old(password) && confirmPassword == old(confirmPassword)
      ensures success == ""
      ensures request.None? <==> ValidateForm(email, username, password, confirmPassword).Rejected?
      ensures request.None? ==>
                error == ValidateForm(email, username, password, confirmPassword).message
                && isLoading == old(isLoading)
      ensures request.Some? ==>
                error == "" && isLoading
                && request.value == ResetRequest(Trim(email), Trim(username), Trim(password))
    {
      error := "";
      success := "";
      var check := ValidateForm(email, username, password, confirmPassword);
      if check.Rejected? {
        error := check.message;
        return None;
      }
      isLoading := true;
      request := Some(ResetRequest(Trim(email), Trim(username), Trim(password)));
    }

    /**
     * The request settling: success clears the four fields and shows the
     * success message (and the page later goes to `/login`); failure shows the
     * error. Either way the form stops loading.
     */
    method Complete(resp: ResetResponse) returns (goToLogin: bool)
      modifies this
      ensures !isLoading
      ensures goToLogin <==> FailureMessage(resp).None?
      ensures goToLogin ==>
                email == "" && username == "" && password == "" && confirmPassword == ""
                && success == SuccessMessage && error == old(error)
      ensures !goToLogin ==>
                email == old(email) && username == old(username) && password == old(password)
                && confirmPassword == old(confirmPassword)
                && success == old(success) && error == FailureMessage(resp).value
    {
      var failure := FailureMessage(resp);
      goToLogin := failure.None?;
      if goToLogin {
        success := SuccessMessage;
        email, username, password, confirmPassword := "", "", "", "";
      } else {
        error := failure.value;
      }
      isLoading := false;
    }
  }
}
