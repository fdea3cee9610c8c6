/** The password-reset page reached from the recovery e-mail. Without an access token in the
    link it reports an invalid link and shows no form. A submission is validated (match first,
    then length) before the update request; the request's outcome sets the success or error
    message. A submission is split at the request, so `loading` can be observed while it is
    outstanding. The redirects to the login page are navigation and are left out. */
module RecoverAccount {
  import opened Wrappers
  import opened Records

  const InvalidLinkText := "Invalid or expired recovery link"
  const MismatchText := "Passwords do not match"
  const TooShortText := "Password must be at least 8 characters long"
  const SuccessText := "Your password has been successfully reset!"
  const ResetFailedText := "Failed to reset password. Please try again."
  const MinPasswordLength := 8

  /** The validation failure of a submission, if any: a mismatch is reported before the length,
      and the length counts characters. */
  function ValidateReset(password: string, confirmPassword: string): (r: Option<string>)
    ensures password != confirmPassword ==> r == Some(MismatchText)
    ensures password == confirmPassword && |password| < MinPasswordLength ==> r == Some(TooShortText)
    ensures r.None? <==> password == confirmPassword && |password| >= MinPasswordLength
  {
    if password != confirmPassword then Some(MismatchText)
    else if |password| < MinPasswordLength then Some(TooShortText)
    else None
  }

  /** A short password that does not match its confirmation is reported as a mismatch; eight
      characters are enough, seven are not. */
  lemma ValidationBoundary()
    ensures ValidateReset("abc", "abd") == Some(MismatchText)
    ensures ValidateReset("abcdefgh", "abcdefgh").None?
    ensures ValidateReset("abcdefg", "abcdefg") == Some(TooShortText)
  {
  }

  /** The update request: the new password and the link's token. */
  datatype ResetRequest = ResetRequest(password: string, accessToken: Option<string>)

  /** How `updateUser` ended: success, or an error with its (possibly missing) message. */
  datatype ResetReply = ResetSucceeded | ResetFailed(message: Option<string>)

  /** What the page shows besides the two messages. */
  predicate ShowsForm(accessToken: Option<string>) {
    Truthy(accessToken)
  }

  /** The error set on mounting: the invalid-link text for a missing or empty token, else none. */
  function MountError(accessToken: Option<string>): (r: string)
    ensures r == InvalidLinkText <==> !ShowsForm(accessToken)
    ensures r == "" <==> ShowsForm(accessToken)
  {
    if Truthy(accessToken) then "" else InvalidLinkText
  }

  class RecoverPage {
    const accessToken: Option<string>
    var password: string
    var confirmPassword: string
    var loading: bool
    var message: string
    var error: string

    /** Mounting: with a missing or empty token the invalid-link error is set (and no form is
        shown). */
    constructor (token: Option<string>)
      ensures accessToken == token && password == "" && confirmPassword == "" && !loading && message == ""
      ensures error == MountError(token)
      ensures ShowsForm(accessToken) <==> error == ""
    {
      accessToken := token;
      password := "";
      confirmPassword := "";
      loading := false;
      message := "";
      error := MountError(token);
    }

    method SetPassword(text: string)
      modifies this
      ensures password == text && confirmPassword == old(confirmPassword)
      ensures loading == old(loading) && message == old(message) && error == old(error)
    {
      password := text;
    }

    method SetConfirmPassword(text: string)
      modifies this
      ensures confirmPassword == text && password == old(password)
      ensures loading == old(loading) && message == old(message) && error == old(error)
    {
      confirmPassword := text;
    }

    /** The part of `handlePasswordReset` before the request: both messages are cleared; a
        validation failure becomes the error and nothing is requested; otherwise `loading` is on
        and the request carries the password and the token. */
    method BeginReset() returns (request: Option<ResetRequest>)
      modifies this
      ensures message == "" && password == old(password) && confirmPassword == old(confirmPassword)
      ensures request.None? <==> ValidateReset(password, confirmPassword).Some?
      ensures request.None? ==> error == ValidateReset(password, confirmPassword).value && loading == old(loading)
      ensures request.Some? ==> request.value == ResetRequest(password, accessToken) && error == "" && loading
    {
      message := "";
      error := "";
      var invalid := ValidateReset(password, confirmPassword);
      if invalid.Some? {
        error := invalid.value;
        return None;
      }
      loading := true;
      request := Some(ResetRequest(password, accessToken));
    }

    /** The part after the request: success sets the success message, failure the error's own
        message or the fallback text; `loading` is off either way. */
    method FinishReset(reply: ResetReply)
      modifies this
      ensures !loading && password == old(password) && confirmPassword == old(confirmPassword)
      ensures reply.ResetSucceeded? ==> message == SuccessText && error == old(error)
      ensures reply.ResetFailed? ==> error == OrElse(reply.message, ResetFailedText) && message == old(message)
      ensures reply.ResetFailed? ==> error != []
    {
      if reply.ResetSucceeded? {
        message := SuccessText;
      } else {
        error := OrElse(reply.message, ResetFailedText);
      }
      loading := false;
    }
  }
}
