/**
 * The sign-up form's submit handler: it checks the two password entries and only then asks the
 * authentication service to create the account.
 */
module SignUp {
  import opened Wrappers
  import opened Passwords

  /** What `signUp` is called with. */
  datatype Request = Request(email: string, password: string, firstName: string, lastName: string)

  /** How the authentication service answers: with an error (carrying its message, possibly empty)
      or without, and with or without a created user; or the call itself fails. */
  datatype Reply = Answered(error: Option<string>, hasUser: bool) | Unreachable

  const MismatchMessage := "Passwords do not match"
  const FallbackMessage := "Failed to create account"
  const ConnectionMessage := "Unable to connect to authentication service. Please check your internet connection."

  /** The error text left on the form after the service has answered; empty when the account was
      created. */
  function ReplyError(reply: Reply): (r: string)
    ensures r == "" <==> reply.Answered? && reply.error.None? && reply.hasUser
    ensures reply.Answered? && reply.error.Some? && reply.error.value != "" ==> r == reply.error.value
    ensures reply.Answered? && (reply.error.None? || reply.error.value == "") && !reply.hasUser ==> r == FallbackMessage
    ensures reply.Answered? && reply.error == Some("") ==> r == FallbackMessage
    ensures reply.Unreachable? ==> r == ConnectionMessage
  {
    match reply
    case Unreachable => ConnectionMessage
    case Answered(error, hasUser) =>
      if error.Some? || !hasUser then
        (if error.Some? && error.value != "" then error.value else FallbackMessage)
      else ""
  }

  class SignUpForm {
    var firstName: string
    var lastName: string
    var email: string
    var password: string
    var confirmPassword: string
    var error: string
    var loading: bool
    /** The calls made to `signUp`, oldest first. */
    var requests: seq<Request>
    /** Set once the form has sent the visitor on to their account. */
    var navigated: bool

    constructor()
      ensures firstName == lastName == email == password == confirmPassword == error == ""
      ensures !loading && requests == [] && !navigated
    {
      firstName, lastName, email, password, confirmPassword := "", "", "", "", "";
      error := "";
      loading := false;
      requests := [];
      navigated := false;
    }

    /** `handleSubmit`: clear the error, stop at the first failing password check, otherwise call
        `signUp` once and show its error or move on to the account page. */
    method HandleSubmit(reply: Reply)
      modifies this
      ensures firstName == old(firstName) && lastName == old(lastName) && email == old(email)
      ensures password == old(password) && confirmPassword == old(confirmPassword)
      ensures CheckPasswords(password, confirmPassword) != Acceptable ==> loading == old(loading)
      ensures CheckPasswords(password, confirmPassword) == Mismatch ==>
        error == MismatchMessage && requests == old(requests) && navigated == old(navigated)
      ensures CheckPasswords(password, confirmPassword) == TooShort ==>
        error == TooShortMessage && requests == old(requests) && navigated == old(navigated)
      ensures CheckPasswords(password, confirmPassword) == Acceptable ==>
        && requests == old(requests) + [Request(email, password, firstName, lastName)]
        && error == ReplyError(reply)
        && !loading
        && navigated == (old(navigated) || error == "")
    {
      error := "";
      var verdict := CheckPasswords(password, confirmPassword);
      if verdict == Mismatch {
        error := MismatchMessage;
        return;
      }
      if verdict == TooShort {
        error := TooShortMessage;
        return;
      }
      loading := true;
      requests := requests + [Request(email, password, firstName, lastName)];
      error := ReplyError(reply);
      if error == "" {
        navigated := true;
      }
      loading := false;
    }
  }
}
