/**
 * The password rule shared by the sign-up form and the account settings page: the two entries must
 * be equal, and the password at least 6 UTF-16 code units long; equality is checked first.
 */
module Passwords {
  import opened Text

  datatype Verdict = Mismatch | TooShort | Acceptable

  function CheckPasswords(password: string, confirmation: string): (v: Verdict)
    ensures v == Mismatch <==> password != confirmation
    ensures v == TooShort <==> password == confirmation && Utf16Length(password) < 6
    ensures v == Acceptable <==> password == confirmation && Utf16Length(password) >= 6
  {
    if password != confirmation then Mismatch
    else if Utf16Length(password) < 6 then TooShort
    else Acceptable
  }

  /** A pair that is both different and short is reported as a mismatch, and six characters are
      always long enough. */
  lemma MismatchComesFirst(password: string, confirmation: string)
    ensures password != confirmation && Utf16Length(password) < 6 ==> CheckPasswords(password, confirmation) == Mismatch
    ensures password == confirmation && |password| >= 6 ==> CheckPasswords(password, confirmation) == Acceptable
  {
  }

  /** The length message both forms show. */
  const TooShortMessage := "Password must be at least 6 characters long"
}
