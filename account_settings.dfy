/**
 * The account settings page: the profile form filled from the `users` row, and the password change,
 * which checks the two new entries before asking the authentication service for the update.
 */
module AccountSettings {
  import opened Wrappers
  import opened Text
  import opened Passwords

  /** The `users` row as fetched; any column may be null. */
  datatype ProfileRow = ProfileRow(firstName: Option<string>, lastName: Option<string>,
                                   email: Option<string>, mobile: Option<string>)

  datatype ProfileForm = ProfileForm(firstName: string, lastName: string, email: string, mobile: string)

  datatype PasswordForm = PasswordForm(currentPassword: string, newPassword: string, confirmPassword: string)

  const MismatchMessage := "New passwords do not match"
  const UpdatedMessage := "Password updated successfully!"
  const FailedMessage := "Failed to update password. Please try again."

  /** The profile form for a fetched row: each column as it is, a null or empty one as "". */
  function ProfileFields(row: ProfileRow): (r: ProfileForm)
    ensures row.firstName.Some? ==> r.firstName == row.firstName.value
    ensures row.firstName.None? ==> r.firstName == ""
    ensures row.lastName.Some? ==> r.lastName == row.lastName.value
    ensures row.lastName.None? ==> r.lastName == ""
    ensures row.email.Some? ==> r.email == row.email.value
    ensures row.email.None? ==> r.email == ""
    ensures row.mobile.Some? ==> r.mobile == row.mobile.value
    ensures row.mobile.None? ==> r.mobile == ""
  {
    ProfileForm(OrElse(row.firstName, ""), OrElse(row.lastName, ""), OrElse(row.email, ""), OrElse(row.mobile, ""))
  }

  /** The alert a password change ends with. */
  function PasswordAlert(form: PasswordForm, updateOk: bool): (r: string)
    ensures r == UpdatedMessage <==> CheckPasswords(form.newPassword, form.confirmPassword) == Acceptable && updateOk
    ensures CheckPasswords(form.newPassword, form.confirmPassword) == Mismatch ==> r == MismatchMessage
    ensures CheckPasswords(form.newPassword, form.confirmPassword) == TooShort ==> r == TooShortMessage
    ensures CheckPasswords(form.newPassword, form.confirmPassword) == Acceptable && !updateOk ==> r == FailedMessage
  {
    match CheckPasswords(form.newPassword, form.confirmPassword)
    case Mismatch => MismatchMessage
    case TooShort => TooShortMessage
    case Acceptable => if updateOk then UpdatedMessage else FailedMessage
  }

  /** The current-password entry never affects the outcome. */
  lemma CurrentPasswordIgnored(form: PasswordForm, other: string, updateOk: bool)
    ensures PasswordAlert(form.(currentPassword := other), updateOk) == PasswordAlert(form, updateOk)
  {
  }

  class SettingsPage {
    var formData: ProfileForm
    var passwordData: PasswordForm
    var loading: bool
    var passwordLoading: bool
    /** The passwords sent to `auth.updateUser`, oldest first. */
    var passwordUpdates: seq<string>

    constructor()
      ensures formData == ProfileForm("", "", "", "")
      ensures passwordData == PasswordForm("", "", "")
      ensures !loading && !passwordLoading && passwordUpdates == []
    {
      formData := ProfileForm("", "", "", "");
      passwordData := PasswordForm("", "", "");
      loading := false;
      passwordLoading := false;
      passwordUpdates := [];
    }

    /** `fetchUserProfile`: fill the form from the row; a failed read leaves the form as it was. */
    method FetchUserProfile(row: Option<ProfileRow>)
      modifies this
      ensures row.Some? ==> formData == ProfileFields(row.value)
      ensures row.None? ==> formData == old(formData)
      ensures passwordData == old(passwordData) && passwordUpdates == old(passwordUpdates)
      ensures loading == old(loading) && passwordLoading == old(passwordLoading)
    {
      if row.Some? {
        formData := ProfileFields(row.value);
      }
    }

    /** `handlePasswordChange`: stop on mismatched or short new entries; otherwise send only the new
        password, and empty the three entries once the update succeeds. */
    method HandlePasswordChange(updateOk: bool) returns (alert: string)
      modifies this
      ensures alert == PasswordAlert(old(passwordData), updateOk)
      ensures formData == old(formData) && loading == old(loading)
      ensures CheckPasswords(old(passwordData).newPassword, old(passwordData).confirmPassword) != Acceptable ==>
        passwordUpdates == old(passwordUpdates) && passwordData == old(passwordData)
        && passwordLoading == old(passwordLoading)
      ensures CheckPasswords(old(passwordData).newPassword, old(passwordData).confirmPassword) == Acceptable ==>
        && passwordUpdates == old(passwordUpdates) + [old(passwordData).newPassword]
        && passwordData == (if updateOk then PasswordForm("", "", "") else old(passwordData))
        && !passwordLoading
    {
      var verdict := CheckPasswords(passwordData.newPassword, passwordData.confirmPassword);
      if verdict == Mismatch {
        return MismatchMessage;
      }
      if verdict == TooShort {
        return TooShortMessage;
      }
      passwordLoading := true;
      passwordUpdates := passwordUpdates + [passwordData.newPassword];
      if updateOk {
        alert := UpdatedMessage;
        passwordData := PasswordForm("", "", "");
      } else {
        alert := FailedMessage;
      }
      passwordLoading := false;
    }
  }
}
