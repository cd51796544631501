/** The change-password form on the profile page: its checks and its field resets. */
module ProfilePage {
  import opened Wrappers
  import opened JsText

  const MismatchMessage := "Passwords do not match"
  const TooShortMessage := "Password must be at least 6 characters"
  const ChangedMessage := "Password would be changed (implement endpoint in backend)"

  /**
   * The checks of `handlePasswordChange`, in order: mismatch, then length. `None`
   * means accepted. The current password is not an input.
   */
  function ValidatePasswordChange(newPassword: string, confirmPassword: string): (r: Option<string>)
    ensures r.None? <==> newPassword == confirmPassword && Utf16Length(newPassword) >= 6
    ensures newPassword != confirmPassword ==> r == Some(MismatchMessage)
    ensures newPassword == confirmPassword && Utf16Length(newPassword) < 6 ==> r == Some(TooShortMessage)
  {
    if newPassword != confirmPassword then Some(MismatchMessage)
    else if Utf16Length(newPassword) < 6 then Some(TooShortMessage)
    else None
  }

  /**
   * The length is `.length`, in UTF-16 code units: three emoji are six units and
   * pass, while five plain letters do not.
   */
  lemma LengthCountsCodeUnits()
    ensures ValidatePasswordChange("\U{1F600}\U{1F600}\U{1F600}", "\U{1F600}\U{1F600}\U{1F600}").None?
    ensures ValidatePasswordChange("abcde", "abcde") == Some(TooShortMessage)
  {
  }

  /** The toast the handler shows. */
  datatype ChangeOutcome = Rejected(message: string) | Accepted(message: string)

  class PasswordChangeForm {
    var currentPassword: string
    var newPassword: string
    var confirmPassword: string
    var loading: bool
    /** Every value passed to `setLoading`, in order. */
    ghost var loadingWrites: seq<bool>

    constructor ()
      ensures currentPassword == "" && newPassword == "" && confirmPassword == ""
      ensures !loading && loadingWrites == []
    {
      currentPassword := "";
      newPassword := "";
      confirmPassword := "";
      loading := false;
      loadingWrites := [];
    }

    method SetCurrentPassword(v: string)
      modifies this`currentPassword
      ensures currentPassword == v
    {
      currentPassword := v;
    }

    method SetNewPassword(v: string)
      modifies this`newPassword
      ensures newPassword == v
    {
      newPassword := v;
    }

    method SetConfirmPassword(v: string)
      modifies this`confirmPassword
      ensures confirmPassword == v
    {
      confirmPassword := v;
    }

    /**
     * `handlePasswordChange`: a rejected change touches no state; an accepted one
     * sets `loading`, clears all three fields, and clears `loading` again.
     */
    method HandlePasswordChange() returns (outcome: ChangeOutcome)
      modifies this
      ensures var check := ValidatePasswordChange(old(newPassword), old(confirmPassword));
        if check.Some? then
          && outcome == Rejected(check.value)
          && currentPassword == old(currentPassword)
          && newPassword == old(newPassword)
          && confirmPassword == old(confirmPassword)
          && loading == old(loading)
          && loadingWrites == old(loadingWrites)
        else
          && outcome == Accepted(ChangedMessage)
          && currentPassword == "" && newPassword == "" && confirmPassword == ""
          && !loading
          && loadingWrites == old(loadingWrites) + [true, false]
    {
      if newPassword != confirmPassword {
        return Rejected(MismatchMessage);
      }
      if Utf16Length(newPassword) < 6 {
        return Rejected(TooShortMessage);
      }
      loading := true;
      loadingWrites := loadingWrites + [true];
      outcome := Accepted(ChangedMessage);
      currentPassword := "";
      newPassword := "";
      confirmPassword := "";
      loading := false;
      loadingWrites := loadingWrites + [false];
    }
  }
}
