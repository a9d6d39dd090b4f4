/** The password-reset dialog's one rule. */
module ResetPassword {

  const MinPasswordLength: nat := 6

  /** The submit button is disabled while saving or while the password is shorter than six characters. */
  function ResetSubmitDisabled(loading: bool, newPassword: string): (disabled: bool)
    ensures disabled <==> loading || |newPassword| < MinPasswordLength
  {
    loading || |newPassword| < MinPasswordLength
  }
}
