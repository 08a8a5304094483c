/** `ResetPasswordForm`: a new password for the account whose reset link
    carried `token`. */
module ResetPassword {
  import opened Wrappers
  import opened Strings

  datatype ResetValues = ResetValues(newPassword: string, confirmPassword: string)

  /** `resetPasswordSchema` */
  predicate Valid(v: ResetValues) {
    |v.newPassword| >= 8 && v.newPassword == v.confirmPassword
  }

  /** The refinement's issue path for a mismatch. */
  function MismatchPath(v: ResetValues): (r: Option<string>)
    ensures r.Some? <==> v.newPassword != v.confirmPassword
    ensures r.Some? ==> r.value == "confirmPassword"
  {
    if v.newPassword != v.confirmPassword then Some("confirmPassword") else None
  }

  /** `!token || Boolean(error)`, from the `token` and `error` query parameters. */
  predicate IsTokenInvalid(token: Option<string>, error: Option<string>) {
    !Truthy(token) || Truthy(error)
  }

  /** `disabled={isPending || isTokenInvalid}` */
  predicate SubmitDisabled(isPending: bool, token: Option<string>, error: Option<string>) {
    isPending || IsTokenInvalid(token, error)
  }

  /** What `onSubmit` does. */
  datatype SubmitEffect =
    | ToastError(message: string)                       // the token guard
    | ResetPasswordCall(newPassword: string, token: string)  // `authClient.resetPassword`

  /** `onSubmit(values)` */
  function OnSubmit(token: Option<string>, v: ResetValues): (r: SubmitEffect)
    // resetPassword is called exactly when there is a token, with that token and the new password.
    ensures r.ResetPasswordCall? <==> Truthy(token)
    ensures r.ResetPasswordCall? ==> r == ResetPasswordCall(v.newPassword, token.value)
    ensures r.ToastError? ==> r.message == "Reset token is missing or invalid."
  {
    if !Truthy(token) then ToastError("Reset token is missing or invalid.")
    else ResetPasswordCall(v.newPassword, token.value)
  }

  /** `form.handleSubmit(onSubmit)`: values the schema refuses never reach
      `onSubmit`; so a reset request always carries a password of at least 8
      characters that the confirmation repeats. */
  function HandleSubmit(token: Option<string>, v: ResetValues): (r: Option<SubmitEffect>)
    ensures r.Some? <==> Valid(v)
    ensures r.Some? ==> (r.value.ResetPasswordCall? <==> Truthy(token))
    ensures r.Some? && r.value.ResetPasswordCall? ==>
              |r.value.newPassword| >= 8 && r.value.newPassword == v.confirmPassword && r.value.token == token.value
  {
    if Valid(v) then Some(OnSubmit(token, v)) else None
  }

  /** The button is enabled only when `onSubmit` would call resetPassword; an
      `error` parameter disables it even when a token is present. */
  lemma EnabledButtonResets(isPending: bool, token: Option<string>, error: Option<string>, v: ResetValues)
    ensures !SubmitDisabled(isPending, token, error) ==> OnSubmit(token, v).ResetPasswordCall?
    ensures Truthy(error) ==> SubmitDisabled(isPending, token, error)
    ensures SubmitDisabled(isPending, token, error) <==> isPending || !Truthy(token) || Truthy(error)
  {
  }
}
