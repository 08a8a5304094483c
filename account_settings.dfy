/** `AccountSettings`: the change-password form, the avatar fallback text and
    the account deletion flag. */
module AccountSettings {
  import opened Wrappers
  import opened Strings

  datatype ChangePasswordValues = ChangePasswordValues(
    currentPassword: string,
    newPassword: string,
    confirmPassword: string,
    revokeOtherSessions: bool)

  /** A validation message attached to a form field. */
  datatype Issue = Issue(path: string, message: string)

  const MinPasswordLength := 8

  /** `changePasswordSchema`: the field rules and the equality refinement. */
  predicate Valid(v: ChangePasswordValues) {
    |v.currentPassword| >= 1 && |v.newPassword| >= MinPasswordLength && v.newPassword == v.confirmPassword
  }

  /** The refinement's issue: a mismatch is reported on `confirmPassword`. */
  function MismatchIssue(v: ChangePasswordValues): (r: Option<Issue>)
    ensures r.Some? <==> v.newPassword != v.confirmPassword
    ensures r.Some? ==> r.value == Issue("confirmPassword", "Passwords do not match")
  {
    if v.newPassword != v.confirmPassword then Some(Issue("confirmPassword", "Passwords do not match")) else None
  }

  /** Values that pass the field rules are valid exactly when the refinement reports nothing. */
  lemma ValidIffNoMismatch(v: ChangePasswordValues)
    requires |v.currentPassword| >= 1 && |v.newPassword| >= MinPasswordLength
    ensures Valid(v) <==> MismatchIssue(v).None?
  {
  }

  const Defaults := ChangePasswordValues("", "", "", true)

  /** The defaults revoke other sessions and cannot be submitted as they are. */
  lemma DefaultsNotSubmittable()
    ensures Defaults.revokeOtherSessions && !Valid(Defaults)
  {
  }

  /** `(user.name ?? user.email).slice(0, 2).toUpperCase()` */
  function AvatarFallback(name: Option<string>, email: string): (r: string)
    ensures var shown := Coalesce(name, email);
      |r| == (if |shown| <= 2 then |shown| else 2)
      && forall i :: 0 <= i < |r| ==> r[i] == UpperChar(shown[i])
  {
    ToUpper(Take(Coalesce(name, email), 2))
  }

  /** `??` falls back only on an absent name: an empty name gives an empty
      fallback rather than the email's initials. */
  lemma EmptyNameShowsNothing(email: string)
    ensures AvatarFallback(Some(""), email) == ""
    ensures |email| >= 2 ==> |AvatarFallback(None, email)| == 2
  {
  }

  /** What `handleDeleteAccount` does, in order. */
  datatype DeleteEffect =
    | SetDeleting(on: bool)
    | DeleteUser(callbackURL: string)

  /** The account page's deletion state. */
  class AccountPage {
    var isDeletingAccount: bool
    var effects: seq<DeleteEffect>

    constructor()
      ensures !isDeletingAccount && effects == []
    {
      isDeletingAccount := false;
      effects := [];
    }

    /** `handleDeleteAccount`: the flag is raised before the request and lowered
        after it returns, whether it succeeded or failed. */
    method HandleDeleteAccount()
      modifies this
      ensures effects == old(effects) + [SetDeleting(true), DeleteUser("/goodbye"), SetDeleting(false)]
      ensures !isDeletingAccount
    {
      isDeletingAccount := true;
      effects := effects + [SetDeleting(true)];
      effects := effects + [DeleteUser("/goodbye")];
      isDeletingAccount := false;
      effects := effects + [SetDeleting(false)];
    }
  }
}
