/**
 * `app/settings/change-password.tsx`: the password rules, the handler's
 * ordered checks, and what a successful change does to the form.
 */
module ChangePassword {
  import opened Wrappers
  import opened Js
  import Strings
  import Auth

  predicate IsUpper(c: char) { 'A' <= c <= 'Z' }
  predicate IsLower(c: char) { 'a' <= c <= 'z' }

  predicate HasUpper(s: string) { exists i :: 0 <= i < |s| && IsUpper(s[i]) }
  predicate HasLower(s: string) { exists i :: 0 <= i < |s| && IsLower(s[i]) }
  predicate HasDigit(s: string) { exists i :: 0 <= i < |s| && Strings.IsDigit(s[i]) }

  datatype PasswordProblem = TooShort | NoUppercase | NoLowercase | NoNumber

  function ProblemMessage(p: PasswordProblem): string {
    match p
    case TooShort => "Password must be at least 8 characters long"
    case NoUppercase => "Password must contain at least one uppercase letter"
    case NoLowercase => "Password must contain at least one lowercase letter"
    case NoNumber => "Password must contain at least one number"
  }

  /** A password the rules accept. */
  predicate Strong(p: string) {
    |p| >= 8 && HasUpper(p) && HasLower(p) && HasDigit(p)
  }

  /** `validatePassword`: the first rule broken, in the order length,
      uppercase, lowercase, digit. */
  function ValidatePassword(p: string): (r: Option<PasswordProblem>)
    ensures r.None? <==> Strong(p)
    ensures r == Some(TooShort) <==> |p| < 8
    ensures r == Some(NoUppercase) <==> |p| >= 8 && !HasUpper(p)
    ensures r == Some(NoLowercase) <==> |p| >= 8 && HasUpper(p) && !HasLower(p)
    ensures r == Some(NoNumber) <==> |p| >= 8 && HasUpper(p) && HasLower(p) && !HasDigit(p)
  {
    if |p| < 8 then Some(TooShort)
    else if !HasUpper(p) then Some(NoUppercase)
    else if !HasLower(p) then Some(NoLowercase)
    else if !HasDigit(p) then Some(NoNumber)
    else None
  }

  /** A strong password is never blank, so the blank check before the rules
      only ever catches what the rules would catch as too short. */
  lemma StrongIsNotBlank(p: string)
    requires Strong(p)
    ensures Strings.Trim(p) != ""
  {
    var i :| 0 <= i < |p| && IsUpper(p[i]);
    assert !Strings.IsSpace(p[i]);
  }

  datatype Form = Form(currentPassword: string, newPassword: string, confirmPassword: string)

  datatype Refusal =
    | CurrentRequired
    | NewRequired
    | Weak(problem: PasswordProblem)
    | Mismatch
    | Unchanged

  /** The checks of `handleChangePassword`, first failure wins. */
  function Check(f: Form): (r: Option<Refusal>)
    ensures r.None? <==>
      Strings.Trim(f.currentPassword) != "" && Strong(f.newPassword)
      && f.newPassword == f.confirmPassword && f.currentPassword != f.newPassword
    ensures r == Some(CurrentRequired) <==> Strings.Trim(f.currentPassword) == ""
    ensures r == Some(NewRequired) <==>
      Strings.Trim(f.currentPassword) != "" && Strings.Trim(f.newPassword) == ""
    ensures r.Some? && r.value.Weak? <==>
      Strings.Trim(f.currentPassword) != "" && Strings.Trim(f.newPassword) != ""
      && ValidatePassword(f.newPassword).Some?
    ensures r.Some? && r.value.Weak? ==> ValidatePassword(f.newPassword) == Some(r.value.problem)
    ensures r == Some(Mismatch) <==>
      Strings.Trim(f.currentPassword) != "" && Strong(f.newPassword) && f.newPassword != f.confirmPassword
    ensures r == Some(Unchanged) <==>
      Strings.Trim(f.currentPassword) != "" && Strong(f.newPassword)
      && f.newPassword == f.confirmPassword && f.currentPassword == f.newPassword
  {
    BlankIsWeak(f.newPassword);
    var problem := ValidatePassword(f.newPassword);
    if Strings.Trim(f.currentPassword) == "" then Some(CurrentRequired)
    else if Strings.Trim(f.newPassword) == "" then Some(NewRequired)
    else if problem.Some? then Some(Weak(problem.value))
    else if f.newPassword != f.confirmPassword then Some(Mismatch)
    else if f.currentPassword == f.newPassword then Some(Unchanged)
    else None
  }

  lemma BlankIsWeak(p: string)
    ensures Strings.Trim(p) == "" ==> !Strong(p)
  {
    if Strong(p) {
      StrongIsNotBlank(p);
    }
  }

  datatype Outcome = Refused(reason: Refusal) | Failed(message: string) | Done(user: Auth.Record)

  /** `error.message || 'Failed to change password. Please try again.'`. */
  function FailureText(message: string): (r: string)
    ensures r != ""
    ensures message != "" ==> r == message
  {
    if message != "" then message else "Failed to change password. Please try again."
  }

  /** The whole handler against the auth context's `changePassword`: on
      success the form is cleared. */
  function HandleChangePassword(f: Form, user: Option<Auth.Record>): (r: (Outcome, Form))
    ensures Check(f).Some? ==> r == (Refused(Check(f).value), f)
    ensures r.0.Done? ==>
      r.1 == Form("", "", "") && Check(f).None?
      && Auth.AfterChangePassword(user, f.currentPassword, f.newPassword) == Auth.Changed(r.0.user)
    ensures r.0.Failed? ==> r.1 == f
    ensures Check(f).None? && Auth.AfterChangePassword(user, f.currentPassword, f.newPassword).Thrown? ==>
      r == (Failed(FailureText(Auth.AfterChangePassword(user, f.currentPassword, f.newPassword).message)), f)
    ensures Check(f).None? && Auth.AfterChangePassword(user, f.currentPassword, f.newPassword).Changed? ==>
      r == (Done(Auth.AfterChangePassword(user, f.currentPassword, f.newPassword).user), Form("", "", ""))
  {
    if Check(f).Some? then (Refused(Check(f).value), f)
    else match Auth.AfterChangePassword(user, f.currentPassword, f.newPassword)
      case Thrown(m) => (Failed(FailureText(m)), f)
      case Changed(u) => (Done(u), Form("", "", ""))
  }

  /** With no user signed in, a well-formed change fails with the context's
      message. */
  lemma NoUserFails(f: Form)
    requires Check(f).None?
    ensures HandleChangePassword(f, None).0 == Failed("User not found")
  {
  }

  /** A set password that the typed current one does not match fails with
      the context's message, and the form is kept. */
  lemma WrongCurrentPasswordFails(f: Form, u: Auth.Record)
    requires Check(f).None?
    requires Truthy(FieldOf(u, "password")) && FieldOf(u, "password") != Str(f.currentPassword)
    ensures HandleChangePassword(f, Some(u)) == (Failed("Current password is incorrect"), f)
  {
  }
}
