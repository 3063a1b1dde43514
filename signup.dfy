/**
 * `app/auth/signup.tsx`: the registration form, its ordered checks, the
 * payload sent to `register` and the text shown when registration throws.
 */
module Signup {
  import opened Wrappers
  import opened Js
  import Strings

  datatype SignupMethod = ByEmail | ByPhone
  datatype Role = UserRole | HelperRole | BusinessRole

  datatype Form = Form(
    signupMethod: SignupMethod,
    name: string,
    phoneNumber: string,
    email: string,
    password: string,
    confirmPassword: string,
    role: Role)

  /** A fresh screen: email sign-up, role `'user'`, empty fields. */
  const InitialForm: Form := Form(ByEmail, "", "", "", "", "", UserRole)

  datatype Rejection =
    | NameRequired
    | EmailRequired
    | PhoneRequired
    | PhoneInvalid
    | PasswordRequired
    | PasswordTooShort
    | PasswordMismatch

  predicate Blank(s: string) {
    Strings.Trim(s) == ""
  }

  /** The contact checks pass: an email for email sign-up, a phone number
      of at least ten characters for phone sign-up. */
  predicate ContactOk(f: Form) {
    (f.signupMethod == ByEmail ==> !Blank(f.email))
    && (f.signupMethod == ByPhone ==> !Blank(f.phoneNumber) && |f.phoneNumber| >= 10)
  }

  /** Everything the checks demand, stated together. */
  predicate Acceptable(f: Form) {
    !Blank(f.name) && ContactOk(f)
    && !Blank(f.password) && |f.password| >= 8 && f.password == f.confirmPassword
  }

  /** The contact checks of `handleSignup`, in source order. */
  function ContactFailure(f: Form): (r: Option<Rejection>)
    ensures r.None? <==> ContactOk(f)
    ensures r.Some? ==> r.value == EmailRequired || r.value == PhoneRequired || r.value == PhoneInvalid
    ensures r == Some(EmailRequired) <==> f.signupMethod == ByEmail && Blank(f.email)
    ensures r == Some(PhoneRequired) <==> f.signupMethod == ByPhone && Blank(f.phoneNumber)
    ensures r == Some(PhoneInvalid) <==> f.signupMethod == ByPhone && !Blank(f.phoneNumber) && |f.phoneNumber| < 10
  {
    if f.signupMethod == ByEmail && Blank(f.email) then Some(EmailRequired)
    else if f.signupMethod == ByPhone && Blank(f.phoneNumber) then Some(PhoneRequired)
    else if f.signupMethod == ByPhone && |f.phoneNumber| < 10 then Some(PhoneInvalid)
    else None
  }

  /** The password checks of `handleSignup`, in source order. */
  function PasswordFailure(f: Form): (r: Option<Rejection>)
    ensures r.None? <==> !Blank(f.password) && |f.password| >= 8 && f.password == f.confirmPassword
    ensures r.Some? ==> r.value == PasswordRequired || r.value == PasswordTooShort || r.value == PasswordMismatch
    ensures r == Some(PasswordRequired) <==> Blank(f.password)
    ensures r == Some(PasswordTooShort) <==> !Blank(f.password) && |f.password| < 8
    ensures r == Some(PasswordMismatch) <==> !Blank(f.password) && |f.password| >= 8 && f.password != f.confirmPassword
  {
    if Blank(f.password) then Some(PasswordRequired)
    else if |f.password| < 8 then Some(PasswordTooShort)
    else if f.password != f.confirmPassword then Some(PasswordMismatch)
    else None
  }

  /** The first check of `handleSignup` that fails, in source order: the
      name, then the contact checks, then the password checks. */
  function FirstFailure(f: Form): (r: Option<Rejection>)
    ensures r.None? <==> Acceptable(f)
    ensures r == Some(NameRequired) <==> Blank(f.name)
    ensures r == Some(EmailRequired) <==> !Blank(f.name) && f.signupMethod == ByEmail && Blank(f.email)
    ensures r == Some(PhoneRequired) <==> !Blank(f.name) && f.signupMethod == ByPhone && Blank(f.phoneNumber)
    ensures r == Some(PhoneInvalid) <==>
      !Blank(f.name) && f.signupMethod == ByPhone && !Blank(f.phoneNumber) && |f.phoneNumber| < 10
    ensures r == Some(PasswordRequired) <==> !Blank(f.name) && ContactOk(f) && Blank(f.password)
    ensures r == Some(PasswordTooShort) <==> !Blank(f.name) && ContactOk(f) && !Blank(f.password) && |f.password| < 8
    ensures r == Some(PasswordMismatch) <==>
      !Blank(f.name) && ContactOk(f) && !Blank(f.password) && |f.password| >= 8 && f.password != f.confirmPassword
  {
    if Blank(f.name) then Some(NameRequired)
    else if ContactFailure(f).Some? then ContactFailure(f)
    else PasswordFailure(f)
  }

  /** A password of spaces is refused as missing, however long it is. */
  lemma BlankPasswordBeforeLength(f: Form)
    requires !Blank(f.name) && f.signupMethod == ByEmail && !Blank(f.email)
    requires Strings.IsBlank(f.password)
    ensures FirstFailure(f) == Some(PasswordRequired)
  {
  }

  /** The `register` payload. */
  datatype Payload = Payload(
    name: string,
    phone: Option<string>,
    email: Option<string>,
    password: string,
    passwordConfirmation: string,
    role: Role)

  function RegisterPayload(f: Form): (r: Payload)
    ensures r.name == Strings.Trim(f.name) && r.role == f.role && r.password == f.password
    ensures r.passwordConfirmation == f.confirmPassword
    ensures r.phone.Some? <==> f.signupMethod == ByPhone
    ensures r.email.Some? <==> f.signupMethod == ByEmail
    ensures r.phone.Some? ==> r.phone.value == Strings.Trim(f.phoneNumber)
    ensures r.email.Some? ==> r.email.value == Strings.Trim(f.email)
  {
    Payload(Strings.Trim(f.name),
      if f.signupMethod == ByPhone then Some(Strings.Trim(f.phoneNumber)) else None,
      if f.signupMethod == ByEmail then Some(Strings.Trim(f.email)) else None,
      f.password, f.confirmPassword, f.role)
  }

  /** What `register` can throw. `json` is `JSON.stringify(error)` for an object. */
  datatype Thrown = ErrorInstance(message: Value) | ThrownString(s: string) | ThrownObject(fields: Value, json: string) | ThrownOther

  const DefaultError := "Failed to create account. Please try again."

  /** The error text of `handleSignup`'s `catch`. */
  function ErrorText(e: Thrown): (r: Value)
    ensures e.ErrorInstance? ==> r == e.message
    ensures e.ThrownString? ==> r == Str(e.s)
    ensures e.ThrownOther? ==> r == Str(DefaultError)
    ensures e.ThrownObject? && !Nullish(e.fields) && Truthy(Prop(e.fields, "message")) ==> r == Prop(e.fields, "message")
    ensures e.ThrownObject? && !Nullish(e.fields) && !Truthy(Prop(e.fields, "message")) && Truthy(Prop(e.fields, "error")) ==>
      r == Prop(e.fields, "error")
    ensures e.ThrownObject? && !Nullish(e.fields) && !Truthy(Prop(e.fields, "message")) && !Truthy(Prop(e.fields, "error")) ==>
      r == Str(e.json)
    ensures e.ThrownObject? && Nullish(e.fields) ==> r == Str(DefaultError)
  {
    match e
    case ErrorInstance(m) => m
    case ThrownString(s) => Str(s)
    case ThrownObject(v, json) =>
      if Nullish(v) then Str(DefaultError)
      else Or(Prop(v, "message"), Or(Prop(v, "error"), Str(json)))
    case ThrownOther => Str(DefaultError)
  }

  /** The part of the screen that the signed-in user's email locks. */
  class MethodChoice {
    var signupMethod: SignupMethod
    var email: string
    var isEmailEditable: bool

    /** A locked email always means email sign-up. */
    predicate Valid()
      reads this
    {
      !isEmailEditable ==> signupMethod == ByEmail
    }

    constructor()
      ensures Valid() && signupMethod == ByEmail && email == "" && isEmailEditable
    {
      signupMethod := ByEmail;
      email := "";
      isEmailEditable := true;
    }

    /** The effect on `[user]`: a user with an email fixes email sign-up with
        that address. */
    method Prefill(userEmail: Value)
      requires Valid()
      modifies this
      ensures Valid()
      ensures userEmail.Str? && userEmail.s != "" ==> signupMethod == ByEmail && email == userEmail.s && !isEmailEditable
      ensures !(userEmail.Str? && userEmail.s != "") ==>
        signupMethod == old(signupMethod) && email == old(email) && isEmailEditable == old(isEmailEditable)
    {
      if userEmail.Str? && userEmail.s != "" {
        email := userEmail.s;
        signupMethod := ByEmail;
        isEmailEditable := false;
      }
    }

    /** A tap on a method button; ignored while the email is locked. */
    method Tap(m: SignupMethod)
      requires Valid()
      modifies this
      ensures Valid() && email == old(email) && isEmailEditable == old(isEmailEditable)
      ensures signupMethod == if old(isEmailEditable) then m else old(signupMethod)
    {
      if isEmailEditable {
        signupMethod := m;
      }
    }
  }
}
