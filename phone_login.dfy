/**
 * `app/auth/phone-login.tsx`: the sign-in form. The same checks guard the
 * Continue handler and enable its button, and the handler builds the
 * `loginData` it passes to `login`.
 */
module PhoneLogin {
  import opened Wrappers
  import opened Js
  import Strings
  import Auth

  datatype LoginMethod = ByEmail | ByPhone
  datatype AuthMethod = Otp | Password

  const DummyPhone: string := "9876543210"

  datatype Form = Form(
    loginMethod: LoginMethod,
    authMethod: AuthMethod,
    phoneNumber: string,
    email: string,
    password: string)

  /** The form a fresh screen shows: phone and OTP, all fields empty. */
  const InitialForm: Form := Form(ByPhone, Otp, "", "", "")

  /** The first half of `isFormValid`: the chosen contact is usable. */
  predicate ContactValid(f: Form) {
    if f.loginMethod == ByPhone then |f.phoneNumber| >= 10
    else Strings.Trim(f.email) != "" && Strings.Contains(f.email, "@")
  }

  /** `isFormValid`, which enables the Continue button. */
  predicate IsFormValid(f: Form)
    ensures f.authMethod == Otp ==> (IsFormValid(f) <==> ContactValid(f))
    ensures f.authMethod == Password ==>
      (IsFormValid(f) <==> ContactValid(f) && Strings.Trim(f.password) != "")
  {
    ContactValid(f) && !(f.authMethod == Password && Strings.Trim(f.password) == "")
  }

  datatype Rejection = InvalidPhone | InvalidEmail | PasswordRequired

  /** The alert each refusal shows. */
  function RejectionMessage(r: Rejection): string {
    match r
    case InvalidPhone => "Please enter a valid phone number"
    case InvalidEmail => "Please enter a valid email address"
    case PasswordRequired => "Please enter your password"
  }

  /** What `login` receives. Absent keys are `None`. */
  datatype LoginData = LoginData(phone: Option<string>, email: Option<string>, password: Option<string>, authMethod: AuthMethod)

  datatype Continue = Refused(reason: Rejection) | Submitted(data: LoginData)

  /** The checks and the payload of `handleContinue`, up to the `login` call. */
  method HandleContinue(f: Form) returns (r: Continue)
    ensures r.Refused? <==> !IsFormValid(f)
    ensures r.Refused? && f.loginMethod == ByPhone && |f.phoneNumber| < 10 ==> r.reason == InvalidPhone
    ensures r.Refused? && f.loginMethod == ByEmail && !(Strings.Trim(f.email) != "" && Strings.Contains(f.email, "@")) ==>
      r.reason == InvalidEmail
    ensures r == Refused(InvalidPhone) <==> f.loginMethod == ByPhone && !ContactValid(f)
    ensures r == Refused(InvalidEmail) <==> f.loginMethod == ByEmail && !ContactValid(f)
    ensures r == Refused(PasswordRequired) <==>
      ContactValid(f) && f.authMethod == Password && Strings.Trim(f.password) == ""
    ensures r.Submitted? ==> r.data.authMethod == f.authMethod
    ensures r.Submitted? ==> (r.data.phone.Some? <==> f.loginMethod == ByPhone) && (r.data.email.Some? <==> f.loginMethod == ByEmail)
    ensures r.Submitted? && f.loginMethod == ByPhone ==> r.data.phone == Some(f.phoneNumber)
    ensures r.Submitted? && f.loginMethod == ByEmail ==> r.data.email == Some(Strings.Trim(f.email))
    ensures r.Submitted? ==> (r.data.password.Some? <==> f.authMethod == Password)
    ensures r.Submitted? && f.authMethod == Password ==> r.data.password == Some(f.password)
  {
    if f.loginMethod == ByPhone {
      if |f.phoneNumber| < 10 {
        return Refused(InvalidPhone);
      }
    } else {
      if Strings.Trim(f.email) == "" || !Strings.Contains(f.email, "@") {
        return Refused(InvalidEmail);
      }
    }
    if f.authMethod == Password && Strings.Trim(f.password) == "" {
      return Refused(PasswordRequired);
    }
    var data := LoginData(None, None, None, f.authMethod);
    if f.loginMethod == ByPhone {
      data := data.(phone := Some(f.phoneNumber));
    } else {
      data := data.(email := Some(Strings.Trim(f.email)));
    }
    if f.authMethod == Password {
      data := data.(password := Some(f.password));
    }
    return Submitted(data);
  }

  /** `loginData` as the object `login` receives: `authMethod` always,
      the other keys only when set. */
  function LoginDataValue(d: LoginData): (v: Value)
    ensures v.Obj? && "authMethod" in v.fields
    ensures v.fields["authMethod"] == Str(if d.authMethod == Otp then "otp" else "password")
    ensures ("phone" in v.fields <==> d.phone.Some?) && (d.phone.Some? ==> v.fields["phone"] == Str(d.phone.value))
    ensures ("email" in v.fields <==> d.email.Some?) && (d.email.Some? ==> v.fields["email"] == Str(d.email.value))
    ensures ("password" in v.fields <==> d.password.Some?)
      && (d.password.Some? ==> v.fields["password"] == Str(d.password.value))
  {
    var m := map["authMethod" := Str(if d.authMethod == Otp then "otp" else "password")];
    var m := if d.phone.Some? then m["phone" := Str(d.phone.value)] else m;
    var m := if d.email.Some? then m["email" := Str(d.email.value)] else m;
    var m := if d.password.Some? then m["password" := Str(d.password.value)] else m;
    Obj(m)
  }

  /** `handleContinue` through the `login` call. The context's `login`
      takes the whole `loginData` object as its phone number and resolves to
      `undefined`, so `result?.requiresOTP` is never truthy and the screen
      never moves on to the OTP screen (`toOtp`). A refusal leaves the
      session alone. */
  method SubmitLogin(session: Auth.Session, f: Form, id: string) returns (r: Continue, toOtp: bool)
    modifies session
    ensures r.Refused? <==> !IsFormValid(f)
    ensures r.Refused? ==> session.user == old(session.user)
    ensures r.Submitted? ==> session.user == Some(Auth.LoginRecord(LoginDataValue(r.data), id))
    ensures !toOtp
  {
    r := HandleContinue(f);
    toOtp := false;
    if r.Submitted? {
      var result := session.Login(LoginDataValue(r.data), id);
      toOtp := f.authMethod == Otp && Truthy(Field(result, "requiresOTP"));
    }
  }

  /** The error text: `error.message || error.error || default`. */
  function ErrorText(error: Value): (r: Value)
    requires !Nullish(error)
    ensures Truthy(Prop(error, "message")) ==> r == Prop(error, "message")
    ensures !Truthy(Prop(error, "message")) && Truthy(Prop(error, "error")) ==> r == Prop(error, "error")
    ensures !Truthy(Prop(error, "message")) && !Truthy(Prop(error, "error")) ==> r == Str("Login failed. Please try again.")
  {
    Or(Prop(error, "message"), Or(Prop(error, "error"), Str("Login failed. Please try again.")))
  }

  /** The demo number fills a form the phone check accepts. */
  lemma DummyPhonePasses(f: Form)
    requires f.loginMethod == ByPhone && f.authMethod == Otp && f.phoneNumber == DummyPhone
    ensures IsFormValid(f)
  {
  }

  /** In OTP mode the typed password plays no part in whether the form is
      valid: only the phone number or the email is checked. */
  lemma OtpValidityIgnoresPassword(f: Form)
    requires f.authMethod == Otp
    ensures IsFormValid(f) <==> (if f.loginMethod == ByPhone then |f.phoneNumber| >= 10
                                 else Strings.Trim(f.email) != "" && Strings.Contains(f.email, "@"))
  {
  }
}
