/**
 * `contexts/AuthContext.tsx`: the signed-in user as one optional record,
 * replaced by each operation. The record is a map from field names to
 * JavaScript values, because screens merge in fields the declared `User`
 * type does not list (`isVerified`, `city_id`, `pin_address`, ...).
 * Storage writes and `Date.now()` are left out or passed in.
 */
module Auth {
  import opened Wrappers
  import opened Js

  type Record = map<string, Value>

  /** The record `login` saves: a fresh id, the phone number, no type yet. */
  function LoginRecord(phoneNumber: Value, id: string): (r: Record)
    ensures FieldOf(r, "phoneNumber") == phoneNumber
    ensures FieldOf(r, "userType") == Null && FieldOf(r, "onboardingStatus") == Str("not_started")
    ensures r.Keys == {"id", "phoneNumber", "userType", "onboardingStatus"}
  {
    map["id" := Str(id), "phoneNumber" := phoneNumber, "userType" := Null,
        "onboardingStatus" := Str("not_started")]
  }

  /** `verifyOTP`: any code of length 6 is accepted once a user exists. */
  predicate OtpAccepted(user: Option<Record>, otp: string) {
    |otp| == 6 && user.Some?
  }

  /** `selectUserType`. */
  function AfterSelectUserType(user: Option<Record>, userType: Value): (r: Option<Record>)
    ensures r.None? <==> user.None?
    ensures r.Some? ==>
      FieldOf(r.value, "userType") == userType && FieldOf(r.value, "onboardingStatus") == Str("in_progress")
    ensures r.Some? ==> forall k :: k != "userType" && k != "onboardingStatus" ==>
      (k in r.value <==> k in user.value) && FieldOf(r.value, k) == FieldOf(user.value, k)
  {
    match user
    case None => None
    case Some(u) => Some(u["userType" := userType]["onboardingStatus" := Str("in_progress")])
  }

  /** `updateUser`: `{...user, ...patch}`, a shallow merge. */
  function AfterUpdateUser(user: Option<Record>, patch: Record): (r: Option<Record>)
    ensures r.None? <==> user.None?
    ensures r.Some? ==> forall k :: k in patch ==> FieldOf(r.value, k) == patch[k]
    ensures r.Some? ==> forall k :: k !in patch ==>
      (k in r.value <==> k in user.value) && FieldOf(r.value, k) == FieldOf(user.value, k)
  {
    match user
    case None => None
    case Some(u) => Some(u + patch)
  }

  /** Merging the same fields twice is merging them once. */
  lemma UpdateUserIdempotent(user: Option<Record>, patch: Record)
    ensures AfterUpdateUser(AfterUpdateUser(user, patch), patch) == AfterUpdateUser(user, patch)
  {
    if user.Some? {
      var once := user.value + patch;
      assert once + patch == once;
    }
  }

  /** `completeOnboarding` as the source has it: the name comes from
      `profileData.name` only when the profile has a `userType` field,
      which neither profile type declares. */
  function AfterCompleteOnboardingAsWritten(user: Option<Record>, profile: Record): (r: Option<Record>)
    ensures r.None? <==> user.None?
    ensures r.Some? ==>
      FieldOf(r.value, "profileData") == Obj(profile) && FieldOf(r.value, "onboardingStatus") == Str("completed")
    ensures r.Some? && "userType" !in profile ==> FieldOf(r.value, "name") == FieldOf(profile, "ownerName")
    ensures r.Some? && "userType" in profile ==> FieldOf(r.value, "name") == FieldOf(profile, "name")
    ensures r.Some? ==> forall k :: k != "profileData" && k != "onboardingStatus" && k != "name" ==>
      (k in r.value <==> k in user.value) && FieldOf(r.value, k) == FieldOf(user.value, k)
  {
    match user
    case None => None
    case Some(u) =>
      Some(u["profileData" := Obj(profile)]["onboardingStatus" := Str("completed")]
            ["name" := if "userType" in profile then FieldOf(profile, "name") else FieldOf(profile, "ownerName")])
  }

  /** A helper profile, as `helper-profile.tsx` builds it: it has `name` and
      no `ownerName`. Completing onboarding with it erases the user's name. */
  lemma CompleteOnboardingAsWrittenErasesHelperName()
    ensures var u := map["name" := Str("Ali"), "onboardingStatus" := Str("in_progress")];
      var profile := map["name" := Str("Ali"), "serviceOfferings" := Arr([]), "locations" := Arr([])];
      var r := AfterCompleteOnboardingAsWritten(Some(u), profile);
      FieldOf(u, "name") == Str("Ali") && r.Some? && FieldOf(r.value, "name") == Undefined
  {
    var profile := map["name" := Str("Ali"), "serviceOfferings" := Arr([]), "locations" := Arr([])];
    assert "userType" !in profile && "ownerName" !in profile;
  }

  /** `completeOnboarding` with the name taken as intended: a business profile's
      `ownerName`, a helper profile's `name`. */
  function AfterCompleteOnboarding(user: Option<Record>, profile: Record): (r: Option<Record>)
    ensures r.None? <==> user.None?
    ensures r.Some? ==>
      FieldOf(r.value, "profileData") == Obj(profile) && FieldOf(r.value, "onboardingStatus") == Str("completed")
    ensures r.Some? && "ownerName" in profile ==> FieldOf(r.value, "name") == profile["ownerName"]
    ensures r.Some? && "ownerName" !in profile ==> FieldOf(r.value, "name") == FieldOf(profile, "name")
    ensures r.Some? ==> forall k :: k != "profileData" && k != "onboardingStatus" && k != "name" ==>
      (k in r.value <==> k in user.value) && FieldOf(r.value, k) == FieldOf(user.value, k)
  {
    match user
    case None => None
    case Some(u) =>
      Some(u["profileData" := Obj(profile)]["onboardingStatus" := Str("completed")]
            ["name" := if "ownerName" in profile then profile["ownerName"] else FieldOf(profile, "name")])
  }

  /** A helper who completes onboarding with a profile carrying their own
      name keeps that name. */
  lemma CompleteOnboardingKeepsHelperName(u: Record, profile: Record)
    requires "ownerName" !in profile && "name" in profile && FieldOf(u, "name") == profile["name"]
    ensures FieldOf(AfterCompleteOnboarding(Some(u), profile).value, "name") == FieldOf(u, "name")
  {
  }

  /** What `changePassword` does: a new record, or the message it throws. */
  datatype PasswordChange = Changed(user: Record) | Thrown(message: string)

  /** `changePassword`: a stored password that is set must match. */
  function AfterChangePassword(user: Option<Record>, currentPassword: string, newPassword: string): (r: PasswordChange)
    ensures user.None? <==> r == Thrown("User not found")
    ensures r == Thrown("Current password is incorrect") <==>
      user.Some? && Truthy(FieldOf(user.value, "password")) && FieldOf(user.value, "password") != Str(currentPassword)
    ensures r.Changed? ==> FieldOf(r.user, "password") == Str(newPassword)
    ensures r.Changed? ==> forall k :: k != "password" ==> (k in r.user <==> k in user.value) && FieldOf(r.user, k) == FieldOf(user.value, k)
  {
    match user
    case None => Thrown("User not found")
    case Some(u) =>
      if Truthy(FieldOf(u, "password")) && FieldOf(u, "password") != Str(currentPassword) then
        Thrown("Current password is incorrect")
      else Changed(u["password" := Str(newPassword)])
  }

  /** After a change, the new password is accepted as the current one. */
  lemma ChangePasswordTwice(u: Record, current: string, next: string, after: string)
    requires AfterChangePassword(Some(u), current, next).Changed?
    ensures AfterChangePassword(Some(AfterChangePassword(Some(u), current, next).user), next, after).Changed?
  {
  }

  /** Any code is accepted while no password is set, and a wrong code is
      refused once a password is set. */
  lemma PasswordCheckOnlyWhenSet(u: Record, current: string, next: string)
    ensures !Truthy(FieldOf(u, "password")) ==> AfterChangePassword(Some(u), current, next).Changed?
    ensures FieldOf(u, "password").Str? && FieldOf(u, "password").s != "" && FieldOf(u, "password").s != current ==>
      AfterChangePassword(Some(u), current, next) == Thrown("Current password is incorrect")
  {
  }

  /** The provider's state. */
  class Session {
    var user: Option<Record>

    /** Before the stored record is loaded there is no user. */
    constructor()
      ensures user.None?
    {
      user := None;
    }

    /** The effect that restores a stored user (`parse` is `JSON.parse`; a
        failure keeps the state). */
    method LoadUser(stored: Option<string>, parse: string -> Option<Record>)
      modifies this
      ensures stored.Some? && stored.value != "" && parse(stored.value).Some? ==> user == parse(stored.value)
      ensures !(stored.Some? && stored.value != "" && parse(stored.value).Some?) ==> user == old(user)
    {
      if stored.Some? && stored.value != "" {
        var parsed := parse(stored.value);
        if parsed.Some? {
          user := parsed;
        }
      }
    }

    /** `login(phoneNumber)`: the argument is stored as it is passed (the
        declared type says a string, but nothing checks it), and the promise
        resolves to `undefined`. */
    method Login(phoneNumber: Value, id: string) returns (result: Value)
      modifies this
      ensures user == Some(LoginRecord(phoneNumber, id))
      ensures result == Undefined
    {
      user := Some(LoginRecord(phoneNumber, id));
      result := Undefined;
    }

    /** `verifyOTP` reads the user and never changes it. */
    method VerifyOtp(otp: string) returns (accepted: bool)
      ensures accepted <==> |otp| == 6 && user.Some?
    {
      accepted := |otp| == 6 && user.Some?;
    }

    method SelectUserType(userType: Value)
      modifies this
      ensures user == AfterSelectUserType(old(user), userType)
    {
      if user.Some? {
        user := Some(user.value["userType" := userType]["onboardingStatus" := Str("in_progress")]);
      }
    }

    method UpdateUser(patch: Record)
      modifies this
      ensures user == AfterUpdateUser(old(user), patch)
    {
      if user.Some? {
        user := Some(user.value + patch);
      }
    }

    /** `updateUser` reached through a closure that an earlier render
        captured: `user` in its body is the record of that render
        (`captured`), so the merge starts from it rather than from the
        current user, and a missing captured user leaves the state alone. */
    method UpdateUserCaptured(captured: Option<Record>, patch: Record)
      modifies this
      ensures captured.None? ==> user == old(user)
      ensures captured.Some? ==> user == AfterUpdateUser(captured, patch)
    {
      if captured.Some? {
        user := Some(captured.value + patch);
      }
    }

    /** `completeOnboarding` as the provider has it, with the name rule of
        `AfterCompleteOnboardingAsWritten` (a helper's name is erased). */
    method CompleteOnboarding(profile: Record)
      modifies this
      ensures user == AfterCompleteOnboardingAsWritten(old(user), profile)
    {
      if user.Some? {
        var name := if "userType" in profile then FieldOf(profile, "name") else FieldOf(profile, "ownerName");
        user := Some(user.value["profileData" := Obj(profile)]["onboardingStatus" := Str("completed")]["name" := name]);
      }
    }

    /** `changePassword`; the thrown message is returned, and the user is
        kept when it throws. */
    method ChangePassword(currentPassword: string, newPassword: string) returns (thrown: Option<string>)
      modifies this
      ensures var r := AfterChangePassword(old(user), currentPassword, newPassword);
        (r.Thrown? ==> thrown == Some(r.message) && user == old(user))
        && (r.Changed? ==> thrown.None? && user == Some(r.user))
    {
      if user.None? {
        return Some("User not found");
      }
      var u := user.value;
      if Truthy(FieldOf(u, "password")) && FieldOf(u, "password") != Str(currentPassword) {
        return Some("Current password is incorrect");
      }
      user := Some(u["password" := Str(newPassword)]);
      return None;
    }

    method Logout()
      modifies this
      ensures user.None?
    {
      user := None;
    }

    /** `isAuthenticated: !!user`. */
    function IsAuthenticated(): (r: bool)
      reads this
      ensures r <==> user.Some?
    {
      user.Some?
    }
  }
}
