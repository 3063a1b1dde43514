/**
 * `app/_layout.tsx`: the navigation guard `RootLayoutNav` runs whenever the
 * user, the loading flag or the route changes, and issues at most one
 * `router.replace`. Also the predicate the web error handler uses to
 * suppress noise from browser extensions.
 */
module RootLayout {
  import opened Wrappers
  import opened Js
  import Strings
  import Auth

  /** The screens the guard (and `app/index.tsx`) redirect to. */
  datatype Target =
    | PhoneLogin
    | OtpVerify
    | UserTypeScreen
    | OnboardingStart
    | HelperProfileScreen
    | BusinessProfileScreen
    | OnboardingLocation
    | Tabs

  /** The route segments of each target, as `useSegments` reports them there. */
  function SegmentsOf(t: Target): seq<string> {
    match t
    case PhoneLogin => ["auth", "phone-login"]
    case OtpVerify => ["auth", "otp-verify"]
    case UserTypeScreen => ["auth", "user-type"]
    case OnboardingStart => ["onboarding", "start"]
    case HelperProfileScreen => ["onboarding", "helper-profile"]
    case BusinessProfileScreen => ["onboarding", "business-profile"]
    case OnboardingLocation => ["onboarding", "location"]
    case Tabs => ["(tabs)"]
  }

  /** `segments.join('/')`. */
  function CurrentPath(segments: seq<string>): string {
    Strings.Join(segments, "/")
  }

  predicate InAuthGroup(segments: seq<string>) {
    |segments| > 0 && (segments[0] == "auth" || segments[0] == "onboarding")
  }

  predicate IsAtRoot(segments: seq<string>) {
    |segments| == 0 || (|segments| == 1 && segments[0] == "index")
  }

  predicate IsPublicRoute(segments: seq<string>) {
    CurrentPath(segments) in ["about", "help", "privacy", "terms"]
  }

  predicate IsOnAuthScreen(segments: seq<string>) {
    var p := CurrentPath(segments);
    p == "auth/phone-login" || p == "auth/signup" || p == "auth/user-type"
  }

  /** `user.isVerified === false`: a missing flag counts as verified. */
  predicate Unverified(u: Auth.Record) {
    FieldOf(u, "isVerified") == Bool(false)
  }

  predicate Completed(u: Auth.Record) {
    FieldOf(u, "onboardingStatus") == Str("completed")
  }

  /** The redirect for a verified user on an auth screen or at the root,
      and (the same chain) the target of `app/index.tsx` past its first checks. */
  function HomeFor(u: Auth.Record): Target {
    if !Truthy(FieldOf(u, "userType")) then UserTypeScreen
    else if !Completed(u) then OnboardingStart
    else Tabs
  }

  /** Where an incomplete onboarding resumes: the start screen while name,
      city or pin address is missing, else the screen for the user's type. */
  function ResumeOnboarding(u: Auth.Record): Target {
    if !Truthy(FieldOf(u, "name")) || !Truthy(FieldOf(u, "city_id"))
       || !Truthy(FieldOf(u, "pin_address")) then OnboardingStart
    else if FieldOf(u, "userType") == Str("helper") then HelperProfileScreen
    else if FieldOf(u, "userType") == Str("business") then BusinessProfileScreen
    else OnboardingLocation
  }

  /** The guard's decision: the target of its `router.replace`, or `None`. */
  function Guard(isLoading: bool, user: Option<Auth.Record>, segments: seq<string>): (r: Option<Target>)
    ensures isLoading ==> r.None?
    ensures !isLoading && user.None? ==>
      (r.Some? <==> !IsPublicRoute(segments) && !IsOnAuthScreen(segments) && !IsAtRoot(segments))
    ensures r.Some? && user.None? ==> r.value == PhoneLogin
    ensures !isLoading && user.Some? && Unverified(user.value) ==>
      r == (if CurrentPath(segments) == "auth/otp-verify" then None else Some(OtpVerify))
    ensures !isLoading && user.Some? && !Unverified(user.value) && (IsOnAuthScreen(segments) || IsAtRoot(segments)) ==>
      r == Some(HomeFor(user.value))
    ensures !isLoading && user.Some? && !Unverified(user.value) && !IsOnAuthScreen(segments) && !IsAtRoot(segments)
            && !Truthy(FieldOf(user.value, "userType")) ==>
      (r.None? <==> CurrentPath(segments) == "auth/user-type") && (r.Some? ==> r.value == UserTypeScreen)
    ensures !isLoading && user.Some? && !Unverified(user.value) && !IsOnAuthScreen(segments) && !IsAtRoot(segments)
            && Truthy(FieldOf(user.value, "userType")) && !Completed(user.value) ==>
      (r.Some? <==> !((|segments| > 0 && segments[0] == "onboarding") || IsPublicRoute(segments)))
      && (r.Some? ==> r.value == ResumeOnboarding(user.value))
    ensures !isLoading && user.Some? && !Unverified(user.value) && !IsOnAuthScreen(segments) && !IsAtRoot(segments)
            && Truthy(FieldOf(user.value, "userType")) && Completed(user.value) ==>
      (r == Some(Tabs) <==> InAuthGroup(segments) && !IsPublicRoute(segments))
      && (r.Some? ==> r.value == Tabs)
  {
    if isLoading then None
    else match user
      case None =>
        if !IsPublicRoute(segments) && !IsOnAuthScreen(segments) && !IsAtRoot(segments) then Some(PhoneLogin)
        else None
      case Some(u) =>
        if Unverified(u) then
          if CurrentPath(segments) != "auth/otp-verify" then Some(OtpVerify) else None
        else if IsOnAuthScreen(segments) || IsAtRoot(segments) then Some(HomeFor(u))
        else if !Truthy(FieldOf(u, "userType")) then
          if CurrentPath(segments) != "auth/user-type" then Some(UserTypeScreen) else None
        else if !Completed(u) then
          var allowed := (|segments| > 0 && segments[0] == "onboarding")
                         || CurrentPath(segments) == "auth/user-type" || IsPublicRoute(segments);
          if !allowed then Some(ResumeOnboarding(u)) else None
        else if InAuthGroup(segments) && !IsPublicRoute(segments) then Some(Tabs)
        else None
  }

  /** A signed-out user on the OTP screen is sent to login: that screen is
      neither public, nor one of the three auth screens, nor the root. */
  lemma SignedOutOtpScreenGoesToLogin()
    ensures Guard(false, None, ["auth", "otp-verify"]) == Some(PhoneLogin)
  {
    assert CurrentPath(["auth", "otp-verify"]) == "auth/otp-verify";
  }

  /** An onboarded user inside the auth or onboarding group is sent to the tabs. */
  lemma CompletedUserLeavesOnboarding(u: Auth.Record, segments: seq<string>)
    requires !Unverified(u) && Truthy(FieldOf(u, "userType")) && Completed(u)
    requires InAuthGroup(segments) && !IsPublicRoute(segments)
    ensures Guard(false, Some(u), segments) == Some(Tabs)
  {
  }

  /** The path of each target, as `segments.join('/')` gives it there. */
  function PathOf(t: Target): string {
    match t
    case PhoneLogin => "auth/phone-login"
    case OtpVerify => "auth/otp-verify"
    case UserTypeScreen => "auth/user-type"
    case OnboardingStart => "onboarding/start"
    case HelperProfileScreen => "onboarding/helper-profile"
    case BusinessProfileScreen => "onboarding/business-profile"
    case OnboardingLocation => "onboarding/location"
    case Tabs => "(tabs)"
  }

  lemma JoinedPath(first: string, second: string, path: string)
    requires path == first + "/" + second
    ensures CurrentPath([first, second]) == path
  {
    Strings.JoinPair(first, second, "/");
  }

  lemma TargetPath(t: Target)
    ensures CurrentPath(SegmentsOf(t)) == PathOf(t)
  {
    if t.PhoneLogin? || t.OtpVerify? || t.UserTypeScreen? {
      AuthTargetPath(t);
    } else if !t.Tabs? {
      OnboardingTargetPath(t);
    }
  }

  lemma AuthTargetPath(t: Target)
    requires t.PhoneLogin? || t.OtpVerify? || t.UserTypeScreen?
    ensures CurrentPath(SegmentsOf(t)) == PathOf(t)
  {
    match t
    case PhoneLogin => JoinedPath("auth", "phone-login", "auth/phone-login");
    case OtpVerify => JoinedPath("auth", "otp-verify", "auth/otp-verify");
    case UserTypeScreen => JoinedPath("auth", "user-type", "auth/user-type");
  }

  lemma OnboardingTargetPath(t: Target)
    requires t.OnboardingStart? || t.HelperProfileScreen? || t.BusinessProfileScreen? || t.OnboardingLocation?
    ensures CurrentPath(SegmentsOf(t)) == PathOf(t)
  {
    match t
    case OnboardingStart => JoinedPath("onboarding", "start", "onboarding/start");
    case HelperProfileScreen => JoinedPath("onboarding", "helper-profile", "onboarding/helper-profile");
    case BusinessProfileScreen => JoinedPath("onboarding", "business-profile", "onboarding/business-profile");
    case OnboardingLocation => JoinedPath("onboarding", "location", "onboarding/location");
  }

  /** How the guard sees each target's own route. */
  lemma TargetRoute(t: Target)
    ensures !IsAtRoot(SegmentsOf(t)) && !IsPublicRoute(SegmentsOf(t))
    ensures IsOnAuthScreen(SegmentsOf(t)) <==> t == PhoneLogin || t == UserTypeScreen
    ensures CurrentPath(SegmentsOf(t)) == "auth/otp-verify" <==> t == OtpVerify
    ensures CurrentPath(SegmentsOf(t)) == "auth/user-type" <==> t == UserTypeScreen
    ensures InAuthGroup(SegmentsOf(t)) <==> t != Tabs
    ensures SegmentsOf(t)[0] == "onboarding" <==>
      t in {OnboardingStart, HelperProfileScreen, BusinessProfileScreen, OnboardingLocation}
  {
    TargetPath(t);
    var p := PathOf(t);
    assert p[0] == (if t == Tabs then '(' else if InAuthGroup(SegmentsOf(t)) && SegmentsOf(t)[0] == "auth" then 'a' else 'o');
    assert |p| != 5 && |p| != 4 && |p| != 7;
  }

  /** Every redirect lands on a screen where the guard either stays quiet or
      repeats the same target; it never bounces the user on elsewhere. */
  lemma RedirectSettles(user: Option<Auth.Record>, segments: seq<string>)
    requires Guard(false, user, segments).Some?
    ensures var t := Guard(false, user, segments).value;
      Guard(false, user, SegmentsOf(t)) == None || Guard(false, user, SegmentsOf(t)) == Some(t)
  {
    var t := Guard(false, user, segments).value;
    TargetRoute(t);
  }

  /** The one target that repeats itself: a verified user without a type is
      sent from the user-type screen to the user-type screen, because that
      screen counts as an auth screen and that branch comes first. */
  lemma UserTypeScreenRedirectsToItself(u: Auth.Record)
    requires !Unverified(u) && !Truthy(FieldOf(u, "userType"))
    ensures Guard(false, Some(u), SegmentsOf(UserTypeScreen)) == Some(UserTypeScreen)
  {
    assert CurrentPath(["auth", "user-type"]) == "auth/user-type";
  }

  /** The message fragments the handler treats as browser-extension noise. */
  const SuppressedFragments: seq<string> := [
    "content_script.js",
    "Cannot read properties of undefined",
    "reading 'control'",
    "ControlLooksLikePasswordCredentialField",
    "ControlClaimsToBeUsernameViaAutocompleteAttribute",
    "ControlLooksLikeOneTimeCodeField",
    "ControlUniqueID",
    "ControlIsLabeledUsernameField"
  ]

  predicate MentionsFragment(message: string) {
    exists i :: 0 <= i < |SuppressedFragments| && Strings.Contains(message, SuppressedFragments[i])
  }

  /** The `window.onerror` test: a string message that holds one of the
      fragments, or (still only for a string message) a source that
      mentions `content_script.js`. */
  predicate IsSuppressed(message: Value, source: Option<string>)
    ensures IsSuppressed(message, source) ==> message.Str?
    ensures message.Str? && MentionsFragment(message.s) ==> IsSuppressed(message, source)
  {
    message.Str? &&
    (MentionsFragment(message.s) || (source.Some? && Strings.Contains(source.value, "content_script.js")))
  }

  /** What the replaced `window.onerror` returns: `true` for a suppressed
      error, else the original handler's answer, else `false`. */
  function OnError(message: Value, source: Option<string>, original: Option<bool>): (r: bool)
    ensures IsSuppressed(message, source) ==> r
    ensures !IsSuppressed(message, source) ==> r == original.GetOr(false)
  {
    if IsSuppressed(message, source) then true
    else original.GetOr(false)
  }

  /** A message naming the content script is suppressed, wherever it came from. */
  lemma ContentScriptMessageSuppressed(message: string, source: Option<string>)
    requires Strings.Contains(message, "content_script.js")
    ensures OnError(Str(message), source, Some(false))
  {
    assert Strings.Contains(message, SuppressedFragments[0]);
  }

  /** A message that is not a string goes to the original handler even when
      the source is the content script. */
  lemma NonStringMessageNotSuppressed(message: Value, original: bool)
    requires !message.Str?
    ensures OnError(message, Some("content_script.js"), Some(original)) == original
  {
  }
}
