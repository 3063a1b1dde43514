/**
 * `app/index.tsx`: the root screen shows a spinner while the user loads,
 * then redirects through a chain of early returns.
 */
module IndexRedirect {
  import opened Wrappers
  import opened Js
  import Auth
  import RootLayout

  datatype Screen = Spinner | Redirect(target: RootLayout.Target)

  function Index(isLoading: bool, user: Option<Auth.Record>): (r: Screen)
    ensures isLoading <==> r == Spinner
    ensures !isLoading && user.None? ==> r == Redirect(RootLayout.PhoneLogin)
    ensures !isLoading && user.Some? && RootLayout.Unverified(user.value) ==> r == Redirect(RootLayout.OtpVerify)
    ensures !isLoading && user.Some? && !RootLayout.Unverified(user.value) ==>
      r == Redirect(RootLayout.HomeFor(user.value))
  {
    if isLoading then Spinner
    else match user
      case None => Redirect(RootLayout.PhoneLogin)
      case Some(u) =>
        if FieldOf(u, "isVerified") == Bool(false) then Redirect(RootLayout.OtpVerify)
        else if !Truthy(FieldOf(u, "userType")) then Redirect(RootLayout.UserTypeScreen)
        else if FieldOf(u, "onboardingStatus") != Str("completed") then Redirect(RootLayout.OnboardingStart)
        else Redirect(RootLayout.Tabs)
  }

  /** The checks in order: no user, unverified, no type, onboarding not
      finished; past all of them the tabs. Exactly one target results. */
  lemma IndexOrder(u: Auth.Record)
    ensures var r := Index(false, Some(u));
      r.Redirect?
      && (r.target == RootLayout.OtpVerify <==> RootLayout.Unverified(u))
      && (r.target == RootLayout.UserTypeScreen <==> !RootLayout.Unverified(u) && !Truthy(FieldOf(u, "userType")))
      && (r.target == RootLayout.Tabs <==>
            !RootLayout.Unverified(u) && Truthy(FieldOf(u, "userType")) && RootLayout.Completed(u))
  {
  }

  /** At the root, for a signed-in user, the layout guard sends the user
      where this screen does. */
  lemma AgreesWithGuard(u: Auth.Record, segments: seq<string>)
    requires RootLayout.IsAtRoot(segments)
    ensures RootLayout.Guard(false, Some(u), segments) == Some(Index(false, Some(u)).target)
  {
    if RootLayout.Unverified(u) {
      assert RootLayout.CurrentPath(segments) != "auth/otp-verify" by {
        if segments == [] {
          assert RootLayout.CurrentPath(segments) == "";
        } else {
          assert RootLayout.CurrentPath(segments) == "index";
        }
      }
    }
  }

  /** Signed out at the root, the guard lets the user stay and this screen
      sends them to login. */
  lemma SignedOutAtRoot(segments: seq<string>)
    requires RootLayout.IsAtRoot(segments)
    ensures RootLayout.Guard(false, None, segments) == None
    ensures Index(false, None) == Redirect(RootLayout.PhoneLogin)
  {
  }
}
