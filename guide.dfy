/**
 * `app/guide.tsx`: the introductory slides. The slide set depends on who is
 * signed in, "Next" walks through it, and the last step (or "Skip") routes
 * on. Completion first awaits the auth context's `completeGuide`, which the
 * context as it stands does not provide; the call then throws and nothing is
 * routed. Its presence is a parameter here. Swiping sets the index from a
 * scroll offset (floating point) and is left out.
 */
module Guide {
  import opened Wrappers
  import opened Js
  import Strings
  import Auth

  /** One slide; its image and description are left out. */
  datatype Slide = Slide(id: string, title: string, isLast: bool)

  const CustomerSlides: seq<Slide> := [
    Slide("1", "Welcome to Kamwaalay", false),
    Slide("2", "Find Helpers", false),
    Slide("3", "Post a Job", false),
    Slide("4", "Ready to start?", true)]

  const WorkerSlides: seq<Slide> := [
    Slide("1", "Your journey to better work starts here", false),
    Slide("2", "Find Work Near You", false),
    Slide("3", "Apply in One Tap", false),
    Slide("4", "Start Earning Today", true)]

  const BusinessSlides: seq<Slide> := [
    Slide("1", "Manage Your Business", false),
    Slide("2", "Add Your Team", false),
    Slide("3", "Track Applications", false),
    Slide("4", "Grow Your Business", true)]

  const IntroSlides: seq<Slide> := [
    Slide("1", "Welcome to Kamwaalay", false),
    Slide("2", "Find Work or Manage Teams", false),
    Slide("3", "Hire with Confidence", false),
    Slide("4", "Ready to join Kamwaalay?", true)]

  /** Exactly the last slide of a set is marked as last. */
  predicate LastMarked(slides: seq<Slide>) {
    |slides| > 0 && forall i :: 0 <= i < |slides| ==> (slides[i].isLast <==> i == |slides| - 1)
  }

  /** Who the guide is for. */
  datatype Audience = Guest | Worker | Business | Customer

  /** `user?.userType?.toLowerCase()` compared with `'helper'` and
      `'business'`; a missing user is a guest. */
  function AudienceOf(user: Option<Auth.Record>): (r: Audience)
    ensures r == Guest <==> user.None?
    ensures r == Worker <==>
      (user.Some? && FieldOf(user.value, "userType").Str?
       && Strings.ToLower(FieldOf(user.value, "userType").s) == "helper")
    ensures r == Business <==>
      (user.Some? && FieldOf(user.value, "userType").Str?
       && Strings.ToLower(FieldOf(user.value, "userType").s) == "business")
  {
    if user.None? then Guest
    else
      var t := FieldOf(user.value, "userType");
      if t.Str? && Strings.ToLower(t.s) == "helper" then Worker
      else if t.Str? && Strings.ToLower(t.s) == "business" then Business
      else Customer
  }

  /** `activeSlides`. */
  function ActiveSlides(a: Audience): (r: seq<Slide>)
    ensures |r| == 4 && LastMarked(r)
    ensures r == IntroSlides <==> a == Guest
    ensures r == WorkerSlides <==> a == Worker
    ensures r == BusinessSlides <==> a == Business
    ensures r == CustomerSlides <==> a == Customer
  {
    match a
    case Guest => IntroSlides
    case Worker => WorkerSlides
    case Business => BusinessSlides
    case Customer => CustomerSlides
  }

  /** The type is compared case-insensitively: "Helper" gets the worker
      slides. */
  lemma TypeCaseIgnored(u: Auth.Record)
    requires FieldOf(u, "userType") == Str("Helper")
    ensures ActiveSlides(AudienceOf(Some(u))) == WorkerSlides
  {
    var lower := Strings.ToLower("Helper");
    assert lower[0] == 'h' && lower[1..] == "elper";
    assert lower == "helper";
  }

  /** The main button's text on slide `index`. */
  function ButtonLabel(a: Audience, index: int): (r: string)
    ensures index != |ActiveSlides(a)| - 1 ==> r == "Next"
    ensures index == |ActiveSlides(a)| - 1 ==> (r == "Get Started" <==> a == Customer)
    ensures index == |ActiveSlides(a)| - 1 ==> (r == "Start Onboarding" <==> a != Customer)
  {
    if index == |ActiveSlides(a)| - 1 then
      (if a == Guest then "Start Onboarding" else if a == Worker || a == Business then "Start Onboarding" else "Get Started")
    else "Next"
  }

  datatype Route = Signup | HelperProfile | Start | BusinessProfile | Tabs

  /** `handleComplete`'s destination; `None` when `completeGuide` is
      missing and its call throws before any redirect. */
  function CompletionRoute(user: Option<Auth.Record>, hasCompleteGuide: bool): (r: Option<Route>)
    ensures !hasCompleteGuide <==> r.None?
    ensures hasCompleteGuide && user.None? ==> r == Some(Signup)
    ensures hasCompleteGuide && AudienceOf(user) == Worker ==>
      r == Some(if FieldOf(user.value, "onboardingStatus") == Str("completed") then HelperProfile else Start)
    ensures hasCompleteGuide && AudienceOf(user) == Business ==> r == Some(BusinessProfile)
    ensures hasCompleteGuide && AudienceOf(user) == Customer ==> r == Some(Tabs)
  {
    if !hasCompleteGuide then None
    else
      match AudienceOf(user)
      case Guest => Some(Signup)
      case Worker => Some(if FieldOf(user.value, "onboardingStatus") == Str("completed") then HelperProfile else Start)
      case Business => Some(BusinessProfile)
      case Customer => Some(Tabs)
  }

  /** The current slide of the screen. */
  class GuideScreen {
    const audience: Audience
    var currentSlideIndex: int

    predicate Valid()
      reads this
    {
      0 <= currentSlideIndex < |ActiveSlides(audience)|
    }

    constructor(user: Option<Auth.Record>)
      ensures audience == AudienceOf(user) && currentSlideIndex == 0 && Valid()
    {
      audience := AudienceOf(user);
      currentSlideIndex := 0;
    }

    /** `handleNext`: advance while there is a next slide; on the last one
        complete instead, leaving the index. */
    method HandleNext() returns (completes: bool)
      requires Valid()
      modifies this
      ensures Valid()
      ensures completes <==> old(currentSlideIndex) == |ActiveSlides(audience)| - 1
      ensures completes ==> currentSlideIndex == old(currentSlideIndex)
      ensures !completes ==> currentSlideIndex == old(currentSlideIndex) + 1
    {
      var nextIndex := currentSlideIndex + 1;
      if nextIndex < |ActiveSlides(audience)| {
        currentSlideIndex := nextIndex;
        completes := false;
      } else {
        completes := true;
      }
    }
  }

  /** The button reads "Next" exactly on the slides where pressing it
      advances. */
  lemma LabelMatchesNext(a: Audience, index: int)
    requires 0 <= index < |ActiveSlides(a)|
    ensures ButtonLabel(a, index) == "Next" <==> index + 1 < |ActiveSlides(a)|
  {
  }
}
