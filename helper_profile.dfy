/**
 * `app/onboarding/helper-profile.tsx`: the three-step helper onboarding
 * screen, its step counter and the profile it submits.
 */
module HelperProfile {
  import opened Wrappers
  import opened Js
  import Auth
  import ServiceOffer

  /** The step counter; `handleNext`/`handleBack` keep it in [1, 3]. */
  class Steps {
    var currentStep: int

    predicate Valid()
      reads this
    {
      1 <= currentStep <= 3
    }

    constructor()
      ensures Valid() && currentStep == 1
    {
      currentStep := 1;
    }

    method HandleNext()
      requires Valid()
      modifies this
      ensures Valid()
      ensures currentStep == if old(currentStep) < 3 then old(currentStep) + 1 else 3
    {
      if currentStep < 3 {
        currentStep := currentStep + 1;
      }
    }

    method HandleBack()
      requires Valid()
      modifies this
      ensures Valid()
      ensures currentStep == if old(currentStep) > 1 then old(currentStep) - 1 else 1
    {
      if currentStep > 1 {
        currentStep := currentStep - 1;
      }
    }
  }

  datatype StepScreen = ServiceOfferStep | VerificationStep | CompleteProfileStep

  /** `renderStep`: any step outside 1..3 renders nothing. */
  function Screen(step: int): (r: Option<StepScreen>)
    ensures r.Some? <==> 1 <= step <= 3
  {
    if step == 1 then Some(ServiceOfferStep)
    else if step == 2 then Some(VerificationStep)
    else if step == 3 then Some(CompleteProfileStep)
    else None
  }

  /** `loc.area || loc.name`. */
  function LocationLabel(l: ServiceOffer.Location): (r: Value)
    ensures Truthy(l.area) ==> r == l.area
    ensures !Truthy(l.area) ==> r == l.name
  {
    Or(l.area, l.name)
  }

  function LocationLabels(locs: seq<ServiceOffer.Location>): (r: seq<Value>)
    ensures |r| == |locs| && forall i :: 0 <= i < |locs| ==> r[i] == LocationLabel(locs[i])
  {
    seq(|locs|, i requires 0 <= i < |locs| => LocationLabel(locs[i]))
  }

  /** One offering per selected service type. `stamp` stands for
      `Date.now()`; `parseFloat` is a parameter. */
  function Offering(offer: ServiceOffer.ServiceOfferData, serviceType: string, stamp: string, parseFloat: string -> Value): (r: Value)
    ensures r.Obj? && r.fields.Keys == {"id", "serviceName", "category", "description", "price", "priceUnit", "locations"}
    ensures Prop(r, "id") == Str(serviceType + "-" + stamp)
    ensures Prop(r, "serviceName") == Str(serviceType) && Prop(r, "category") == Str(serviceType)
    ensures Prop(r, "description") == Str(offer.description)
    ensures Prop(r, "priceUnit") == Str("month") && Prop(r, "locations") == Arr(LocationLabels(offer.locations))
    ensures Prop(r, "price") == if offer.monthlyRate == "" then Undefined else parseFloat(offer.monthlyRate)
  {
    Obj(map[
      "id" := Str(serviceType + "-" + stamp),
      "serviceName" := Str(serviceType),
      "category" := Str(serviceType),
      "description" := Str(offer.description),
      "price" := (if offer.monthlyRate != "" then parseFloat(offer.monthlyRate) else Undefined),
      "priceUnit" := Str("month"),
      "locations" := Arr(LocationLabels(offer.locations))])
  }

  /** Offerings made in one submission share the time stamp, so their ids
      tell the service types apart. */
  lemma OfferingIdsDistinct(offer: ServiceOffer.ServiceOfferData, a: string, b: string, stamp: string, parseFloat: string -> Value)
    requires a != b
    ensures Prop(Offering(offer, a, stamp, parseFloat), "id") != Prop(Offering(offer, b, stamp, parseFloat), "id")
  {
    var ia, ib := a + "-" + stamp, b + "-" + stamp;
    assert ia[..|a|] == a && ib[..|b|] == b;
  }

  function Offerings(offer: ServiceOffer.ServiceOfferData, stamp: string, parseFloat: string -> Value): (r: seq<Value>)
    ensures |r| == |offer.serviceTypes|
    ensures forall i :: 0 <= i < |r| ==> r[i] == Offering(offer, offer.serviceTypes[i], stamp, parseFloat)
  {
    seq(|offer.serviceTypes|, i requires 0 <= i < |offer.serviceTypes| => Offering(offer, offer.serviceTypes[i], stamp, parseFloat))
  }

  /** What `handleSubmit` produces: the error alert, or the helper profile
      handed to `completeOnboarding`. */
  datatype Submission = NameRequired | Submit(profile: Auth.Record)

  function HandleSubmit(user: Option<Auth.Record>, offer: ServiceOffer.ServiceOfferData, experience: string, bio: string,
                        stamp: string, parseFloat: string -> Value): (r: Submission)
    ensures r == NameRequired <==> user.None? || !Truthy(FieldOf(user.value, "name"))
    ensures r.Submit? ==>
      r.profile.Keys == {"name", "email", "bio", "experience", "serviceOfferings", "locations"}
      && FieldOf(r.profile, "name") == FieldOf(user.value, "name")
      && FieldOf(r.profile, "email") == FieldOf(user.value, "email")
      && FieldOf(r.profile, "bio") == Str(bio) && FieldOf(r.profile, "experience") == Str(experience)
      && FieldOf(r.profile, "locations") == Arr(LocationLabels(offer.locations))
      && FieldOf(r.profile, "serviceOfferings") == Arr(Offerings(offer, stamp, parseFloat))
      && "userType" !in r.profile && "ownerName" !in r.profile
  {
    if user.None? || !Truthy(FieldOf(user.value, "name")) then NameRequired
    else
      var u := user.value;
      Submit(map[
        "name" := FieldOf(u, "name"),
        "email" := FieldOf(u, "email"),
        "bio" := Str(bio),
        "experience" := Str(experience),
        "serviceOfferings" := Arr(Offerings(offer, stamp, parseFloat)),
        "locations" := Arr(LocationLabels(offer.locations))])
  }

  /** The submitted profile keeps the helper's name through the corrected
      `completeOnboarding`, and loses it through the one as written. */
  lemma SubmitThroughCompleteOnboarding(user: Auth.Record, offer: ServiceOffer.ServiceOfferData, experience: string, bio: string,
                                        stamp: string, parseFloat: string -> Value)
    requires Truthy(FieldOf(user, "name"))
    ensures var s := HandleSubmit(Some(user), offer, experience, bio, stamp, parseFloat);
      s.Submit?
      && FieldOf(Auth.AfterCompleteOnboarding(Some(user), s.profile).value, "name") == FieldOf(user, "name")
      && FieldOf(Auth.AfterCompleteOnboardingAsWritten(Some(user), s.profile).value, "name") == Undefined
  {
  }
}
