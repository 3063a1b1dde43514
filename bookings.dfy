/**
 * `app/profile/bookings.tsx`: which service requests a user sees as
 * bookings, the three status tabs, the search box and the status badge.
 */
module Bookings {
  import opened Wrappers
  import opened Js
  import Strings
  import ListOps
  import opened AppState
  import Auth

  datatype Tab = ActiveTab | CompletedTab | CancelledTab

  /** `user?.userType === 'user'`. */
  predicate IsCustomer(user: Option<Auth.Record>) {
    user.Some? && FieldOf(user.value, "userType") == Str("user")
  }

  /** `user?.id || ''`, the id the applicant lists are searched for. */
  function ApplicantKey(user: Option<Auth.Record>): Value {
    Or(if user.Some? then FieldOf(user.value, "id") else Undefined, Str(""))
  }

  /** `r.applicants?.includes(key)`: strict equality with one entry. */
  predicate AppliedBy(r: ServiceRequest, key: Value) {
    key.Str? && key.s in r.applicants
  }

  /** Whether a request is one of the user's bookings. */
  predicate IsBooking(user: Option<Auth.Record>, r: ServiceRequest) {
    if IsCustomer(user) then Str(r.userId) == FieldOf(user.value, "id")
    else AppliedBy(r, ApplicantKey(user)) && r.status != Open
  }

  /** `getBookings`: a customer's own requests; for anyone else the requests
      they applied to that are no longer open. */
  function GetBookings(user: Option<Auth.Record>, requests: seq<ServiceRequest>): (r: seq<ServiceRequest>)
    ensures forall b :: b in r <==> b in requests && IsBooking(user, b)
    ensures IsCustomer(user) ==> forall b :: b in r ==> Str(b.userId) == FieldOf(user.value, "id")
    ensures !IsCustomer(user) ==> forall b :: b in r ==> b.status != Open
  {
    ListOps.Filter(requests, b => IsBooking(user, b))
  }

  function TabStatus(t: Tab): Status {
    match t
    case ActiveTab => InProgress
    case CompletedTab => Completed
    case CancelledTab => Cancelled
  }

  /** One tab's bucket: the bookings with that tab's status. */
  function Bucket(bookings: seq<ServiceRequest>, t: Tab): (r: seq<ServiceRequest>)
    ensures forall b :: b in r <==> b in bookings && b.status == TabStatus(t)
  {
    ListOps.Filter(bookings, (b: ServiceRequest) => b.status == TabStatus(t))
  }

  /** No booking sits in two tabs. */
  lemma BucketsDisjoint(bookings: seq<ServiceRequest>, t: Tab, u: Tab, b: ServiceRequest)
    requires t != u
    ensures !(b in Bucket(bookings, t) && b in Bucket(bookings, u))
  {
  }

  /** A booking matches the query when one of the three texts contains it,
      both sides lower-cased. The query is not trimmed here. */
  predicate Matches(b: ServiceRequest, query: string) {
    var q := Strings.ToLower(query);
    Strings.Contains(Strings.ToLower(b.serviceName), q)
    || Strings.Contains(Strings.ToLower(b.description), q)
    || Strings.Contains(Strings.ToLower(b.location), q)
  }

  /** `getFilteredBookings`: the selected bucket, searched only when the
      trimmed query is non-empty. */
  function FilteredBookings(bookings: seq<ServiceRequest>, t: Tab, query: string): (r: seq<ServiceRequest>)
    ensures Strings.IsBlank(query) ==> r == Bucket(bookings, t)
    ensures !Strings.IsBlank(query) ==>
      forall b :: b in r <==> b in Bucket(bookings, t) && Matches(b, query)
  {
    var bucket := Bucket(bookings, t);
    if Strings.Trim(query) != "" then ListOps.Filter(bucket, b => Matches(b, query)) else bucket
  }

  /** What the tab shows keeps the order of the request list. */
  lemma FilteredIsSubsequence(bookings: seq<ServiceRequest>, t: Tab, query: string)
    ensures ListOps.IsSubsequence(FilteredBookings(bookings, t, query), Bucket(bookings, t))
    ensures ListOps.IsSubsequence(Bucket(bookings, t), bookings)
  {
    ListOps.FilterSubsequence(bookings, (b: ServiceRequest) => b.status == TabStatus(t));
    if Strings.Trim(query) != "" {
      ListOps.FilterSubsequence(Bucket(bookings, t), b => Matches(b, query));
    } else {
      SubsequenceRefl(Bucket(bookings, t));
    }
  }

  lemma {:induction false} SubsequenceRefl(s: seq<ServiceRequest>)
    ensures ListOps.IsSubsequence(s, s)
  {
    if s != [] {
      SubsequenceRefl(s[1..]);
    }
  }

  /** The badge text: only `in_progress` and `completed` have their own. */
  function StatusLabel(s: Status): (r: string)
    ensures s.InProgress? <==> r == "Active"
    ensures s.Completed? <==> r == "Completed"
    ensures s.Open? || s.Cancelled? <==> r == "Cancelled"
  {
    match s
    case InProgress => "Active"
    case Completed => assert "Completed"[1] != "Cancelled"[1]; "Completed"
    case _ => "Cancelled"
  }

  /** An open request never appears under a helper's or business's tabs. */
  lemma OpenRequestNotBookedByApplicant(user: Option<Auth.Record>, requests: seq<ServiceRequest>, r: ServiceRequest)
    requires !IsCustomer(user) && r.status == Open
    ensures r !in GetBookings(user, requests)
  {
  }
}
