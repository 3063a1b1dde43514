/**
 * `contexts/AppContext.tsx`: the in-memory list of service requests, which
 * each operation replaces by a new list. Ids and timestamps (`Date.now()`)
 * are passed in; the storage mirror is left out.
 */
module AppState {
  import opened Wrappers

  datatype Status = Open | InProgress | Completed | Cancelled

  /** A request. Its budget is the text `parseFloat` reads (floating point
      is not modelled), `None` when it is `undefined`. */
  datatype ServiceRequest = ServiceRequest(
    id: string,
    userId: string,
    userName: string,
    serviceName: string,
    description: string,
    location: string,
    budget: Option<string>,
    status: Status,
    createdAt: string,
    applicants: seq<string>)

  /** What a screen passes to `addServiceRequest`: a request without
      `id`, `createdAt`, `status` and `applicants`. */
  datatype RequestData = RequestData(
    userId: string,
    userName: string,
    serviceName: string,
    description: string,
    location: string,
    budget: Option<string>)

  /** The request `addServiceRequest` builds: open, with no applicants. */
  function NewRequest(data: RequestData, id: string, createdAt: string): (r: ServiceRequest)
    ensures r.status == Open && r.applicants == [] && r.id == id && r.createdAt == createdAt
    ensures r.userId == data.userId && r.userName == data.userName && r.serviceName == data.serviceName
      && r.description == data.description && r.location == data.location && r.budget == data.budget
  {
    ServiceRequest(id, data.userId, data.userName, data.serviceName, data.description, data.location,
                   data.budget, Open, createdAt, [])
  }

  /** One request after `applicantId` applied to `requestId`. */
  function ApplyOne(req: ServiceRequest, requestId: string, applicantId: string): (r: ServiceRequest)
    ensures r.(applicants := req.applicants) == req
    ensures req.id == requestId ==> r.applicants == req.applicants + [applicantId]
    ensures req.id != requestId ==> r == req
  {
    if req.id == requestId then req.(applicants := req.applicants + [applicantId]) else req
  }

  /** `applyToServiceRequest`'s new list: every request with that id gets
      the applicant appended (no deduplication); the rest stay as they are. */
  function Apply(requests: seq<ServiceRequest>, requestId: string, applicantId: string): (r: seq<ServiceRequest>)
    ensures |r| == |requests|
    ensures forall i :: 0 <= i < |r| && requests[i].id == requestId ==>
      r[i] == requests[i].(applicants := requests[i].applicants + [applicantId])
    ensures forall i :: 0 <= i < |r| && requests[i].id != requestId ==> r[i] == requests[i]
  {
    seq(|requests|, i requires 0 <= i < |requests| => ApplyOne(requests[i], requestId, applicantId))
  }

  /** An id that no request has leaves the list unchanged. */
  lemma ApplyUnknownId(requests: seq<ServiceRequest>, requestId: string, applicantId: string)
    requires forall i :: 0 <= i < |requests| ==> requests[i].id != requestId
    ensures Apply(requests, requestId, applicantId) == requests
  {
  }

  /** Applying twice lists the applicant twice. */
  lemma ApplyTwice(requests: seq<ServiceRequest>, requestId: string, applicantId: string)
    ensures var r := Apply(Apply(requests, requestId, applicantId), requestId, applicantId);
      forall i :: 0 <= i < |r| && requests[i].id == requestId ==>
        r[i].applicants == requests[i].applicants + [applicantId, applicantId]
  {
    var once := Apply(requests, requestId, applicantId);
    var r := Apply(once, requestId, applicantId);
    forall i | 0 <= i < |r| && requests[i].id == requestId
      ensures r[i].applicants == requests[i].applicants + [applicantId, applicantId]
    {
      assert once[i].id == requestId;
      assert requests[i].applicants + [applicantId] + [applicantId] == requests[i].applicants + [applicantId, applicantId];
    }
  }

  /** Applying never changes which requests there are or their order: only
      applicant lists grow. */
  lemma ApplyKeepsIds(requests: seq<ServiceRequest>, requestId: string, applicantId: string)
    ensures var r := Apply(requests, requestId, applicantId);
      forall i :: 0 <= i < |r| ==>
        r[i].(applicants := []) == requests[i].(applicants := []) && requests[i].applicants <= r[i].applicants
  {
  }

  class Store {
    var serviceRequests: seq<ServiceRequest>

    constructor()
      ensures serviceRequests == []
    {
      serviceRequests := [];
    }

    /** `addServiceRequest`: exactly one request goes at the end. */
    method AddServiceRequest(data: RequestData, id: string, createdAt: string)
      modifies this
      ensures serviceRequests == old(serviceRequests) + [NewRequest(data, id, createdAt)]
    {
      serviceRequests := serviceRequests + [NewRequest(data, id, createdAt)];
    }

    method ApplyToServiceRequest(requestId: string, applicantId: string)
      modifies this
      ensures serviceRequests == Apply(old(serviceRequests), requestId, applicantId)
    {
      serviceRequests := Apply(serviceRequests, requestId, applicantId);
    }

    method GetServiceRequests() returns (r: seq<ServiceRequest>)
      ensures r == serviceRequests
    {
      r := serviceRequests;
    }
  }
}
