/**
 * `app/onboarding/add-workers.tsx`: a business builds its roster of workers
 * one form at a time. The roster and the eight form fields are state the
 * handlers update in place. Worker ids (`Date.now().toString()`) are passed in.
 */
module AddWorkers {
  import Strings
  import ListOps

  datatype Worker = Worker(
    id: string,
    name: string,
    phoneNumber: string,
    cnic: string,
    serviceType: string,
    age: string,
    gender: string,
    religion: string,
    languages: seq<string>)

  /** A worker that `handleAddWorker` can have produced: its three
      required fields are non-empty. */
  predicate Complete(w: Worker) {
    w.name != "" && w.phoneNumber != "" && w.cnic != ""
  }

  /** The label of the completion button; there is no button for an empty
      roster. */
  function CompleteLabel(count: nat): (r: string)
    requires count > 0
  {
    "Complete Setup (" + Strings.NatToString(count) + " worker" + (if count > 1 then "s" else "") + ")"
  }

  /** One worker reads "worker", more read "workers". */
  lemma CompleteLabels()
    ensures CompleteLabel(1) == "Complete Setup (1 worker)"
    ensures CompleteLabel(2) == "Complete Setup (2 workers)"
  {
    assert Strings.NatToString(1) == "1";
    assert Strings.NatToString(2) == "2";
  }

  /** For every roster size: the label ends in "workers)" exactly when
      there is more than one worker, and reads "1 worker" exactly when there
      is one. */
  lemma CompleteLabelNoun(count: nat)
    requires count > 0
    ensures |CompleteLabel(count)| >= 8
    ensures CompleteLabel(count)[|CompleteLabel(count)| - 8..] == "workers)" <==> count > 1
    ensures CompleteLabel(count) == "Complete Setup (1 worker)" <==> count == 1
  {
    var d := Strings.NatToString(count);
    var l := CompleteLabel(count);
    if count > 1 {
      var front := "Complete Setup (" + d + " ";
      assert l == front + "workers)";
      assert l[|l| - 8..] == "workers)";
    } else {
      assert d == "1";
      assert l == "Complete Setup (1 worker)";
      assert l[|l| - 2] == 'r';
    }
  }

  predicate AllComplete(ws: seq<Worker>) {
    forall i :: 0 <= i < |ws| ==> Complete(ws[i])
  }

  lemma AppendComplete(ws: seq<Worker>, w: Worker)
    requires AllComplete(ws) && Complete(w)
    ensures AllComplete(ws + [w])
  {
    assert forall i :: 0 <= i < |ws| ==> (ws + [w])[i] == ws[i];
  }

  datatype AddOutcome = NameRequired | PhoneRequired | CnicRequired | Added

  /** The alert each outcome shows. */
  function Alert(o: AddOutcome): string {
    match o
    case NameRequired => "Worker name is required"
    case PhoneRequired => "Phone number is required"
    case CnicRequired => "CNIC number is required"
    case Added => "Worker added successfully"
  }

  /** The eight form fields at one moment. */
  datatype Draft = Draft(
    name: string,
    phoneNumber: string,
    cnic: string,
    serviceType: string,
    age: string,
    gender: string,
    religion: string,
    languages: seq<string>)

  const EmptyDraft: Draft := Draft("", "", "", "", "", "", "", [])

  /** The checks of `handleAddWorker`, in source order. */
  function Check(d: Draft): (r: AddOutcome)
    ensures r == NameRequired <==> Strings.IsBlank(d.name)
    ensures r == PhoneRequired <==> !Strings.IsBlank(d.name) && Strings.IsBlank(d.phoneNumber)
    ensures r == CnicRequired <==> !Strings.IsBlank(d.name) && !Strings.IsBlank(d.phoneNumber) && Strings.IsBlank(d.cnic)
    ensures r == Added <==> !Strings.IsBlank(d.name) && !Strings.IsBlank(d.phoneNumber) && !Strings.IsBlank(d.cnic)
  {
    if Strings.Trim(d.name) == "" then NameRequired
    else if Strings.Trim(d.phoneNumber) == "" then PhoneRequired
    else if Strings.Trim(d.cnic) == "" then CnicRequired
    else Added
  }

  /** `newWorker`: the text fields trimmed, the choices as they are. A
      draft that passes the checks gives a complete worker. */
  function NewWorker(d: Draft, id: string): (r: Worker)
    ensures Check(d) == Added ==> Complete(r)
  {
    Worker(id, Strings.Trim(d.name), Strings.Trim(d.phoneNumber), Strings.Trim(d.cnic), Strings.Trim(d.serviceType),
           Strings.Trim(d.age), d.gender, d.religion, d.languages)
  }

  /** A cleared form is refused at the first check. */
  lemma EmptyDraftRefused()
    ensures Check(EmptyDraft) == NameRequired
  {
  }

  class Roster {
    var workers: seq<Worker>
    var name: string
    var phoneNumber: string
    var cnic: string
    var serviceType: string
    var age: string
    var gender: string
    var religion: string
    var selectedLanguages: seq<string>

    /** Every worker on the roster came through the checks. */
    predicate Valid()
      reads this
    {
      AllComplete(workers)
    }

    function Snapshot(): Draft
      reads this
    {
      Draft(name, phoneNumber, cnic, serviceType, age, gender, religion, selectedLanguages)
    }

    constructor()
      ensures Valid() && workers == [] && Snapshot() == EmptyDraft
    {
      workers := [];
      name, phoneNumber, cnic, serviceType, age := "", "", "", "", "";
      gender, religion, selectedLanguages := "", "", [];
    }

    /** `toggleLanguage`: only the language selection changes. */
    method ToggleLanguage(languageName: string)
      modifies this
      ensures workers == old(workers)
      ensures Snapshot() == old(Snapshot()).(languages := ListOps.Toggle(old(selectedLanguages), languageName))
    {
      if languageName in selectedLanguages {
        selectedLanguages := ListOps.Remove(selectedLanguages, languageName);
      } else {
        selectedLanguages := selectedLanguages + [languageName];
      }
    }

    /** `handleAddWorker`: the first failed check changes nothing; a
        passing form adds one worker at the end and is cleared. */
    method HandleAddWorker(id: string) returns (outcome: AddOutcome)
      requires Valid()
      modifies this
      ensures Valid()
      ensures outcome == Check(old(Snapshot()))
      ensures outcome != Added ==> workers == old(workers) && Snapshot() == old(Snapshot())
      ensures outcome == Added ==>
        workers == old(workers) + [NewWorker(old(Snapshot()), id)] && Snapshot() == EmptyDraft
    {
      var draft := Snapshot();
      outcome := Check(draft);
      if outcome != Added {
        return;
      }
      var worker := NewWorker(draft, id);
      AppendComplete(workers, worker);
      workers := workers + [worker];
      ClearForm();
    }

    /** The eight setters that clear the form after an add. */
    method ClearForm()
      modifies this
      ensures workers == old(workers) && Snapshot() == EmptyDraft
    {
      name := "";
      phoneNumber := "";
      cnic := "";
      serviceType := "";
      age := "";
      gender := "";
      religion := "";
      selectedLanguages := [];
    }

    /** `handleRemoveWorker`: every worker with that id goes; the others
        keep their order. */
    method HandleRemoveWorker(id: string)
      requires Valid()
      modifies this
      ensures Valid()
      ensures workers == ListOps.Filter(old(workers), (w: Worker) => w.id != id)
      ensures forall w :: w in workers ==> w.id != id
      ensures forall w :: w in old(workers) && w.id != id ==> w in workers
      ensures Snapshot() == old(Snapshot())
    {
      workers := ListOps.Filter(workers, (w: Worker) => w.id != id);
    }
  }
}
