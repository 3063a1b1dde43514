/**
 * `components/ui/stepper.tsx`: how each step circle, label and connector of
 * the onboarding stepper is classified.
 */
module Stepper {
  import Strings

  datatype StepView = StepView(number: int, active: bool, completed: bool, text: string, connectorCompleted: bool, hasConnector: bool)

  /** `stepLabels[index] || `Step ${n}``: a missing or empty label falls back. */
  function Label(labels: seq<string>, index: nat): (r: string)
    ensures index < |labels| && labels[index] != "" ==> r == labels[index]
    ensures !(index < |labels| && labels[index] != "") ==> r == "Step " + Strings.IntToString(index + 1)
  {
    if index < |labels| && labels[index] != "" then labels[index] else "Step " + Strings.IntToString(index + 1)
  }

  /** The step at `index` (0-based); its number is `index + 1`. */
  function View(current: int, total: int, labels: seq<string>, index: nat): (r: StepView)
    ensures r.number == index + 1
    ensures r.active <==> index + 1 == current
    ensures r.completed <==> index + 1 < current
    ensures r.hasConnector <==> index < total - 1
    ensures r.connectorCompleted <==> r.completed
  {
    var n := index + 1;
    StepView(n, n == current, n < current, Label(labels, index), n < current, index < total - 1)
  }

  /** `Array.from({ length: totalSteps })`: a negative count draws nothing. */
  function Steps(current: int, total: int, labels: seq<string>): (r: seq<StepView>)
    ensures |r| == if total < 0 then 0 else total
    ensures forall i :: 0 <= i < |r| ==> r[i] == View(current, total, labels, i)
  {
    var count := if total < 0 then 0 else total;
    seq(count, i requires 0 <= i < count => View(current, total, labels, i))
  }

  /** At most one step is active, and none is both active and completed. */
  lemma AtMostOneActive(current: int, total: int, labels: seq<string>)
    ensures var r := Steps(current, total, labels);
      forall i, j :: 0 <= i < |r| && 0 <= j < |r| && r[i].active && r[j].active ==> i == j
    ensures var r := Steps(current, total, labels);
      forall i :: 0 <= i < |r| ==> !(r[i].active && r[i].completed)
  {
  }

  /** There is one connector fewer than steps: every step but the last has
      one, and it is drawn completed exactly when its step is. */
  lemma ConnectorCount(current: int, total: int, labels: seq<string>)
    requires total >= 1
    ensures var r := Steps(current, total, labels);
      forall i :: 0 <= i < |r| ==> (r[i].hasConnector <==> i != |r| - 1)
  {
  }
}
