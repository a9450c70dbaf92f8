/** From the classifier's class probabilities to the `flight_risk` percentage.
    The classifier itself is not part of this model: its fitted classes and
    its per-row probabilities are inputs. */
module Prediction {
  import opened Categories

  /** numpy's `round(0)`: to the nearest integer, ties to the even one. The
      two contract clauses pin the result down uniquely. */
  function RoundHalfEven(x: real): (r: int)
    ensures -0.5 <= x - r as real <= 0.5
    ensures (x - r as real == 0.5 || r as real - x == 0.5) ==> r % 2 == 0
  {
    var f := x.Floor;
    var frac := x - f as real;
    if frac < 0.5 then f
    else if frac > 0.5 then f + 1
    else if f % 2 == 0 then f else f + 1
  }

  /** `classes_` of a classifier fitted on 0/1 labels: the labels it saw in
      training, ascending. A training split in which every row has the same
      label gives a single class. */
  predicate FittedClasses(classes: seq<int>) {
    classes == [0] || classes == [1] || classes == [0, 1]
  }

  /** One row of `predict_proba`: a probability per fitted class, in the
      order of `classes_`. */
  predicate ProbabilityRow(classes: seq<int>, probs: seq<real>) {
    |probs| == |classes| && forall j :: 0 <= j < |probs| ==> 0.0 <= probs[j] <= 1.0
  }

  /** As written: `(proba[:, -1] * 100).round(0)`, the last column, whichever
      class it belongs to. */
  function FlightRiskAsWritten(probs: seq<real>): (r: int)
    requires |probs| > 0
    ensures -0.5 <= probs[|probs| - 1] * 100.0 - r as real <= 0.5
  {
    RoundHalfEven(probs[|probs| - 1] * 100.0)
  }

  /** The probability of label 1 (the employee leaves): the column of class 1,
      or 0 when the classifier never saw that label. */
  function LeaveProbability(classes: seq<int>, probs: seq<real>): (p: real)
    requires FittedClasses(classes) && ProbabilityRow(classes, probs)
    ensures 0.0 <= p <= 1.0
    ensures forall j :: 0 <= j < |classes| && classes[j] == 1 ==> p == probs[j]
    ensures 1 !in classes ==> p == 0.0
  {
    if classes[|classes| - 1] == 1 then probs[|probs| - 1] else 0.0
  }

  /** The flight risk as intended: the probability of leaving as a whole
      percentage, rounded half to even, within 0..100. */
  function FlightRisk(classes: seq<int>, probs: seq<real>): (r: int)
    requires FittedClasses(classes) && ProbabilityRow(classes, probs)
    ensures 0 <= r <= 100
    ensures -0.5 <= LeaveProbability(classes, probs) * 100.0 - r as real <= 0.5
  {
    RoundHalfEven(LeaveProbability(classes, probs) * 100.0)
  }

  /** Whenever the classifier saw label 1, the last column is that label's and
      the code as written gives the intended flight risk. */
  lemma AsWrittenAgreesWhenLeaversSeen(classes: seq<int>, probs: seq<real>)
    requires FittedClasses(classes) && ProbabilityRow(classes, probs) && 1 in classes
    ensures FlightRiskAsWritten(probs) == FlightRisk(classes, probs)
  {
  }

  /** When every training row has label 0 the classifier knows one class, and
      its single probability column (1.0 for every row) is the probability of
      staying. The code as written reads it as the probability of leaving: the
      row scores 100 and is labelled "High Risk" instead of 0 and "Low Risk". */
  lemma AsWrittenInvertsSingleClass(probs: seq<real>)
    requires ProbabilityRow([0], probs) && probs[0] == 1.0
    ensures FlightRiskAsWritten(probs) == 100
    ensures LabelRisk(FlightRiskAsWritten(probs) as real) == HIGH
    ensures FlightRisk([0], probs) == 0
    ensures LabelRisk(FlightRisk([0], probs) as real) == LOW
  {
  }
}
