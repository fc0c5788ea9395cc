/**
 * BERTScore evaluation of generated answers (evaluation/bert_evaluation.py):
 * the guards around the scorer, the batch over answer pairs and the verbal
 * grade of an F1 score. Scores are reals. The scorer itself is an oracle:
 * for each call it either returns the mean precision, recall and F1, or
 * raises, which the service turns into `None`.
 */
module BertEvaluation {
  import opened Wrappers
  import Text

  /** `BERTScoreResult`. */
  datatype ScoreResult = ScoreResult(precision: real, recall: real, f1: real, modelType: string)

  /** What one call of the scorer returned: the three means. */
  datatype Scores = Scores(precision: real, recall: real, f1: real)

  /**
   * The service: `available` is false when the `bert_score` package is
   * missing, in which case no scorer was built.
   */
  datatype Service = Service(available: bool, modelType: string)

  const LengthMismatch := "Generated and reference answer lists must have same length"

  /**
   * `evaluate_answer`: `scored` is what the scorer returns for this pair,
   * `None` when it raises. A result exists exactly when the service is
   * available, neither answer is blank and the scorer succeeded.
   */
  function EvaluateAnswer(svc: Service, generated: string, reference: string, scored: Option<Scores>): (r: Option<ScoreResult>)
    ensures r.Some? <==> svc.available && !Text.IsBlank(generated) && !Text.IsBlank(reference) && scored.Some?
    ensures r.Some? ==> r.value.modelType == svc.modelType
    ensures r.Some? ==> r.value.f1 == scored.value.f1 && r.value.precision == scored.value.precision
                        && r.value.recall == scored.value.recall
  {
    Text.StripEmptyIffBlank(generated);
    Text.StripEmptyIffBlank(reference);
    if !svc.available then None
    else if Text.Strip(generated) == "" || Text.Strip(reference) == "" then None
    else match scored
      case None => None
      case Some(s) => Some(ScoreResult(s.precision, s.recall, s.f1, svc.modelType))
  }

  /**
   * `batch_evaluate`: a list of `None` per generated answer when the service
   * is unavailable (whatever the references), an error for lists of
   * different lengths, otherwise one result per pair in order; `scorer(i)`
   * is what the scorer returns for pair `i`.
   */
  method BatchEvaluate(svc: Service, generated: seq<string>, references: seq<string>, scorer: nat -> Option<Scores>)
    returns (r: Result<seq<Option<ScoreResult>>>)
    ensures !svc.available ==> r.Ok? && |r.value| == |generated| && forall i :: 0 <= i < |r.value| ==> r.value[i].None?
    ensures svc.available && |generated| != |references| ==> r == Err(LengthMismatch)
    ensures svc.available && |generated| == |references| ==>
              && r.Ok? && |r.value| == |generated|
              && forall i :: 0 <= i < |generated| ==>
                   r.value[i] == EvaluateAnswer(svc, generated[i], references[i], scorer(i))
  {
    if !svc.available {
      return Ok(seq(|generated|, _ => None));
    }
    if |generated| != |references| {
      return Err(LengthMismatch);
    }
    var results: seq<Option<ScoreResult>> := [];
    var i := 0;
    while i < |generated|
      invariant 0 <= i <= |generated|
      invariant |results| == i
      invariant forall k :: 0 <= k < i ==> results[k] == EvaluateAnswer(svc, generated[k], references[k], scorer(k))
    {
      results := results + [EvaluateAnswer(svc, generated[i], references[i], scorer(i))];
      i := i + 1;
    }
    return Ok(results);
  }

  // ------------------------------------------------------------ interpretation

  /** The grades from worst to best. */
  const Grades: seq<string> := ["Very Poor", "Poor", "Fair", "Good", "Very Good", "Excellent"]

  /** The lower bounds of the grades above "Very Poor", ascending. */
  const Thresholds: seq<real> := [0.5, 0.6, 0.7, 0.8, 0.9]

  /** `get_score_interpretation`. */
  function Interpretation(f1: real): (r: string)
    ensures r in Grades
  {
    if f1 >= 0.9 then "Excellent"
    else if f1 >= 0.8 then "Very Good"
    else if f1 >= 0.7 then "Good"
    else if f1 >= 0.6 then "Fair"
    else if f1 >= 0.5 then "Poor"
    else "Very Poor"
  }

  /** How many of the bounds `ts` the score reaches. */
  function Reached(f1: real, ts: seq<real>): (n: nat)
    ensures n <= |ts|
  {
    if ts == [] then 0 else Reached(f1, ts[..|ts| - 1]) + (if f1 >= ts[|ts| - 1] then 1 else 0)
  }

  /** The grade is the one whose index is the number of thresholds the score reaches. */
  lemma InterpretationByThresholds(f1: real)
    ensures Interpretation(f1) == Grades[Reached(f1, Thresholds)]
  {
    var t := Thresholds;
    var p1, p2, p3, p4 := [0.5], [0.5, 0.6], [0.5, 0.6, 0.7], [0.5, 0.6, 0.7, 0.8];
    assert Reached(f1, p1) == (if f1 >= 0.5 then 1 else 0) by { assert p1[..0] == []; }
    assert Reached(f1, p2) == Reached(f1, p1) + (if f1 >= 0.6 then 1 else 0) by { assert p2[..1] == p1; }
    assert Reached(f1, p3) == Reached(f1, p2) + (if f1 >= 0.7 then 1 else 0) by { assert p3[..2] == p2; }
    assert Reached(f1, p4) == Reached(f1, p3) + (if f1 >= 0.8 then 1 else 0) by { assert p4[..3] == p3; }
    assert Reached(f1, t) == Reached(f1, p4) + (if f1 >= 0.9 then 1 else 0) by { assert t[..4] == p4; }
  }

  /** A higher score reaches at least as many of the bounds. */
  lemma {:induction false} ReachedMonotone(a: real, b: real, ts: seq<real>)
    requires a <= b
    ensures Reached(a, ts) <= Reached(b, ts)
  {
    if ts != [] {
      ReachedMonotone(a, b, ts[..|ts| - 1]);
    }
  }

  /** A higher F1 score never gets a worse grade. */
  lemma InterpretationMonotone(a: real, b: real)
    requires a <= b
    ensures exists i, j :: 0 <= i <= j < |Grades| && Interpretation(a) == Grades[i] && Interpretation(b) == Grades[j]
  {
    InterpretationByThresholds(a);
    InterpretationByThresholds(b);
    ReachedMonotone(a, b, Thresholds);
    var i, j := Reached(a, Thresholds), Reached(b, Thresholds);
    assert 0 <= i <= j < |Grades| && Interpretation(a) == Grades[i] && Interpretation(b) == Grades[j];
  }
}
