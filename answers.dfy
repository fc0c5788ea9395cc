/**
 * Choosing the reference answer of a Stack Overflow question. Three places
 * make the same choice (services/stackoverflow_connector.py `_get_best_answer`,
 * services/batch_query_service.py `_get_reference_answer` and
 * evaluation/evaluation_service.py): the first accepted answer, or else the
 * first answer of highest score, which is what both `max` by score and the
 * head of a stable descending sort by score pick.
 */
module Answers {
  import opened Wrappers

  /** An answer as the connector returns it; `score` is `None` when the key is missing. */
  datatype Answer = Answer(body: string, score: Option<int>, isAccepted: bool)
  {
    /** `a.get("score", 0)`. */
    function Score(): int
    {
      score.GetOr(0)
    }
  }

  /** Index of the first accepted answer, if any. */
  function FirstAccepted(answers: seq<Answer>): (r: Option<nat>)
    ensures r.Some? ==> r.value < |answers| && answers[r.value].isAccepted
    ensures r.Some? ==> forall j :: 0 <= j < r.value ==> !answers[j].isAccepted
    ensures r.None? <==> forall j :: 0 <= j < |answers| ==> !answers[j].isAccepted
  {
    if answers == [] then None
    else if answers[0].isAccepted then Some(0)
    else match FirstAccepted(answers[1..])
      case None => None
      case Some(i) => Some(i + 1)
  }

  /** Index of the first answer of highest score. */
  function TopScored(answers: seq<Answer>): (r: nat)
    requires answers != []
    ensures r < |answers|
    ensures forall j :: 0 <= j < |answers| ==> answers[j].Score() <= answers[r].Score()
    ensures forall j :: 0 <= j < r ==> answers[j].Score() < answers[r].Score()
  {
    if |answers| == 1 then 0
    else
      var t := TopScored(answers[1..]) + 1;
      if answers[0].Score() >= answers[t].Score() then 0 else t
  }

  /** Position of the reference answer: the first accepted one, else the first top-scored one. */
  function BestIndex(answers: seq<Answer>): (r: Option<nat>)
    ensures r.None? <==> answers == []
    ensures r.Some? ==> r.value < |answers|
  {
    if answers == [] then None
    else match FirstAccepted(answers)
      case Some(i) => Some(i)
      case None => Some(TopScored(answers))
  }

  /** The reference answer: `None` without answers. */
  function BestAnswer(answers: seq<Answer>): (r: Option<Answer>)
    ensures r.None? <==> answers == []
    ensures r.Some? ==> r.value in answers
  {
    match BestIndex(answers)
    case None => None
    case Some(i) => Some(answers[i])
  }

  /**
   * The choice, stated by position: the chosen answer is accepted and no
   * earlier one is, or none is accepted and it has the highest score and
   * every earlier answer scores strictly lower.
   */
  lemma BestAnswerChoice(answers: seq<Answer>) returns (i: nat)
    requires answers != []
    ensures i < |answers| && BestIndex(answers) == Some(i) && BestAnswer(answers) == Some(answers[i])
    ensures (exists j :: 0 <= j < |answers| && answers[j].isAccepted) ==>
              answers[i].isAccepted && forall j :: 0 <= j < i ==> !answers[j].isAccepted
    ensures (forall j :: 0 <= j < |answers| ==> !answers[j].isAccepted) ==>
              && (forall j :: 0 <= j < |answers| ==> answers[j].Score() <= answers[i].Score())
              && (forall j :: 0 <= j < i ==> answers[j].Score() < answers[i].Score())
  {
    match FirstAccepted(answers)
    case Some(k) => i := k;
    case None => i := TopScored(answers);
  }

  /** The positional description determines the choice: at most one index meets it. */
  lemma BestAnswerUnique(answers: seq<Answer>, i: nat, k: nat)
    requires i < |answers| && k < |answers|
    requires forall j :: 0 <= j < |answers| ==> !answers[j].isAccepted
    requires forall j :: 0 <= j < |answers| ==> answers[j].Score() <= answers[i].Score() && answers[j].Score() <= answers[k].Score()
    requires forall j :: 0 <= j < i ==> answers[j].Score() < answers[i].Score()
    requires forall j :: 0 <= j < k ==> answers[j].Score() < answers[k].Score()
    ensures i == k
  {
    assert answers[i].Score() == answers[k].Score();
  }

  /** An accepted answer wins over a higher-scored one. */
  lemma AcceptedPreferred()
    ensures BestAnswer([Answer("High score", Some(100), false), Answer("Accepted", Some(50), true)]).value.body == "Accepted"
  {
  }

  /** Without an accepted answer the highest score wins, wherever it stands. */
  lemma HighestScoreFallback()
    ensures BestAnswer([Answer("Low score", Some(5), false), Answer("High score", Some(100), false)]).value.body == "High score"
  {
    var a := [Answer("Low score", Some(5), false), Answer("High score", Some(100), false)];
    assert FirstAccepted(a[1..]) == None;
    assert a[1..][0].Score() == 100;
  }
}
