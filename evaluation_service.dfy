/**
 * The evaluation service (evaluation/evaluation_service.py): creating an
 * evaluation record with its BERTScore, adding a manual rating to a record,
 * showing a record, and evaluating a generated answer against the reference
 * answer of a stored Stack Overflow question.
 *
 * The `answer_evaluations` table is a class whose map from id to record the
 * methods update; the database assigns increasing ids. A failing commit is an
 * input (`fault`), and timestamps are integers passed in.
 */
module EvaluationService {
  import opened Wrappers
  import opened GraphUtils
  import Text
  import Answers
  import BertEvaluation

  const DefaultGraphType := "adaptive_rag"

  /** The column default of `bert_model_type`. */
  const DefaultBertModel := "bert-base-uncased"

  const RatingError := "Rating must be between 1 and 5"

  /** A row of `answer_evaluations`; old rows may hold a null `graph_type`. */
  datatype Evaluation = Evaluation(
    id: int,
    sessionId: string,
    questionText: string,
    soQuestionId: Option<int>,
    graphType: Option<string>,
    executionId: Option<int>,
    generated: string,
    reference: Option<string>,
    bertPrecision: Option<real>,
    bertRecall: Option<real>,
    bertF1: Option<real>,
    bertModelType: string,
    manualRating: Option<int>,
    manualComment: Option<string>,
    evaluatorName: Option<string>,
    modelConfig: Metadata,
    processingTimeMs: Option<int>,
    confidenceScore: Option<real>,
    createdAt: int,
    evaluatedAt: Option<int>)

  /** The arguments of `evaluate_generated_answer`. */
  datatype Request = Request(
    sessionId: string,
    questionText: string,
    generated: string,
    reference: Option<string>,
    soQuestionId: Option<int>,
    graphType: Option<string>,
    executionId: Option<int>,
    modelConfig: Option<Metadata>,
    processingTimeMs: Option<int>)

  /** `graph_type or "adaptive_rag"`: both `None` and "" take the default. */
  function GraphTypeOr(graphType: Option<string>): (r: string)
    ensures r != ""
    ensures graphType.Some? && graphType.value != "" ==> r == graphType.value
  {
    if graphType.None? || graphType.value == "" then DefaultGraphType else graphType.value
  }

  /** Applying the default twice changes nothing, and a given graph type is kept. */
  lemma GraphTypeOrIdempotent(graphType: Option<string>)
    ensures GraphTypeOr(Some(GraphTypeOr(graphType))) == GraphTypeOr(graphType)
    ensures GraphTypeOr(graphType) == DefaultGraphType <==> graphType.None? || graphType.value in {"", DefaultGraphType}
  {
  }

  /** `reference_answer and reference_answer.strip()`. */
  predicate HasReference(reference: Option<string>)
  {
    reference.Some? && Text.Strip(reference.value) != ""
  }

  /**
   * The record `evaluate_generated_answer` adds, before the database gives it
   * `id` and `createdAt`; `scored` is what the scorer returns for the pair.
   */
  function NewRecord(req: Request, svc: BertEvaluation.Service, scored: Option<BertEvaluation.Scores>, id: int, createdAt: int): (e: Evaluation)
    ensures e.id == id && e.createdAt == createdAt
    ensures e.graphType == Some(GraphTypeOr(req.graphType))
    ensures req.modelConfig.Some? ==> e.modelConfig == req.modelConfig.value
    ensures req.modelConfig.None? ==> e.modelConfig == map[]
    ensures e.bertF1.Some? <==>
              (req.reference.Some? && !Text.IsBlank(req.reference.value)
               && svc.available && !Text.IsBlank(req.generated) && scored.Some?)
    ensures e.bertF1.Some? ==> e.bertF1 == Some(scored.value.f1) && e.bertPrecision == Some(scored.value.precision)
                               && e.bertRecall == Some(scored.value.recall) && e.bertModelType == svc.modelType
    ensures e.bertF1.None? ==> e.bertPrecision.None? && e.bertRecall.None? && e.bertModelType == DefaultBertModel
    ensures e.manualRating.None? && e.evaluatedAt.None?
  {
    Text.StripEmptyIffBlank(req.reference.GetOr(""));
    var bert :=
      if HasReference(req.reference)
      then BertEvaluation.EvaluateAnswer(svc, req.generated, req.reference.value, scored)
      else None;
    Evaluation(
      id, req.sessionId, req.questionText, req.soQuestionId, Some(GraphTypeOr(req.graphType)),
      req.executionId, req.generated, req.reference,
      if bert.Some? then Some(bert.value.precision) else None,
      if bert.Some? then Some(bert.value.recall) else None,
      if bert.Some? then Some(bert.value.f1) else None,
      if bert.Some? then bert.value.modelType else DefaultBertModel,
      None, None, None,
      req.modelConfig.GetOr(map[]), req.processingTimeMs, None, createdAt, None)
  }

  /** The fields `add_manual_evaluation` assigns; the rest of the record is kept. */
  function Rated(e: Evaluation, rating: int, comment: Option<string>, evaluator: Option<string>, now: int): (r: Evaluation)
    ensures r.manualRating == Some(rating) && r.manualComment == comment && r.evaluatorName == evaluator
    ensures r.evaluatedAt == Some(now)
    ensures r.(manualRating := e.manualRating, manualComment := e.manualComment,
               evaluatorName := e.evaluatorName, evaluatedAt := e.evaluatedAt) == e
  {
    e.(manualRating := Some(rating), manualComment := comment, evaluatorName := evaluator, evaluatedAt := Some(now))
  }

  // ------------------------------------------------------------ how a record is shown

  datatype BertView = BertView(precision: Option<real>, recall: Option<real>, f1: real, modelType: string, interpretation: string)

  datatype ManualView = ManualView(rating: int, comment: Option<string>, evaluatorName: Option<string>, evaluatedAt: Option<int>)

  /** The dictionary `get_evaluation` returns. */
  datatype View = View(
    id: int,
    sessionId: string,
    questionText: string,
    generated: string,
    reference: Option<string>,
    soQuestionId: Option<int>,
    bertScores: Option<BertView>,
    manual: Option<ManualView>,
    modelConfig: Metadata,
    processingTimeMs: Option<int>,
    createdAt: int)

  /**
   * A record as `get_evaluation` shows it: the BERT block only when `bert_f1`
   * is truthy, so an F1 of exactly 0.0 shows no block, and the manual block
   * only when the rating is truthy.
   */
  function Show(e: Evaluation): (v: View)
    ensures v.bertScores.Some? <==> e.bertF1.Some? && e.bertF1.value != 0.0
    ensures v.bertScores.Some? ==> v.bertScores.value.f1 == e.bertF1.value
                                   && v.bertScores.value.interpretation == BertEvaluation.Interpretation(e.bertF1.value)
    ensures v.manual.Some? <==> e.manualRating.Some? && e.manualRating.value != 0
    ensures v.manual.Some? ==> v.manual.value.rating == e.manualRating.value
    ensures v.id == e.id && v.generated == e.generated && v.reference == e.reference
  {
    View(
      e.id, e.sessionId, e.questionText, e.generated, e.reference, e.soQuestionId,
      if e.bertF1.Some? && e.bertF1.value != 0.0
      then Some(BertView(e.bertPrecision, e.bertRecall, e.bertF1.value, e.bertModelType,
                         BertEvaluation.Interpretation(e.bertF1.value)))
      else None,
      if e.manualRating.Some? && e.manualRating.value != 0
      then Some(ManualView(e.manualRating.value, e.manualComment, e.evaluatorName, e.evaluatedAt))
      else None,
      e.modelConfig, e.processingTimeMs, e.createdAt)
  }

  /** A rating added through `add_manual_evaluation` is shown back unchanged. */
  lemma RatingShownBack(e: Evaluation, rating: int, comment: Option<string>, evaluator: Option<string>, now: int)
    requires 1 <= rating <= 5
    ensures Show(Rated(e, rating, comment, evaluator, now)).manual == Some(ManualView(rating, comment, evaluator, Some(now)))
    ensures Show(Rated(e, rating, comment, evaluator, now)).bertScores == Show(e).bertScores
  {
  }

  /**
   * A new record shows a BERT block exactly when a score was computed and its
   * F1 is not 0.0, and never shows a manual block.
   */
  lemma NewRecordShown(req: Request, svc: BertEvaluation.Service, scored: Option<BertEvaluation.Scores>, id: int, createdAt: int)
    ensures var v := Show(NewRecord(req, svc, scored, id, createdAt));
            && (v.bertScores.Some? <==> HasReference(req.reference) && svc.available && !Text.IsBlank(req.generated)
                                        && scored.Some? && scored.value.f1 != 0.0)
            && v.manual.None?
  {
    Text.StripEmptyIffBlank(req.reference.GetOr(""));
  }

  // ------------------------------------------------------------ the table

  class EvaluationTable {
    var records: map<int, Evaluation>
    /** The id the database gives the next record. */
    var nextId: int

    ghost predicate Valid()
      reads this
    {
      nextId >= 1 && forall id :: id in records ==> 1 <= id < nextId && records[id].id == id
    }

    constructor()
      ensures Valid() && records == map[] && nextId == 1
    {
      records := map[];
      nextId := 1;
    }

    /**
     * `evaluate_generated_answer`: adds `NewRecord` under a fresh id, or
     * raises when the commit fails, leaving the table as it was.
     */
    method EvaluateGeneratedAnswer(req: Request, svc: BertEvaluation.Service, scored: Option<BertEvaluation.Scores>, now: int, fault: bool)
      returns (r: Result<Evaluation>)
      requires Valid()
      modifies this
      ensures Valid()
      ensures fault ==> r.Err? && records == old(records) && nextId == old(nextId)
      ensures !fault ==> r == Ok(NewRecord(req, svc, scored, old(nextId), now))
                         && old(nextId) !in old(records)
                         && records == old(records)[old(nextId) := r.value] && nextId == old(nextId) + 1
    {
      if fault {
        return Err("database error");
      }
      var e := NewRecord(req, svc, scored, nextId, now);
      records := records[nextId := e];
      nextId := nextId + 1;
      return Ok(e);
    }

    /**
     * `add_manual_evaluation`: a rating outside 1..5 raises before the table
     * is read; a missing record or a failing commit gives `false`; otherwise
     * the record is rated and the answer is `true`.
     */
    method AddManualEvaluation(id: int, rating: int, comment: Option<string>, evaluator: Option<string>, now: int, fault: bool)
      returns (r: Result<bool>)
      requires Valid()
      modifies this
      ensures Valid() && nextId == old(nextId)
      ensures rating < 1 || rating > 5 ==> r == Err(RatingError) && records == old(records)
      ensures 1 <= rating <= 5 ==> r.Ok?
      ensures r == Ok(true) <==> 1 <= rating <= 5 && id in old(records) && !fault
      ensures r == Ok(true) ==> records == old(records)[id := Rated(old(records)[id], rating, comment, evaluator, now)]
      ensures r != Ok(true) ==> records == old(records)
    {
      if rating < 1 || rating > 5 {
        return Err(RatingError);
      }
      if id !in records || fault {
        return Ok(false);
      }
      records := records[id := Rated(records[id], rating, comment, evaluator, now)];
      return Ok(true);
    }

    /** `get_evaluation`: the shown record, or `None` when there is none. */
    function GetEvaluation(id: int): (v: Option<View>)
      reads this
      ensures v.Some? <==> id in records
      ensures v.Some? ==> v.value == Show(records[id])
    {
      if id in records then Some(Show(records[id])) else None
    }

    /**
     * `evaluate_stackoverflow_answer_with_reference`: `question` is what the
     * connector finds for `questionId`. The reference is the connector's
     * best answer; the new record's id is returned, or `None` when the
     * question is missing or the commit fails.
     */
    method EvaluateWithReference(questionId: int, question: Option<QuestionData>, generated: string, sessionId: string,
                                 modelConfig: Option<Metadata>, svc: BertEvaluation.Service,
                                 scored: Option<BertEvaluation.Scores>, now: int, fault: bool)
      returns (r: Option<int>)
      requires Valid()
      modifies this
      ensures Valid()
      ensures question.None? || fault ==> r.None? && records == old(records)
      ensures question.Some? && !fault ==>
                && r == Some(old(nextId))
                && records == old(records)[old(nextId) := NewRecord(ReferenceRequest(questionId, question.value, generated, sessionId, modelConfig),
                                                                     svc, scored, old(nextId), now)]
    {
      if question.None? {
        return None;
      }
      var req := ReferenceRequest(questionId, question.value, generated, sessionId, modelConfig);
      var e := EvaluateGeneratedAnswer(req, svc, scored, now, fault);
      if e.Err? {
        return None;
      }
      return Some(e.value.id);
    }
  }

  /** The question as the connector returns it: its title and its answers. */
  datatype QuestionData = QuestionData(title: string, answers: seq<Answers.Answer>)

  /** The first accepted answer's body, else the first top-scored one's, else `None`. */
  function ReferenceAnswer(answers: seq<Answers.Answer>): (r: Option<string>)
    ensures r.None? <==> answers == []
  {
    match Answers.BestAnswer(answers)
    case None => None
    case Some(a) => Some(a.body)
  }

  /** The reference is the body of the answer the choice rule of `Answers` picks. */
  lemma ReferenceAnswerChoice(answers: seq<Answers.Answer>) returns (i: nat)
    requires answers != []
    ensures i < |answers| && ReferenceAnswer(answers) == Some(answers[i].body)
    ensures (exists j :: 0 <= j < |answers| && answers[j].isAccepted) ==>
              answers[i].isAccepted && forall j :: 0 <= j < i ==> !answers[j].isAccepted
    ensures (forall j :: 0 <= j < |answers| ==> !answers[j].isAccepted) ==>
              && (forall j :: 0 <= j < |answers| ==> answers[j].Score() <= answers[i].Score())
              && (forall j :: 0 <= j < i ==> answers[j].Score() < answers[i].Score())
  {
    i := Answers.BestAnswerChoice(answers);
  }

  /** The request the reference evaluation makes: default graph type, no execution, no timing. */
  function ReferenceRequest(questionId: int, question: QuestionData, generated: string, sessionId: string,
                            modelConfig: Option<Metadata>): (req: Request)
    ensures req.soQuestionId == Some(questionId) && req.questionText == question.title
    ensures req.reference == ReferenceAnswer(question.answers)
    ensures req.graphType.None? && req.executionId.None? && req.processingTimeMs.None?
  {
    Request(sessionId, question.title, generated, ReferenceAnswer(question.answers), Some(questionId),
            None, None, modelConfig, None)
  }
}
