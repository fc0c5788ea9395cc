/**
 * The batch query service (services/batch_query_service.py): every question
 * is run through every requested graph type, question by question, each run
 * is rated against the question's reference answer when there is one, and a
 * summary counts the runs by status. The question store, the graph service
 * and the evaluation service are parameters (`Services`); the database
 * session, timestamps and processing times are left out.
 */
module BatchQuery {
  import opened Wrappers
  import opened GraphUtils
  import Schemas
  import GraphService
  import Answers
  import Batching

  /** A stored question as `get_question_by_id` returns it; `body` is `None` when the column is null. */
  datatype Question = Question(title: string, body: Option<string>, stackOverflowId: int, answers: seq<Answers.Answer>)

  /** The text given to the graph: the title, then a blank line and the body when the body is non-empty. */
  function FullQuestion(q: Question): (s: string)
    ensures q.title <= s
    ensures s == q.title <==> q.body.GetOr("") == ""
    ensures q.body.GetOr("") != "" ==> |s| == |q.title| + 2 + |q.body.value|
    ensures q.body.GetOr("") != "" ==> s[|q.title|..|q.title| + 2] == "\n\n" && s[|q.title| + 2..] == q.body.value
  {
    if q.body.GetOr("") != "" then q.title + "\n\n" + q.body.value else q.title
  }

  /** `_get_reference_answer`: the body of the best answer, `None` without answers. */
  function ReferenceAnswer(q: Question): (r: Option<string>)
    ensures r.None? <==> q.answers == []
    ensures r.Some? ==> exists a :: a in q.answers && a.body == r.value
  {
    match Answers.BestAnswer(q.answers)
    case None => None
    case Some(a) => Some(a.body)
  }

  /** The arguments of one `execute_query` call. */
  datatype Execution = Execution(
    question: string,
    graphType: Schemas.GraphType,
    retrieverType: Schemas.RetrieverType,
    collectionIds: Option<seq<int>>,
    modelConfig: Option<map<string, Value>>)

  /**
   * The call for one run: the pure-LLM graph gets neither a retriever type
   * (so the default, pdf) nor the collections; the RAG graphs get the Stack
   * Overflow retriever and the collections as given.
   */
  function ExecutionFor(full: string, g: Schemas.GraphType, collectionIds: Option<seq<int>>,
                        modelConfig: Option<map<string, Value>>): (e: Execution)
    ensures e.question == full && e.graphType == g && e.modelConfig == modelConfig
    ensures g.PureLlm? ==> e.retrieverType.PdfRetriever? && e.collectionIds.None?
    ensures !g.PureLlm? ==> e.retrieverType.StackOverflowRetriever? && e.collectionIds == collectionIds
  {
    if g.PureLlm? then Execution(full, g, Schemas.PdfRetriever, None, modelConfig)
    else Execution(full, g, Schemas.StackOverflowRetriever, collectionIds, modelConfig)
  }

  /** The arguments of one `evaluate_generated_answer` call. */
  datatype EvalRequest = EvalRequest(
    question: string,
    generated: string,
    reference: string,
    stackOverflowId: int,
    graphType: string,
    modelConfig: Option<map<string, Value>>)

  /** The stored evaluation: its id and its BERT columns, each possibly null. */
  datatype Evaluation = Evaluation(
    id: int,
    precision: Option<real>,
    recall: Option<real>,
    f1: Option<real>,
    modelType: Option<string>)

  /**
   * The services a batch calls; a raised exception is an `Err`. The question
   * lookup answers `None` for an unknown id, or raises.
   */
  datatype Services = Services(
    lookup: int -> Result<Option<Question>>,
    execute: Execution -> Result<GraphService.QueryResult>,
    evaluate: EvalRequest -> Result<Evaluation>)

  datatype Status = Success | Failed | Skipped
  {
    function Value(): string
    {
      match this
      case Success => "success"
      case Failed => "failed"
      case Skipped => "skipped"
    }
  }

  datatype BertScore = BertScore(precision: real, recall: real, f1: real, modelType: Option<string>)

  /** The BERT score and evaluation id a run reports. */
  datatype Scored = Scored(bert: Option<BertScore>, evaluationId: Option<int>)

  /** One run's record, without its timestamp and processing time. */
  datatype RunResult = RunResult(
    questionId: int,
    title: string,
    body: Option<string>,
    stackOverflowId: Option<int>,
    graphType: string,
    status: Status,
    errorMessage: Option<string>,
    graph: Option<GraphService.QueryResult>,
    referenceAnswer: Option<string>,
    scored: Scored)

  const NotFound: string := "Question not found in database"
  const Unknown: string := "Unknown"

  /**
   * The rating step of a generated answer. The evaluation service is called
   * only for a non-empty reference answer; a BERT score is reported only when
   * all three of its values were stored; a failing evaluation reports nothing.
   */
  function Evaluate(svc: Services, q: Question, full: string, g: Schemas.GraphType, generated: string,
                    modelConfig: Option<map<string, Value>>): (s: Scored)
    ensures s.bert.Some? ==> s.evaluationId.Some?
    ensures ReferenceAnswer(q).GetOr("") == "" ==> s == Scored(None, None)
    ensures ReferenceAnswer(q).GetOr("") != "" ==>
              var ev := svc.evaluate(EvalRequest(full, generated, ReferenceAnswer(q).value, q.stackOverflowId, g.Value(), modelConfig));
              && (s.evaluationId.Some? <==> ev.Ok?)
              && (ev.Ok? ==> s.evaluationId.value == ev.value.id)
              && (s.bert.Some? <==> ev.Ok? && ev.value.precision.Some? && ev.value.recall.Some? && ev.value.f1.Some?)
              && (s.bert.Some? ==> s.bert.value.f1 == ev.value.f1.value)
  {
    match ReferenceAnswer(q)
    case None => Scored(None, None)
    case Some(reference) =>
      if reference == "" then Scored(None, None)
      else match svc.evaluate(EvalRequest(full, generated, reference, q.stackOverflowId, g.Value(), modelConfig))
        case Err(_) => Scored(None, None)
        case Ok(ev) =>
          var bert := if ev.precision.Some? && ev.recall.Some? && ev.f1.Some?
                      then Some(BertScore(ev.precision.value, ev.recall.value, ev.f1.value, ev.modelType))
                      else None;
          Scored(bert, Some(ev.id))
  }

  /**
   * `_process_single_question`: a question that is not found is skipped, a
   * graph that raises makes the run failed, and any other run succeeds
   * whatever its rating step does. Only the question lookup raises out of it.
   */
  function ProcessSingle(svc: Services, questionId: int, g: Schemas.GraphType, collectionIds: Option<seq<int>>,
                         modelConfig: Option<map<string, Value>>): (r: Result<RunResult>)
    ensures r.Err? <==> svc.lookup(questionId).Err?
    ensures r.Err? ==> r.error == svc.lookup(questionId).error
    ensures r.Ok? ==> r.value.questionId == questionId && r.value.graphType == g.Value()
    ensures r.Ok? ==> (r.value.status.Skipped? <==> svc.lookup(questionId) == Ok(None))
    ensures r.Ok? && r.value.status.Skipped? ==> r.value.title == Unknown && r.value.errorMessage == Some(NotFound)
    ensures svc.lookup(questionId).Ok? && svc.lookup(questionId).value.Some? ==>
              var q := svc.lookup(questionId).value.value;
              var run := svc.execute(ExecutionFor(FullQuestion(q), g, collectionIds, modelConfig));
              && r.Ok?
              && r.value.title == q.title && r.value.body == q.body && r.value.stackOverflowId == Some(q.stackOverflowId)
              && (r.value.status.Failed? <==> run.Err?)
              && (r.value.status.Success? ==> r.value.graph == Some(run.value) && r.value.referenceAnswer == ReferenceAnswer(q))
    ensures r.Ok? && !r.value.status.Success? ==>
              r.value.errorMessage.Some? && r.value.graph.None? && r.value.scored == Scored(None, None)
  {
    match svc.lookup(questionId)
    case Err(e) => Err(e)
    case Ok(None) =>
      Ok(RunResult(questionId, Unknown, None, None, g.Value(), Skipped, Some(NotFound), None, None, Scored(None, None)))
    case Ok(Some(q)) =>
      var full := FullQuestion(q);
      match svc.execute(ExecutionFor(full, g, collectionIds, modelConfig))
      case Err(e) =>
        Ok(RunResult(questionId, q.title, q.body, Some(q.stackOverflowId), g.Value(), Failed,
                     Some("Graph execution failed: " + e), None, None, Scored(None, None)))
      case Ok(res) =>
        Ok(RunResult(questionId, q.title, q.body, Some(q.stackOverflowId), g.Value(), Success, None,
                     Some(res), ReferenceAnswer(q), Evaluate(svc, q, full, g, res.answer, modelConfig)))
  }

  /** Requested graph types, or `[ADAPTIVE_RAG]` when none or an empty list was given. */
  function GraphTypes(requested: Option<seq<Schemas.GraphType>>): (gs: seq<Schemas.GraphType>)
    ensures gs != []
    ensures requested.Some? && requested.value != [] ==> gs == requested.value
  {
    if requested.None? || |requested.value| == 0 then [Schemas.AdaptiveRag] else requested.value
  }

  /** One (question, graph type) run of a batch. */
  datatype Pair = Pair(questionId: int, graphType: Schemas.GraphType)

  function Row(questionId: int, gs: seq<Schemas.GraphType>): seq<Pair>
  {
    seq(|gs|, k requires 0 <= k < |gs| => Pair(questionId, gs[k]))
  }

  /** The runs of a batch in the order they are made: all graph types of a question before the next question. */
  function Pairs(questionIds: seq<int>, gs: seq<Schemas.GraphType>): seq<Pair>
  {
    if questionIds == [] then []
    else Pairs(questionIds[..|questionIds| - 1], gs) + Row(questionIds[|questionIds| - 1], gs)
  }

  lemma RowBefore(i: nat, m: nat, g: nat, k: nat)
    requires i < m && k < g
    ensures i * g + k < m * g
  {
    assert i * g + k < (i + 1) * g;
    assert (i + 1) * g <= m * g;
  }

  lemma MulSucc(m: nat, g: nat)
    ensures m * g + g == (m + 1) * g
  {
  }

  /** A batch makes |questions| × |graph types| runs. */
  lemma {:induction false} PairsLength(questionIds: seq<int>, gs: seq<Schemas.GraphType>)
    ensures |Pairs(questionIds, gs)| == |questionIds| * |gs|
  {
    if questionIds != [] {
      PairsLength(questionIds[..|questionIds| - 1], gs);
      MulSucc(|questionIds| - 1, |gs|);
    }
  }

  /** Runs are question-major: run i·|gs| + k of a batch is question i with graph type k. */
  lemma {:induction false} PairAt(questionIds: seq<int>, gs: seq<Schemas.GraphType>, i: nat, k: nat)
    requires i < |questionIds| && k < |gs|
    ensures i * |gs| + k < |Pairs(questionIds, gs)|
    ensures Pairs(questionIds, gs)[i * |gs| + k] == Pair(questionIds[i], gs[k])
  {
    var n := |questionIds|;
    var front := questionIds[..n - 1];
    PairsLength(front, gs);
    PairsLength(questionIds, gs);
    if i < n - 1 {
      RowBefore(i, n - 1, |gs|, k);
      PairAt(front, gs, i, k);
      assert front[i] == questionIds[i];
    } else {
      assert Row(questionIds[i], gs)[k] == Pair(questionIds[i], gs[k]);
    }
  }

  /** The record the outer `except` makes of a run that raised: title "Unknown" and the exception's message. */
  function FailedRun(p: Pair, error: string): (r: RunResult)
    ensures r.questionId == p.questionId && r.graphType == p.graphType.Value()
    ensures r.status.Failed? && r.title == Unknown && r.errorMessage == Some(error)
  {
    RunResult(p.questionId, Unknown, None, None, p.graphType.Value(), Failed, Some(error), None, None, Scored(None, None))
  }

  /** The record of one pair: that of `_process_single_question`, or the outer `except`'s when it raised. */
  function Runner(svc: Services, collectionIds: Option<seq<int>>, modelConfig: Option<map<string, Value>>): Pair -> RunResult
  {
    (p: Pair) =>
      match ProcessSingle(svc, p.questionId, p.graphType, collectionIds, modelConfig)
      case Err(e) => FailedRun(p, e)
      case Ok(r) => r
  }

  /**
   * Every run leaves a record with its question id and graph type; a
   * question lookup that raises leaves the failed record with its message.
   */
  lemma RunnerRecords(svc: Services, collectionIds: Option<seq<int>>, modelConfig: Option<map<string, Value>>, p: Pair)
    ensures var r := Runner(svc, collectionIds, modelConfig)(p);
      r.questionId == p.questionId && r.graphType == p.graphType.Value()
    ensures svc.lookup(p.questionId).Err? ==>
              Runner(svc, collectionIds, modelConfig)(p) == FailedRun(p, svc.lookup(p.questionId).error)
  {
  }

  /**
   * The title shown while a run is in progress: the question's title, or
   * "Unknown" when it is not found, and the graph type; the lookup may raise.
   */
  function Label(svc: Services): Pair -> Result<string>
  {
    (p: Pair) =>
      match svc.lookup(p.questionId)
      case Err(e) => Err(e)
      case Ok(found) => Ok((match found case Some(q) => q.title case None => Unknown) + " (" + p.graphType.Value() + ")")
  }

  /** The records of the given runs. */
  function RunsOf(run: Pair -> RunResult, pairs: seq<Pair>): (rs: seq<RunResult>)
    ensures |rs| == |pairs|
  {
    seq(|pairs|, j requires 0 <= j < |pairs| => run(pairs[j]))
  }

  /** `sum(1 for r in results if r["status"] == ...)`. */
  function Count(results: seq<RunResult>, st: Status): (n: nat)
    ensures n <= |results|
  {
    if results == [] then 0
    else Count(results[..|results| - 1], st) + (if results[|results| - 1].status == st then 1 else 0)
  }

  /** Every run has exactly one of the three statuses. */
  lemma {:induction false} CountsSum(results: seq<RunResult>)
    ensures Count(results, Success) + Count(results, Failed) + Count(results, Skipped) == |results|
  {
    if results != [] {
      CountsSum(results[..|results| - 1]);
    }
  }

  /**
   * A progress report: before a run (with the question's title and graph
   * type) and after it (with its record); `clearsCurrent` tells whether it
   * sets the current question's id and title to `None`, which the report of
   * a raised run leaves out.
   */
  datatype Progress =
    | Started(processed: nat, questionId: int, title: string)
    | Done(processed: nat, successful: nat, failed: nat, skipped: nat, result: RunResult, clearsCurrent: bool)

  /**
   * The reports of the run of `p`, the last of the records `done`: its
   * announcement, unless looking its title up raised, then its result with
   * the running status counts.
   */
  function RunReports(titleOf: Pair -> Result<string>, p: Pair, done: seq<RunResult>): (ps: seq<Progress>)
    requires done != []
    ensures |ps| == (if titleOf(p).Ok? then 2 else 1)
    ensures ps[0].Started? <==> titleOf(p).Ok?
    ensures ps[0].Started? ==> ps[0] == Started(|done| - 1, p.questionId, titleOf(p).value)
    ensures var d := ps[|ps| - 1];
      && d.Done? && d.processed == |done| && d.result == done[|done| - 1]
      && d.successful == Count(done, Success) && d.failed == Count(done, Failed) && d.skipped == Count(done, Skipped)
      && (d.clearsCurrent <==> titleOf(p).Ok?)
  {
    var d := Done(|done|, Count(done, Success), Count(done, Failed), Count(done, Skipped), done[|done| - 1], titleOf(p).Ok?);
    match titleOf(p)
    case Ok(title) => [Started(|done| - 1, p.questionId, title), d]
    case Err(_) => [d]
  }

  /** The reports sent for the given runs, run after run. */
  function Reports(run: Pair -> RunResult, titleOf: Pair -> Result<string>, pairs: seq<Pair>): seq<Progress>
  {
    if pairs == [] then []
    else Reports(run, titleOf, pairs[..|pairs| - 1]) + RunReports(titleOf, pairs[|pairs| - 1], RunsOf(run, pairs))
  }

  /** Every title lookup of the runs succeeds. */
  predicate Labelled(titleOf: Pair -> Result<string>, pairs: seq<Pair>)
  {
    forall j :: 0 <= j < |pairs| ==> titleOf(pairs[j]).Ok?
  }

  lemma RunsOfPrefix(run: Pair -> RunResult, pairs: seq<Pair>, m: nat)
    requires m <= |pairs|
    ensures RunsOf(run, pairs[..m]) == RunsOf(run, pairs)[..m]
  {
  }

  /** Each run sends one or two reports, two exactly when its title lookup succeeds. */
  lemma {:induction false} ReportsLength(run: Pair -> RunResult, titleOf: Pair -> Result<string>, pairs: seq<Pair>)
    ensures |pairs| <= |Reports(run, titleOf, pairs)| <= 2 * |pairs|
    ensures Labelled(titleOf, pairs) ==> |Reports(run, titleOf, pairs)| == 2 * |pairs|
  {
    if pairs != [] {
      var front := pairs[..|pairs| - 1];
      ReportsLength(run, titleOf, front);
      if Labelled(titleOf, pairs) {
        assert forall j :: 0 <= j < |front| ==> front[j] == pairs[j];
        assert Labelled(titleOf, front);
        assert titleOf(pairs[|pairs| - 1]).Ok?;
      }
    }
  }

  /** `Reports` of a non-empty list: those of all but the last run, then the last run's. */
  lemma ReportsSnoc(run: Pair -> RunResult, titleOf: Pair -> Result<string>, pairs: seq<Pair>)
    requires pairs != []
    ensures Reports(run, titleOf, pairs)
              == Reports(run, titleOf, pairs[..|pairs| - 1]) + RunReports(titleOf, pairs[|pairs| - 1], RunsOf(run, pairs))
  {
  }

  /** The reports of each run, in order; run j's with the first j + 1 records. */
  function PerRun(run: Pair -> RunResult, titleOf: Pair -> Result<string>, pairs: seq<Pair>): (rs: seq<seq<Progress>>)
    ensures |rs| == |pairs|
  {
    seq(|pairs|, j requires 0 <= j < |pairs| => RunReports(titleOf, pairs[j], RunsOf(run, pairs)[..j + 1]))
  }

  /**
   * The reports are the runs' own reports one after the other: run j is
   * announced with `processed` = j unless its title lookup raised, and
   * reported with `processed` = j + 1, its record and the status counts of
   * the first j + 1 records.
   */
  lemma {:induction false} ReportsPerRun(run: Pair -> RunResult, titleOf: Pair -> Result<string>, pairs: seq<Pair>)
    ensures Reports(run, titleOf, pairs) == Batching.Flatten(PerRun(run, titleOf, pairs))
    decreases |pairs|
  {
    if pairs != [] {
      var n := |pairs|;
      var front := pairs[..n - 1];
      ReportsPerRun(run, titleOf, front);
      RunsOfPrefix(run, pairs, n - 1);
      forall j | 0 <= j < n - 1
        ensures PerRun(run, titleOf, pairs)[j] == PerRun(run, titleOf, front)[j]
      {
        assert RunsOf(run, pairs)[..j + 1] == RunsOf(run, front)[..j + 1];
      }
      assert PerRun(run, titleOf, pairs) == PerRun(run, titleOf, front) + [PerRun(run, titleOf, pairs)[n - 1]];
      assert RunsOf(run, pairs)[..n] == RunsOf(run, pairs);
      Batching.FlattenSnoc(PerRun(run, titleOf, front), PerRun(run, titleOf, pairs)[n - 1]);
    }
  }

  /** With every title found, run j is announced as report 2j with `processed` = j. */
  lemma {:induction false} StartedAt(run: Pair -> RunResult, titleOf: Pair -> Result<string>, pairs: seq<Pair>, j: nat)
    requires Labelled(titleOf, pairs)
    requires j < |pairs|
    ensures 2 * j + 1 < |Reports(run, titleOf, pairs)|
    ensures Reports(run, titleOf, pairs)[2 * j] == Started(j, pairs[j].questionId, titleOf(pairs[j]).value)
  {
    var n := |pairs|;
    var front := pairs[..n - 1];
    assert forall i :: 0 <= i < |front| ==> front[i] == pairs[i];
    assert Labelled(titleOf, front);
    ReportsLength(run, titleOf, front);
    ReportsLength(run, titleOf, pairs);
    ReportsSnoc(run, titleOf, pairs);
    if j < n - 1 {
      StartedAt(run, titleOf, front, j);
      assert front[j] == pairs[j];
    }
  }

  /**
   * With every title found, run j is reported as report 2j + 1 with
   * `processed` = j + 1, the status counts of the first j + 1 records and
   * its own record.
   */
  lemma {:induction false} DoneAt(run: Pair -> RunResult, titleOf: Pair -> Result<string>, pairs: seq<Pair>, j: nat)
    requires Labelled(titleOf, pairs)
    requires j < |pairs|
    ensures 2 * j + 1 < |Reports(run, titleOf, pairs)|
    ensures var done := RunsOf(run, pairs)[..j + 1];
            Reports(run, titleOf, pairs)[2 * j + 1]
              == Done(j + 1, Count(done, Success), Count(done, Failed), Count(done, Skipped), done[j], true)
  {
    var n := |pairs|;
    var front := pairs[..n - 1];
    var all := RunsOf(run, pairs);
    assert forall i :: 0 <= i < |front| ==> front[i] == pairs[i];
    assert Labelled(titleOf, front);
    ReportsLength(run, titleOf, front);
    ReportsLength(run, titleOf, pairs);
    ReportsSnoc(run, titleOf, pairs);
    if j < n - 1 {
      DoneAt(run, titleOf, front, j);
      RunsOfPrefix(run, pairs, n - 1);
      assert RunsOf(run, front)[..j + 1] == all[..j + 1];
    } else {
      assert all[..j + 1] == all;
    }
  }

  /**
   * With every title found, the j-th run is announced as report 2j with
   * `processed` = j, and reported as 2j + 1 with `processed` = j + 1 and
   * status counts that add up to j + 1.
   */
  lemma ReportsAccount(run: Pair -> RunResult, titleOf: Pair -> Result<string>, pairs: seq<Pair>)
    requires Labelled(titleOf, pairs)
    ensures |Reports(run, titleOf, pairs)| == 2 * |pairs|
    ensures forall j :: 0 <= j < |pairs| ==>
              Reports(run, titleOf, pairs)[2 * j] == Started(j, pairs[j].questionId, titleOf(pairs[j]).value)
    ensures forall j :: 0 <= j < |pairs| ==>
              var d := Reports(run, titleOf, pairs)[2 * j + 1];
              && d.Done? && d.processed == j + 1 && d.result == run(pairs[j])
              && d.successful + d.failed + d.skipped == j + 1
  {
    ReportsLength(run, titleOf, pairs);
    forall j | 0 <= j < |pairs|
      ensures 2 * j + 1 < |Reports(run, titleOf, pairs)|
      ensures Reports(run, titleOf, pairs)[2 * j] == Started(j, pairs[j].questionId, titleOf(pairs[j]).value)
      ensures var d := Reports(run, titleOf, pairs)[2 * j + 1];
              && d.Done? && d.processed == j + 1 && d.result == run(pairs[j])
              && d.successful + d.failed + d.skipped == j + 1
    {
      StartedAt(run, titleOf, pairs, j);
      DoneAt(run, titleOf, pairs, j);
      CountsSum(RunsOf(run, pairs)[..j + 1]);
    }
  }

  /** The batch summary. */
  datatype Summary = Summary(total: nat, successful: nat, failed: nat, skipped: nat)

  lemma RunStep(run: Pair -> RunResult, titleOf: Pair -> Result<string>, pairs: seq<Pair>, p: Pair)
    ensures RunsOf(run, pairs + [p]) == RunsOf(run, pairs) + [run(p)]
    ensures Reports(run, titleOf, pairs + [p]) == Reports(run, titleOf, pairs) + RunReports(titleOf, p, RunsOf(run, pairs + [p]))
  {
    assert (pairs + [p])[..|pairs|] == pairs;
  }

  lemma RowPrefix(questionId: int, gs: seq<Schemas.GraphType>, k: nat)
    requires k < |gs|
    ensures Row(questionId, gs)[..k + 1] == Row(questionId, gs)[..k] + [Pair(questionId, gs[k])]
  {
  }

  lemma RowStep(questionIds: seq<int>, i: nat, gs: seq<Schemas.GraphType>)
    requires i < |questionIds|
    ensures Pairs(questionIds[..i + 1], gs) == Pairs(questionIds[..i], gs) + Row(questionIds[i], gs)
  {
    var upto := questionIds[..i + 1];
    assert upto[..|upto| - 1] == questionIds[..i];
    assert upto[|upto| - 1] == questionIds[i];
    assert Pairs(upto, gs) == Pairs(upto[..|upto| - 1], gs) + Row(upto[|upto| - 1], gs);
  }

  /**
   * The body of the inner loop of `_process_batch_async`: one run, its
   * record appended and, with a progress callback, its reports sent. A
   * question lookup that raises, for the title or inside the run, is caught
   * by the loop's `except`, which records the run as failed.
   */
  method ProcessPair(svc: Services, questionId: int, g: Schemas.GraphType,
                     collectionIds: Option<seq<int>>, modelConfig: Option<map<string, Value>>, reporting: bool,
                     results0: seq<RunResult>, processed0: nat, progress0: seq<Progress>, ghost before: seq<Pair>)
    returns (results: seq<RunResult>, processed: nat, progress: seq<Progress>)
    requires results0 == RunsOf(Runner(svc, collectionIds, modelConfig), before) && processed0 == |results0|
    requires progress0 == (if reporting then Reports(Runner(svc, collectionIds, modelConfig), Label(svc), before) else [])
    ensures results == RunsOf(Runner(svc, collectionIds, modelConfig), before + [Pair(questionId, g)])
    ensures processed == |results|
    ensures progress == (if reporting then Reports(Runner(svc, collectionIds, modelConfig), Label(svc), before + [Pair(questionId, g)]) else [])
  {
    var p := Pair(questionId, g);
    RunStep(Runner(svc, collectionIds, modelConfig), Label(svc), before, p);
    var r: RunResult;
    var announced: seq<Progress> := [];
    if reporting && Label(svc)(p).Err? {
      r := FailedRun(p, Label(svc)(p).error);
    } else {
      if reporting {
        announced := [Started(processed0, questionId, Label(svc)(p).value)];
      }
      match ProcessSingle(svc, questionId, g, collectionIds, modelConfig) {
        case Err(e) => r := FailedRun(p, e);
        case Ok(single) => r := single;
      }
    }
    results := results0 + [r];
    processed := processed0 + 1;
    progress := progress0;
    if reporting {
      progress := progress + announced
        + [Done(processed, Count(results, Success), Count(results, Failed), Count(results, Skipped), r, announced != [])];
    }
  }

  /**
   * The inner loop of `_process_batch_async`: the runs of one question, one
   * per graph type, appended to the records and reports of the runs before.
   */
  method ProcessQuestion(svc: Services, questionId: int, gs: seq<Schemas.GraphType>,
                         collectionIds: Option<seq<int>>, modelConfig: Option<map<string, Value>>, reporting: bool,
                         results0: seq<RunResult>, processed0: nat, progress0: seq<Progress>, ghost before: seq<Pair>)
    returns (results: seq<RunResult>, processed: nat, progress: seq<Progress>)
    requires results0 == RunsOf(Runner(svc, collectionIds, modelConfig), before) && processed0 == |results0|
    requires progress0 == (if reporting then Reports(Runner(svc, collectionIds, modelConfig), Label(svc), before) else [])
    ensures results == RunsOf(Runner(svc, collectionIds, modelConfig), before + Row(questionId, gs))
    ensures processed == |results|
    ensures progress == (if reporting then Reports(Runner(svc, collectionIds, modelConfig), Label(svc), before + Row(questionId, gs)) else [])
  {
    results, processed, progress := results0, processed0, progress0;
    ghost var pairs := before;
    var k := 0;
    assert before + Row(questionId, gs)[..0] == before;
    while k < |gs|
      invariant 0 <= k <= |gs|
      invariant pairs == before + Row(questionId, gs)[..k]
      invariant results == RunsOf(Runner(svc, collectionIds, modelConfig), pairs)
      invariant processed == |results|
      invariant progress == (if reporting then Reports(Runner(svc, collectionIds, modelConfig), Label(svc), pairs) else [])
    {
      results, processed, progress :=
        ProcessPair(svc, questionId, gs[k], collectionIds, modelConfig, reporting, results, processed, progress, pairs);
      RowPrefix(questionId, gs, k);
      assert before + Row(questionId, gs)[..k + 1] == pairs + [Pair(questionId, gs[k])];
      pairs := pairs + [Pair(questionId, gs[k])];
      k := k + 1;
    }
    assert Row(questionId, gs)[..|gs|] == Row(questionId, gs);
  }

  /** The outer loop of `_process_batch_async`: the runs of every question in turn. */
  method ProcessQuestions(svc: Services, questionIds: seq<int>, gs: seq<Schemas.GraphType>,
                          collectionIds: Option<seq<int>>, modelConfig: Option<map<string, Value>>, reporting: bool)
    returns (results: seq<RunResult>, progress: seq<Progress>)
    ensures results == RunsOf(Runner(svc, collectionIds, modelConfig), Pairs(questionIds, gs))
    ensures progress == (if reporting then Reports(Runner(svc, collectionIds, modelConfig), Label(svc), Pairs(questionIds, gs)) else [])
  {
    var processed := 0;
    results, progress := [], [];
    ghost var run, titleOf := Runner(svc, collectionIds, modelConfig), Label(svc);
    var i := 0;
    while i < |questionIds|
      invariant 0 <= i <= |questionIds|
      invariant results == RunsOf(run, Pairs(questionIds[..i], gs))
      invariant processed == |results|
      invariant progress == (if reporting then Reports(run, titleOf, Pairs(questionIds[..i], gs)) else [])
    {
      ghost var before := Pairs(questionIds[..i], gs);
      RowStep(questionIds, i, gs);
      results, processed, progress :=
        ProcessQuestion(svc, questionIds[i], gs, collectionIds, modelConfig, reporting,
                        results, processed, progress, before);
      i := i + 1;
    }
    assert questionIds[..|questionIds|] == questionIds;
  }

  /**
   * `_process_batch_async`: the records are those of `Pairs` in order, the
   * processed count equals the number of records after every run, the
   * reports (when a progress callback is given) are `Reports`, and the
   * summary's total is |questions| × |graph types| and splits by status.
   */
  method ProcessBatch(svc: Services, questionIds: seq<int>, graphTypes: Option<seq<Schemas.GraphType>>,
                      collectionIds: Option<seq<int>>, modelConfig: Option<map<string, Value>>, reporting: bool)
    returns (results: seq<RunResult>, summary: Summary, progress: seq<Progress>)
    ensures var pairs := Pairs(questionIds, GraphTypes(graphTypes));
            var run := Runner(svc, collectionIds, modelConfig);
            && results == RunsOf(run, pairs)
            && progress == (if reporting then Reports(run, Label(svc), pairs) else [])
    ensures summary.total == |questionIds| * |GraphTypes(graphTypes)| == |results|
    ensures summary.successful == Count(results, Success)
    ensures summary.failed == Count(results, Failed)
    ensures summary.skipped == Count(results, Skipped)
    ensures summary.successful + summary.failed + summary.skipped == summary.total
  {
    var gs := GraphTypes(graphTypes);
    var total := |questionIds| * |gs|;
    results, progress := ProcessQuestions(svc, questionIds, gs, collectionIds, modelConfig, reporting);
    PairsLength(questionIds, gs);
    CountsSum(results);
    summary := Summary(total, Count(results, Success), Count(results, Failed), Count(results, Skipped));
  }
}
