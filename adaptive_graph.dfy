/**
 * The adaptive RAG graph (core/graph/adaptive_graph.py): its routing
 * functions, its two fallback nodes, its wiring, and a driver that runs it
 * node by node until END.
 */
module AdaptiveGraph {
  import opened Wrappers
  import opened GraphUtils
  import Config
  import StateGraph
  import Retriever
  import DocumentGrader
  import Generator
  import Rewriter
  import HallucinationGrader
  import AnswerGrader
  import Batching

  /** `max_generation_retries`, `max_transform_retries`, `max_total_iterations`. */
  datatype Limits = Limits(maxGeneration: int, maxTransform: int, maxTotal: int)

  const DefaultLimits: Limits := Limits(Config.MaxGenerationRetries, Config.MaxTransformRetries, Config.MaxTotalIterations)

  /** `check_iteration_limits`: the three budgets, checked in turn. */
  function CheckIterationLimits(s: State, lim: Limits): (reached: bool)
    ensures reached <==> s.generationAttempts >= lim.maxGeneration
                         || s.transformAttempts >= lim.maxTransform
                         || s.totalIterations >= lim.maxTotal
  {
    if s.generationAttempts >= lim.maxGeneration then true
    else if s.transformAttempts >= lim.maxTransform then true
    else if s.totalIterations >= lim.maxTotal then true
    else false
  }

  /** `decide_to_generate`: the route after grading the documents. */
  function DecideToGenerate(s: State, lim: Limits): (route: string)
    ensures route == "generate" <==> |s.documents| > 0
    ensures route == "transform_query" <==> |s.documents| == 0 && s.transformAttempts < lim.maxTransform
    ensures route == "no_docs_fallback" <==> |s.documents| == 0 && s.transformAttempts >= lim.maxTransform
  {
    if |s.documents| == 0 then
      if s.transformAttempts >= lim.maxTransform then "no_docs_fallback" else "transform_query"
    else "generate"
  }

  /** The route after a generation, and which graders were consulted to choose it. */
  datatype Decision = Decision(route: string, hallucinationChecked: bool, answerChecked: bool)

  /**
   * `grade_generation_v_documents_and_question`, every branch as written. A
   * reached budget wins before either grader is consulted; otherwise the route
   * is decided by the two verdicts alone, so the accept-as-is branch and the
   * second budget branch are never taken.
   */
  function GradeGeneration(s: State, lim: Limits, grounded: bool, addresses: bool): (d: Decision)
    ensures CheckIterationLimits(s, lim) ==> d == Decision("max_iterations", false, false)
    ensures !CheckIterationLimits(s, lim) ==> d.hallucinationChecked && (d.answerChecked <==> grounded)
    ensures !CheckIterationLimits(s, lim) ==>
              && (d.route == "useful" <==> grounded && addresses)
              && (d.route == "not useful" <==> grounded && !addresses)
              && (d.route == "not supported" <==> !grounded)
  {
    if CheckIterationLimits(s, lim) then Decision("max_iterations", false, false)
    else if grounded then
      if addresses then Decision("useful", true, true)
      else if s.transformAttempts >= lim.maxTransform then Decision("useful", true, true)
      else Decision("not useful", true, true)
    else if s.generationAttempts >= lim.maxGeneration then Decision("max_iterations", true, false)
    else Decision("not supported", true, false)
  }

  /**
   * `generate_no_docs_fallback`: a pure-LLM answer to the current question,
   * no documents, the generation counter set to 1, both flags raised.
   */
  function GenerateNoDocsFallback(s: State, llm: PromptCall -> string): (r: State)
    ensures r.generation == llm(PromptCall(s.question, s.modelConfig))
    ensures r.documents == [] && r.generationAttempts == 1
    ensures r.totalIterations == s.totalIterations + 1 && r.transformAttempts == s.transformAttempts
    ensures r.maxIterationsReached && r.noRelevantDocsFallback && r.fallbackType == "no_relevant_docs"
    ensures r.question == s.question && r.originalQuestion == Some(OriginalOr(s))
    ensures r.modelConfig == s.modelConfig && r.collectionIds == s.collectionIds
  {
    State(
      question := s.question,
      originalQuestion := Some(OriginalOr(s)),
      generation := llm(PromptCall(s.question, s.modelConfig)),
      documents := [],
      modelConfig := s.modelConfig,
      collectionIds := s.collectionIds,
      generationAttempts := 1,
      transformAttempts := s.transformAttempts,
      totalIterations := s.totalIterations + 1,
      maxIterationsReached := true,
      noRelevantDocsFallback := true,
      fallbackType := "no_relevant_docs")
  }

  /** The fallback answers the possibly rewritten question: the stored original plays no part. */
  lemma NoDocsFallbackIgnoresOriginal(s: State, q: Option<string>, llm: PromptCall -> string)
    ensures GenerateNoDocsFallback(s.(originalQuestion := q), llm).generation == GenerateNoDocsFallback(s, llm).generation
  {
  }

  /** `mark_max_iterations`: the state with the max-iterations flags, nothing else changed. */
  function MarkMaxIterations(s: State): (r: State)
    ensures r.maxIterationsReached && !r.noRelevantDocsFallback && r.fallbackType == "max_iterations"
    ensures r.(maxIterationsReached := s.maxIterationsReached, noRelevantDocsFallback := s.noRelevantDocsFallback,
               fallbackType := s.fallbackType) == s
  {
    s.(maxIterationsReached := true, noRelevantDocsFallback := false, fallbackType := "max_iterations")
  }

  /** Marking twice is marking once; the generation and every counter are kept. */
  lemma MarkMaxIterationsStable(s: State)
    ensures MarkMaxIterations(MarkMaxIterations(s)) == MarkMaxIterations(s)
    ensures var r := MarkMaxIterations(s);
      r.generation == s.generation && r.generationAttempts == s.generationAttempts
      && r.transformAttempts == s.transformAttempts && r.totalIterations == s.totalIterations
  {
  }

  /** The graph as `create_adaptive_graph` wires it. */
  const AdaptiveWiring: StateGraph.Wiring := StateGraph.Wiring(
    {"retrieve", "grade_documents", "generate", "transform_query", "fallback", "no_docs_fallback"},
    {(StateGraph.Start, "retrieve"), ("retrieve", "grade_documents"), ("no_docs_fallback", StateGraph.End),
     ("transform_query", "retrieve"), ("fallback", StateGraph.End)},
    map[
      "grade_documents" := map["transform_query" := "transform_query", "generate" := "generate",
                               "no_docs_fallback" := "no_docs_fallback"],
      "generate" := map["not supported" := "generate", "useful" := StateGraph.End,
                        "not useful" := "transform_query", "max_iterations" := "fallback"]])

  /** `create_adaptive_graph`: the builder calls, in order. */
  method CreateAdaptiveGraph() returns (w: StateGraph.Wiring)
    ensures w == AdaptiveWiring
  {
    var workflow := new StateGraph.Workflow();
    workflow.AddNode("retrieve");
    workflow.AddNode("grade_documents");
    workflow.AddNode("generate");
    workflow.AddNode("transform_query");
    workflow.AddNode("fallback");
    workflow.AddNode("no_docs_fallback");
    assert workflow.nodes == AdaptiveWiring.nodes;
    workflow.AddEdge(StateGraph.Start, "retrieve");
    workflow.AddEdge("retrieve", "grade_documents");
    workflow.AddConditionalEdges("grade_documents",
      map["transform_query" := "transform_query", "generate" := "generate", "no_docs_fallback" := "no_docs_fallback"]);
    workflow.AddEdge("no_docs_fallback", StateGraph.End);
    workflow.AddEdge("transform_query", "retrieve");
    workflow.AddConditionalEdges("generate",
      map["not supported" := "generate", "useful" := StateGraph.End,
          "not useful" := "transform_query", "max_iterations" := "fallback"]);
    workflow.AddEdge("fallback", StateGraph.End);
    assert workflow.edges == AdaptiveWiring.edges;
    w := workflow.Compile();
  }

  /** Every edge and branch of the compiled graph joins declared nodes, START and END. */
  lemma AdaptiveWiringClosed()
    ensures AdaptiveWiring.Closed()
    ensures forall from :: from in AdaptiveWiring.branches ==> (forall e :: e in AdaptiveWiring.edges ==> e.0 != from)
  {
  }

  datatype Node = Retrieve | GradeDocuments | Generate | TransformQuery | NoDocsFallback | Fallback

  function NodeName(n: Node): string
  {
    match n
    case Retrieve => "retrieve"
    case GradeDocuments => "grade_documents"
    case Generate => "generate"
    case TransformQuery => "transform_query"
    case NoDocsFallback => "no_docs_fallback"
    case Fallback => "fallback"
  }

  function NextName(next: Option<Node>): string
  {
    match next
    case None => StateGraph.End
    case Some(m) => NodeName(m)
  }

  /** The settings the graph reads. */
  datatype Settings = Settings(
    limits: Limits,
    variation: Generator.RetryVariation,
    grading: DocumentGrader.Settings,
    hallucinationBatchSize: int)

  const DefaultSettings: Settings := Settings(
    DefaultLimits,
    Generator.RetryVariation(Config.EnableRetryVariation, Config.RetryTemperatureIncrement),
    DocumentGrader.Defaults,
    Config.HallucinationBatchSize)

  /**
   * Everything the nodes receive from outside, per step `k` of the run: the
   * retrievers, the document grader, the answer chain, the rewriter, the
   * hallucination and answer graders, and the pure-LLM chain.
   */
  datatype Oracles = Oracles(
    retrieval: nat -> Retriever.Env,
    grader: nat -> DocumentGrader.GradeCall -> DocumentGrader.Attempt,
    escaped: nat -> nat -> Option<string>,
    generation: nat -> Generator.GenerationCall -> string,
    rewrite: nat -> string -> string,
    hallucination: nat -> HallucinationGrader.Call -> Option<string>,
    answer: nat -> AnswerGrader.Input -> string,
    fallback: nat -> PromptCall -> string)

  /** The budget a node is entered with: a rewrite only below `max_transform_retries`. */
  predicate InBudget(n: Node, s: State, cfg: Settings)
  {
    n == TransformQuery ==> s.transformAttempts < cfg.limits.maxTransform
  }

  function Slack(count: int, max: int): nat
  {
    if count < max then max - count else 0
  }

  function Cost(n: Node): nat
  {
    match n
    case Retrieve => 4
    case GradeDocuments => 3
    case Generate => 2
    case TransformQuery => 2
    case NoDocsFallback => 1
    case Fallback => 1
  }

  /** A bound on the number of node visits left: three per rewrite left, one per generation retry left, plus the node's own share. */
  function Measure(n: Node, s: State, lim: Limits): nat
  {
    3 * Slack(s.transformAttempts, lim.maxTransform) + Slack(s.generationAttempts, lim.maxGeneration) + Cost(n)
  }

  /**
   * The router after `generate`, fed with the two graders' verdicts at step
   * `k`. A reached budget is answered before the hallucination check, whose
   * `ValueError` for a batch size of 0 the router lets through.
   */
  function GenerationDecision(r: State, cfg: Settings, o: Oracles, k: nat): (d: Result<Decision>)
    ensures d.Err? <==> !CheckIterationLimits(r, cfg.limits) && r.documents != [] && cfg.hallucinationBatchSize == 0
    ensures d.Err? ==> d.error == Batching.ZeroStep
    ensures CheckIterationLimits(r, cfg.limits) ==> d == Ok(Decision("max_iterations", false, false))
  {
    if CheckIterationLimits(r, cfg.limits) then Ok(Decision("max_iterations", false, false))
    else
      match HallucinationGrader.Grounded(r.documents, r.generation, cfg.hallucinationBatchSize, o.hallucination(k))
      case Err(e) => Err(e)
      case Ok(grounded) =>
        Ok(GradeGeneration(r, cfg.limits, grounded, AnswerGrader.ProcessResult(o.answer(k)(AnswerGrader.PrepareInput(r)))))
  }

  /**
   * The exception a visit of `n` raises, whatever the oracles answer:
   * `grade_documents` on a batch size of 0; `generate` on a temperature it
   * cannot raise, or, when no budget is reached after it, on a hallucination
   * batch size of 0 with documents to check.
   */
  function Failure(n: Node, s: State, cfg: Settings): Option<string>
  {
    match n
    case GradeDocuments => if cfg.grading.batchSize == 0 then Some(Batching.ZeroStep) else None
    case Generate =>
      if Generator.RaisesTypeError(s, cfg.variation) then Some(Generator.AddError(s.modelConfig["temperature"]))
      else if && s.generationAttempts + 1 < cfg.limits.maxGeneration
              && s.transformAttempts < cfg.limits.maxTransform
              && s.totalIterations + 1 < cfg.limits.maxTotal
              && s.documents != [] && cfg.hallucinationBatchSize == 0
      then Some(Batching.ZeroStep)
      else None
    case _ => None
  }

  /** One node visit: its output, the routing label it produced ("" for a plain edge), and the next node (`None`: END). */
  datatype Transition = Transition(output: State, route: string, next: Option<Node>)

  /**
   * What one visit of `n` guarantees: the graph's edge for the node and its
   * routing label is taken; a next node is entered within budget and, when
   * `n` was, has less left to do; the counters, the stored original question,
   * the flags and the kind of stored temperature change as the node prescribes.
   */
  predicate Advances(n: Node, s: State, cfg: Settings, t: Transition)
  {
    && (t.next.Some? ==> InBudget(t.next.value, t.output, cfg))
    && (t.next.Some? && InBudget(n, s, cfg) ==> Measure(t.next.value, t.output, cfg.limits) < Measure(n, s, cfg.limits))
    && (t.next.None? <==> Exits(Visit(n, t.output, t.route)))
    && (n == Generate && t.next.Some? ==> (t.next == Some(Fallback) <==> CheckIterationLimits(t.output, cfg.limits)))
    && AdaptiveWiring.Routes(NodeName(n), t.route, NextName(t.next))
    && t.output.transformAttempts == s.transformAttempts + (if n == TransformQuery then 1 else 0)
    && t.output.generationAttempts == (if n == Generate then s.generationAttempts + 1
                                       else if n == NoDocsFallback then 1 else s.generationAttempts)
    && t.output.totalIterations == s.totalIterations + (if n == Fallback then 0 else 1)
    && t.output.originalQuestion == (if n == Fallback then s.originalQuestion else Some(OriginalOr(s)))
    && VisitFlags(Visit(n, t.output, t.route))
    && Generator.NumericTemperature(t.output.modelConfig) == Generator.NumericTemperature(s.modelConfig)
    && (!Generator.NumericTemperature(s.modelConfig) ==> t.output.modelConfig == s.modelConfig)
  }

  /** `retrieve`, then the plain edge to `grade_documents`. */
  function RetrieveStep(s: State, cfg: Settings, o: Oracles, k: nat): (t: Transition)
    ensures t.output == Retriever.Retrieve(s, o.retrieval(k))
    ensures Advances(Retrieve, s, cfg, t)
  {
    Transition(Retriever.Retrieve(s, o.retrieval(k)), "", Some(GradeDocuments))
  }

  /** `grade_documents`, then the branch `decide_to_generate` picks; or the node's `ValueError`. */
  function GradeDocumentsStep(s: State, cfg: Settings, o: Oracles, k: nat): (t: Result<Transition>)
    ensures t.Err? <==> Failure(GradeDocuments, s, cfg).Some?
    ensures t.Err? ==> t.error == Failure(GradeDocuments, s, cfg).value
    ensures t.Ok? ==>
      && DocumentGrader.GradeDocuments(s, cfg.grading, o.grader(k), o.escaped(k)) == Ok(t.value.output)
      && t.value.route == DecideToGenerate(t.value.output, cfg.limits)
      && Advances(GradeDocuments, s, cfg, t.value)
  {
    match DocumentGrader.GradeDocuments(s, cfg.grading, o.grader(k), o.escaped(k))
    case Err(e) => Err(e)
    case Ok(r) =>
      var route := DecideToGenerate(r, cfg.limits);
      var t := Transition(r, route, DecisionNext(route));
      GradeDocumentsAdvances(s, cfg, o, k, t);
      Ok(t)
  }

  /** The edge `decide_to_generate` takes for each routing label. */
  function DecisionNext(route: string): Option<Node>
  {
    if route == "generate" then Some(Generate)
    else if route == "transform_query" then Some(TransformQuery)
    else Some(NoDocsFallback)
  }

  /** Each label `decide_to_generate` can return is wired to the node `DecisionNext` enters. */
  lemma DecisionRoutes(route: string)
    requires route in {"generate", "transform_query", "no_docs_fallback"}
    ensures AdaptiveWiring.Routes("grade_documents", route, NextName(DecisionNext(route)))
  {
    var b := AdaptiveWiring.branches["grade_documents"];
    assert b == map["transform_query" := "transform_query", "generate" := "generate",
                     "no_docs_fallback" := "no_docs_fallback"];
  }

  lemma GradeDocumentsAdvances(s: State, cfg: Settings, o: Oracles, k: nat, t: Transition)
    requires DocumentGrader.GradeDocuments(s, cfg.grading, o.grader(k), o.escaped(k)) == Ok(t.output)
    requires t.route == DecideToGenerate(t.output, cfg.limits) && t.next == DecisionNext(t.route)
    ensures Advances(GradeDocuments, s, cfg, t)
  {
    var r := t.output;
    DecisionRoutes(t.route);
    if |r.documents| > 0 {
      assert t.next == Some(Generate);
    } else if r.transformAttempts < cfg.limits.maxTransform {
      assert t.next == Some(TransformQuery);
    } else {
      assert t.next == Some(NoDocsFallback);
    }
  }

  /** `generate`, then the branch `grade_generation_v_documents_and_question` picks; or the exception either raises. */
  function GenerateStep(s: State, cfg: Settings, o: Oracles, k: nat): (t: Result<Transition>)
    ensures t.Err? <==> Failure(Generate, s, cfg).Some?
    ensures t.Err? ==> t.error == Failure(Generate, s, cfg).value
    ensures t.Ok? ==>
      && Generator.Generate(s, cfg.variation, o.generation(k)) == Ok(t.value.output)
      && GenerationDecision(t.value.output, cfg, o, k).Ok?
      && t.value.route == GenerationDecision(t.value.output, cfg, o, k).value.route
      && (t.value.next == Some(Fallback) <==> CheckIterationLimits(t.value.output, cfg.limits))
      && Advances(Generate, s, cfg, t.value)
  {
    match Generator.Generate(s, cfg.variation, o.generation(k))
    case Err(e) => Err(e)
    case Ok(r) =>
      match GenerationDecision(r, cfg, o, k)
      case Err(e) => Err(e)
      case Ok(d) =>
        var t := Transition(r, d.route, GenerationNext(d.route));
        GenerateAdvances(s, cfg, o, k, t);
        Ok(t)
  }

  /** The edge `grade_generation_v_documents_and_question` takes for each routing label. */
  function GenerationNext(route: string): Option<Node>
  {
    if route == "not supported" then Some(Generate)
    else if route == "useful" then None
    else if route == "not useful" then Some(TransformQuery)
    else Some(Fallback)
  }

  /** Each label the generation router can return is wired to the node `GenerationNext` enters. */
  lemma GenerationRoutes(route: string)
    requires route in {"not supported", "useful", "not useful", "max_iterations"}
    ensures AdaptiveWiring.Routes("generate", route, NextName(GenerationNext(route)))
  {
    var b := AdaptiveWiring.branches["generate"];
    assert b == map["not supported" := "generate", "useful" := StateGraph.End,
                    "not useful" := "transform_query", "max_iterations" := "fallback"];
  }

  lemma GenerateAdvances(s: State, cfg: Settings, o: Oracles, k: nat, t: Transition)
    requires Generator.Generate(s, cfg.variation, o.generation(k)) == Ok(t.output)
    requires GenerationDecision(t.output, cfg, o, k).Ok?
    requires t.route == GenerationDecision(t.output, cfg, o, k).value.route && t.next == GenerationNext(t.route)
    ensures t.next == Some(Fallback) <==> CheckIterationLimits(t.output, cfg.limits)
    ensures Advances(Generate, s, cfg, t)
  {
    var r := t.output;
    GenerationRoutes(t.route);
    if CheckIterationLimits(r, cfg.limits) {
      assert t.next == Some(Fallback);
    } else if t.route == "useful" {
      assert t.next == None;
    } else if t.route == "not useful" {
      assert t.next == Some(TransformQuery);
    } else {
      assert t.route == "not supported" && t.next == Some(Generate);
    }
  }

  /** `transform_query`, then the plain edge back to `retrieve`. */
  function TransformQueryStep(s: State, cfg: Settings, o: Oracles, k: nat): (t: Transition)
    ensures t.output == Rewriter.TransformQuery(s, o.rewrite(k))
    ensures Advances(TransformQuery, s, cfg, t)
  {
    Transition(Rewriter.TransformQuery(s, o.rewrite(k)), "", Some(Retrieve))
  }

  /** `no_docs_fallback`, then the plain edge to END. */
  function NoDocsFallbackStep(s: State, cfg: Settings, o: Oracles, k: nat): (t: Transition)
    ensures t.output == GenerateNoDocsFallback(s, o.fallback(k))
    ensures Advances(NoDocsFallback, s, cfg, t)
  {
    Transition(GenerateNoDocsFallback(s, o.fallback(k)), "", None)
  }

  /** `fallback`, then the plain edge to END. */
  function FallbackStep(s: State, cfg: Settings): (t: Transition)
    ensures t.output == MarkMaxIterations(s)
    ensures Advances(Fallback, s, cfg, t)
  {
    Transition(MarkMaxIterations(s), "", None)
  }

  /** One node visit, with the outcome fixed by the node's function and the oracles of step `k`, or its exception. */
  function Step(n: Node, s: State, cfg: Settings, o: Oracles, k: nat): (t: Result<Transition>)
    ensures t.Err? <==> Failure(n, s, cfg).Some?
    ensures t.Err? ==> t.error == Failure(n, s, cfg).value
    ensures t.Ok? ==> Advances(n, s, cfg, t.value)
  {
    match n
    case Retrieve => Ok(RetrieveStep(s, cfg, o, k))
    case GradeDocuments => GradeDocumentsStep(s, cfg, o, k)
    case Generate => GenerateStep(s, cfg, o, k)
    case TransformQuery => Ok(TransformQueryStep(s, cfg, o, k))
    case NoDocsFallback => Ok(NoDocsFallbackStep(s, cfg, o, k))
    case Fallback => Ok(FallbackStep(s, cfg))
  }

  /** A visited node with the state it returned and the routing label it chose. */
  datatype Visit = Visit(node: Node, output: State, route: string)

  /** A visit after which the graph reaches END. */
  predicate Exits(v: Visit)
  {
    v.node == NoDocsFallback || v.node == Fallback || (v.node == Generate && v.route == "useful")
  }

  /** The flags a visit's output carries, as fixed by its node. */
  predicate VisitFlags(v: Visit)
  {
    && (v.node == NoDocsFallback ==>
          v.output.maxIterationsReached && v.output.noRelevantDocsFallback && v.output.fallbackType == "no_relevant_docs")
    && (v.node == Fallback ==>
          v.output.maxIterationsReached && !v.output.noRelevantDocsFallback && v.output.fallbackType == "max_iterations")
    && (v.node != NoDocsFallback && v.node != Fallback ==>
          !v.output.maxIterationsReached && !v.output.noRelevantDocsFallback && v.output.fallbackType == "")
  }

  /**
   * How a run stops: at END; with the exception a node raised, that node
   * streaming no update; or with the super-step budget spent before `node`.
   */
  datatype Stop = Ended | Raised(node: Node, error: string) | OutOfSteps(node: Node)

  /** The streamed visits of a run, and how it stopped. */
  datatype Outcome = Outcome(visits: seq<Visit>, stop: Stop)

  /** The node that was due when the run stopped, if any. */
  function Pending(stop: Stop): Option<Node>
  {
    if stop.Ended? then None else Some(stop.node)
  }

  /** The node entered after the first visit of `trace`. */
  function NextOf(trace: seq<Visit>, stop: Stop): Option<Node>
    requires |trace| >= 1
  {
    if |trace| > 1 then Some(trace[1].node) else Pending(stop)
  }

  /**
   * `trace`, ending with `stop`, is a run of the graph from node `n` entered
   * with state `s`: every visit advances as its node prescribes from the
   * previous visit's output, to the next visit's node, or after the last one
   * to END or to the node the run stopped at, which raises exactly its own
   * exception when the run stopped by raising.
   */
  predicate Follows(n: Node, s: State, cfg: Settings, trace: seq<Visit>, stop: Stop)
    decreases |trace|
  {
    if |trace| == 0 then
      && !stop.Ended?
      && stop.node == n
      && (stop.Raised? ==> Failure(n, s, cfg) == Some(stop.error))
    else
      && trace[0].node == n
      && Failure(n, s, cfg).None?
      && Advances(n, s, cfg, Transition(trace[0].output, trace[0].route, NextOf(trace, stop)))
      && (NextOf(trace, stop).Some? ==> Follows(NextOf(trace, stop).value, trace[0].output, cfg, trace[1..], stop))
  }

  /**
   * The run from node `n` at step `k` with `budget` super-steps left, one
   * super-step and one streamed visit per executed node; `k` selects the
   * oracles' answers.
   */
  function Run(n: Node, s: State, cfg: Settings, o: Oracles, k: nat, budget: nat): (out: Outcome)
    ensures Follows(n, s, cfg, out.visits, out.stop)
    ensures |out.visits| <= budget
    ensures out.stop.OutOfSteps? ==> |out.visits| == budget
    decreases budget
  {
    if budget == 0 then Outcome([], OutOfSteps(n))
    else
      match Step(n, s, cfg, o, k)
      case Err(e) => Outcome([], Raised(n, e))
      case Ok(t) =>
        var v := Visit(n, t.output, t.route);
        match t.next
        case None => Outcome([v], Ended)
        case Some(m) =>
          var rest := Run(m, t.output, cfg, o, k + 1, budget - 1);
          assert ([v] + rest.visits)[1..] == rest.visits;
          Outcome([v] + rest.visits, rest.stop)
  }

  /** The `ValueError` a recursion limit below 1 raises before any step. */
  const RecursionLimitError: string := "recursion_limit must be at least 1"

  /** `stream` with `{"recursion_limit": limit}`: the run from `retrieve`, the target of the edge from START. */
  function Invoke(s: State, cfg: Settings, o: Oracles, limit: int): (r: Result<Outcome>)
    ensures limit < 1 ==> r == Err(RecursionLimitError)
    ensures limit >= 1 ==> r.Ok? && Follows(Retrieve, s, cfg, r.value.visits, r.value.stop)
    ensures r.Ok? ==> |r.value.visits| <= limit && (r.value.stop.OutOfSteps? ==> |r.value.visits| == limit)
    ensures r.Ok? && r.value.visits != [] ==> (StateGraph.Start, NodeName(r.value.visits[0].node)) in AdaptiveWiring.edges
  {
    if limit < 1 then Err(RecursionLimitError) else Ok(Run(Retrieve, s, cfg, o, 0, limit))
  }

  /**
   * A run has at most `Measure` super-steps, counting the one it stopped at;
   * only a run that reached END has a visit leading there, its last.
   */
  lemma {:induction false} FollowsEnds(n: Node, s: State, cfg: Settings, trace: seq<Visit>, stop: Stop)
    requires Follows(n, s, cfg, trace, stop)
    requires InBudget(n, s, cfg)
    ensures |trace| + (if stop.Ended? then 0 else 1) <= Measure(n, s, cfg.limits)
    ensures stop.Ended? ==> |trace| >= 1 && Exits(trace[|trace| - 1])
    ensures forall i :: 0 <= i < |trace| && (i < |trace| - 1 || !stop.Ended?) ==> !Exits(trace[i])
    decreases |trace|
  {
    if |trace| >= 1 && NextOf(trace, stop).Some? {
      var rest := trace[1..];
      FollowsEnds(NextOf(trace, stop).value, trace[0].output, cfg, rest, stop);
      forall i | 1 <= i < |trace| && (i < |trace| - 1 || !stop.Ended?) ensures !Exits(trace[i]) {
        assert trace[i] == rest[i - 1];
      }
    }
  }

  /** A budget of `Measure` super-steps is never spent: the run ends or raises first. */
  lemma RunWithinLimit(n: Node, s: State, cfg: Settings, o: Oracles, k: nat, budget: nat)
    requires InBudget(n, s, cfg) && Measure(n, s, cfg.limits) <= budget
    ensures !Run(n, s, cfg, o, k, budget).stop.OutOfSteps?
  {
    var out := Run(n, s, cfg, o, k, budget);
    FollowsEnds(n, s, cfg, out.visits, out.stop);
  }

  /**
   * With batch sizes the `range` steps accept, the only exception a run can
   * stop with is the `TypeError` of `generate` on a stored temperature that
   * is not a number, which the run carries unchanged from its start.
   */
  lemma {:induction false} RaisedOnlyByTemperature(n: Node, s: State, cfg: Settings, trace: seq<Visit>, stop: Stop)
    requires Follows(n, s, cfg, trace, stop)
    requires cfg.grading.batchSize != 0 && cfg.hallucinationBatchSize != 0
    ensures stop.Raised? ==>
      && stop.node == Generate
      && !Generator.NumericTemperature(s.modelConfig)
      && stop.error == Generator.AddError(s.modelConfig["temperature"])
    decreases |trace|
  {
    if |trace| >= 1 && NextOf(trace, stop).Some? {
      RaisedOnlyByTemperature(NextOf(trace, stop).value, trace[0].output, cfg, trace[1..], stop);
    }
  }

  /** Consecutive visits follow the compiled graph's edges, and the last one leads to END or to the node the run stopped at. */
  lemma {:induction false} FollowsWiring(n: Node, s: State, cfg: Settings, trace: seq<Visit>, stop: Stop)
    requires Follows(n, s, cfg, trace, stop)
    ensures forall i :: 0 <= i < |trace| - 1 ==>
              AdaptiveWiring.Routes(NodeName(trace[i].node), trace[i].route, NodeName(trace[i + 1].node))
    ensures |trace| >= 1 ==>
              AdaptiveWiring.Routes(NodeName(trace[|trace| - 1].node), trace[|trace| - 1].route, NextName(Pending(stop)))
    decreases |trace|
  {
    if |trace| > 1 {
      var rest := trace[1..];
      FollowsWiring(trace[1].node, trace[0].output, cfg, rest, stop);
      forall i | 1 <= i < |trace| - 1
        ensures AdaptiveWiring.Routes(NodeName(trace[i].node), trace[i].route, NodeName(trace[i + 1].node))
      {
        assert trace[i] == rest[i - 1] && trace[i + 1] == rest[i];
      }
    }
  }

  /** Once stored, the original question survives every node of the run. */
  lemma {:induction false} OriginalQuestionKept(n: Node, s: State, cfg: Settings, trace: seq<Visit>, stop: Stop, q: string)
    requires Follows(n, s, cfg, trace, stop)
    requires s.originalQuestion == Some(q)
    ensures forall i :: 0 <= i < |trace| ==> trace[i].output.originalQuestion == Some(q)
    decreases |trace|
  {
    if |trace| > 1 {
      var rest := trace[1..];
      OriginalQuestionKept(trace[1].node, trace[0].output, cfg, rest, stop, q);
      forall i | 1 <= i < |trace| ensures trace[i].output.originalQuestion == Some(q) {
        assert trace[i] == rest[i - 1];
      }
    }
  }

  /** `transform_attempts` never passes a bound that covers `max_transform_retries` and its start value. */
  lemma {:induction false} TransformAttemptsBounded(n: Node, s: State, cfg: Settings, trace: seq<Visit>, stop: Stop, bound: int)
    requires Follows(n, s, cfg, trace, stop)
    requires InBudget(n, s, cfg)
    requires s.transformAttempts <= bound && cfg.limits.maxTransform <= bound
    ensures forall i :: 0 <= i < |trace| ==> trace[i].output.transformAttempts <= bound
    decreases |trace|
  {
    if |trace| > 1 {
      var rest := trace[1..];
      TransformAttemptsBounded(trace[1].node, trace[0].output, cfg, rest, stop, bound);
      forall i | 1 <= i < |trace| ensures trace[i].output.transformAttempts <= bound {
        assert trace[i] == rest[i - 1];
      }
    }
  }

  /**
   * `generation_attempts` never passes a bound that covers 1 and
   * `max_generation_retries`, when the run is entered below it: a generation
   * starts only below the bound, and a further one only after the budgets
   * were checked.
   */
  lemma {:induction false} GenerationAttemptsBounded(n: Node, s: State, cfg: Settings, trace: seq<Visit>, stop: Stop, bound: int)
    requires Follows(n, s, cfg, trace, stop)
    requires 1 <= bound && cfg.limits.maxGeneration <= bound
    requires s.generationAttempts <= bound
    requires n != Fallback && n != NoDocsFallback ==> s.generationAttempts < bound
    ensures forall i :: 0 <= i < |trace| ==> trace[i].output.generationAttempts <= bound
    decreases |trace|
  {
    if |trace| > 1 {
      var rest := trace[1..];
      GenerationAttemptsBounded(trace[1].node, trace[0].output, cfg, rest, stop, bound);
      forall i | 1 <= i < |trace| ensures trace[i].output.generationAttempts <= bound {
        assert trace[i] == rest[i - 1];
      }
    }
  }

  /** Every visit but `fallback` counts one iteration: the i-th output is at most i + 1 above the start. */
  lemma {:induction false} TotalIterationsBounded(n: Node, s: State, cfg: Settings, trace: seq<Visit>, stop: Stop)
    requires Follows(n, s, cfg, trace, stop)
    ensures forall i :: 0 <= i < |trace| ==> trace[i].output.totalIterations <= s.totalIterations + i + 1
    decreases |trace|
  {
    if |trace| > 1 {
      var rest := trace[1..];
      TotalIterationsBounded(trace[1].node, trace[0].output, cfg, rest, stop);
      forall i | 1 <= i < |trace| ensures trace[i].output.totalIterations <= s.totalIterations + i + 1 {
        assert trace[i] == rest[i - 1];
      }
    }
  }

  /**
   * How a run ends: after `no_docs_fallback` with both flags raised, after
   * `fallback` with the max-iterations flag only, and after an accepted
   * generation with both flags down; every visit before carries its node's flags.
   */
  lemma {:induction false} FollowsFlags(n: Node, s: State, cfg: Settings, trace: seq<Visit>, stop: Stop)
    requires Follows(n, s, cfg, trace, stop)
    ensures forall i :: 0 <= i < |trace| ==> VisitFlags(trace[i])
    ensures |trace| >= 1 ==> var last := trace[|trace| - 1];
      && (last.node == NoDocsFallback ==> last.output.noRelevantDocsFallback && last.output.fallbackType == "no_relevant_docs")
      && (last.node == Fallback ==> last.output.maxIterationsReached && last.output.fallbackType == "max_iterations")
      && (last.node == Generate ==> !last.output.maxIterationsReached && last.output.fallbackType == "")
    decreases |trace|
  {
    if |trace| > 1 {
      var rest := trace[1..];
      FollowsFlags(trace[1].node, trace[0].output, cfg, rest, stop);
      forall i | 1 <= i < |trace| ensures VisitFlags(trace[i]) {
        assert trace[i] == rest[i - 1];
      }
      assert trace[|trace| - 1] == rest[|rest| - 1];
    }
  }

  /** The counters along any run from a fresh state with the default limits. */
  lemma {:induction false} DefaultRunCounters(question: string, s: State, cfg: Settings, trace: seq<Visit>, stop: Stop)
    requires s.originalQuestion == Some(question)
    requires s.generationAttempts == 0 && s.transformAttempts == 0 && s.totalIterations == 0
    requires cfg.limits == DefaultLimits
    requires Follows(Retrieve, s, cfg, trace, stop)
    ensures |trace| + (if stop.Ended? then 0 else 1) <= 12
    ensures forall i :: 0 <= i < |trace| ==>
      && trace[i].output.totalIterations <= 12
      && trace[i].output.generationAttempts <= 2
      && trace[i].output.transformAttempts <= 2
      && trace[i].output.originalQuestion == Some(question)
  {
    assert Measure(Retrieve, s, cfg.limits) == 12;
    FollowsEnds(Retrieve, s, cfg, trace, stop);
    TotalIterationsBounded(Retrieve, s, cfg, trace, stop);
    GenerationAttemptsBounded(Retrieve, s, cfg, trace, stop, 2);
    TransformAttemptsBounded(Retrieve, s, cfg, trace, stop, 2);
    OriginalQuestionKept(Retrieve, s, cfg, trace, stop, question);
  }

  /**
   * With the default settings, a run from a fresh state takes at most 12
   * super-steps, within the recursion limit of 20, never counts more than 12
   * iterations, below the budget of 15, and makes at most 2 generations and
   * 2 rewrites. It cannot run out of steps; it reaches END unless the stored
   * temperature is not a number, when the only thing that can stop it is the
   * `TypeError` of a retried `generate`.
   */
  lemma DefaultRunIsShort(question: string, modelConfig: map<string, Value>, collectionIds: seq<int>, o: Oracles)
    ensures Invoke(InitialState(question, modelConfig, collectionIds), DefaultSettings, o, Config.GraphRecursionLimit).Ok?
    ensures var out := Invoke(InitialState(question, modelConfig, collectionIds), DefaultSettings, o, Config.GraphRecursionLimit).value;
      && |out.visits| <= 12 < Config.GraphRecursionLimit
      && !out.stop.OutOfSteps?
      && (out.stop.Raised? ==>
            && out.stop.node == Generate
            && !Generator.NumericTemperature(modelConfig)
            && out.stop.error == Generator.AddError(modelConfig["temperature"]))
      && (Generator.NumericTemperature(modelConfig) ==> out.stop.Ended?)
      && (forall i :: 0 <= i < |out.visits| ==>
            && out.visits[i].output.totalIterations <= 12 < DefaultLimits.maxTotal
            && out.visits[i].output.generationAttempts <= 2
            && out.visits[i].output.transformAttempts <= 2
            && out.visits[i].output.originalQuestion == Some(question))
  {
    var s := InitialState(question, modelConfig, collectionIds);
    var cfg := DefaultSettings;
    var out := Run(Retrieve, s, cfg, o, 0, Config.GraphRecursionLimit);
    assert Invoke(s, cfg, o, Config.GraphRecursionLimit) == Ok(out);
    assert cfg.grading.batchSize == 4 && cfg.hallucinationBatchSize == 3;
    DefaultRunCounters(question, s, cfg, out.visits, out.stop);
    RaisedOnlyByTemperature(Retrieve, s, cfg, out.visits, out.stop);
  }
}
