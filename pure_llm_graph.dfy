/** The pure-LLM baseline graph (core/graph/pure_llm_graph.py): one node that answers without retrieval. */
module PureLlmGraph {
  import opened GraphUtils
  import StateGraph

  /**
   * The dictionary `pure_llm_generate` returns. It has no `original_question`,
   * `collection_ids`, `no_relevant_docs_fallback` or `fallback_type` key.
   */
  datatype Output = Output(
    question: string,
    generation: string,
    documents: seq<Doc>,
    modelConfig: map<string, Value>,
    generationAttempts: int,
    transformAttempts: int,
    totalIterations: int,
    maxIterationsReached: bool)

  /**
   * `pure_llm_generate`: `llm` answers the current question alone, with the
   * state's model configuration; the counters are constants.
   */
  function PureLlmGenerate(s: State, llm: PromptCall -> string): (r: Output)
    ensures r.generation == llm(PromptCall(s.question, s.modelConfig))
    ensures r.question == s.question && r.modelConfig == s.modelConfig
    ensures r.documents == [] && !r.maxIterationsReached
    ensures r.generationAttempts == 1 && r.transformAttempts == 0 && r.totalIterations == 1
  {
    Output(
      question := s.question,
      generation := llm(PromptCall(s.question, s.modelConfig)),
      documents := [],
      modelConfig := s.modelConfig,
      generationAttempts := 1,
      transformAttempts := 0,
      totalIterations := 1,
      maxIterationsReached := false)
  }

  /**
   * The output depends on the question and the model configuration only:
   * documents, counters, the original question and the flags of the input
   * play no part.
   */
  lemma PureLlmIgnoresHistory(s: State, t: State, llm: PromptCall -> string)
    requires s.question == t.question && s.modelConfig == t.modelConfig
    ensures PureLlmGenerate(s, llm) == PureLlmGenerate(t, llm)
  {
  }

  const PureLlmWiring: StateGraph.Wiring := StateGraph.Wiring(
    {"generate"},
    {(StateGraph.Start, "generate"), ("generate", StateGraph.End)},
    map[])

  /** `create_pure_llm_graph`: one node between START and END. */
  method CreatePureLlmGraph() returns (w: StateGraph.Wiring)
    ensures w == PureLlmWiring
    ensures w.Closed() && w.Routes(StateGraph.Start, "", "generate") && w.Routes("generate", "", StateGraph.End)
  {
    var workflow := new StateGraph.Workflow();
    workflow.AddNode("generate");
    workflow.AddEdge(StateGraph.Start, "generate");
    workflow.AddEdge("generate", StateGraph.End);
    w := workflow.Compile();
  }
}
