/** The simple RAG graph (core/graph/rag_graph.py): retrieve, then generate, then END. */
module RagGraph {
  import opened Wrappers
  import opened GraphUtils
  import StateGraph
  import Retriever
  import Generator

  const RagWiring: StateGraph.Wiring := StateGraph.Wiring(
    {"retrieve", "generate"},
    {(StateGraph.Start, "retrieve"), ("retrieve", "generate"), ("generate", StateGraph.End)},
    map[])

  /** `create_rag_graph`: the builder calls, in order. */
  method CreateRagGraph() returns (w: StateGraph.Wiring)
    ensures w == RagWiring
  {
    var workflow := new StateGraph.Workflow();
    workflow.AddNode("retrieve");
    workflow.AddNode("generate");
    workflow.AddEdge(StateGraph.Start, "retrieve");
    workflow.AddEdge("retrieve", "generate");
    workflow.AddEdge("generate", StateGraph.End);
    w := workflow.Compile();
  }

  /** The wiring is a single path START, retrieve, generate, END: no branch, no loop. */
  lemma RagWiringIsLinear()
    ensures RagWiring.Closed() && RagWiring.branches == map[]
    ensures forall e :: e in RagWiring.edges ==>
              e == (StateGraph.Start, "retrieve") || e == ("retrieve", "generate") || e == ("generate", StateGraph.End)
    ensures RagWiring.Routes(StateGraph.Start, "", "retrieve") && RagWiring.Routes("retrieve", "", "generate")
            && RagWiring.Routes("generate", "", StateGraph.End)
  {
  }

  /** A node's name with the state it returned, as the graph streams it. */
  datatype Output = Output(node: string, state: State)

  /** The streamed outputs of a run, and the exception that stopped it, if any. */
  datatype Outcome = Outcome(outputs: seq<Output>, raised: Option<string>)

  /**
   * A run: `retrieve`, then `generate` on what retrieval returned, which
   * raises the `TypeError` of a retry that cannot raise a temperature that
   * is not a number.
   */
  function Run(s: State, v: Generator.RetryVariation, env: Retriever.Env, llm: Generator.GenerationCall -> string): (out: Outcome)
    ensures out.raised.Some? <==> Generator.RaisesTypeError(s, v)
    ensures out.raised.Some? ==> out.raised.value == Generator.AddError(s.modelConfig["temperature"])
    ensures |out.outputs| == (if out.raised.Some? then 1 else 2)
    ensures out.outputs[0].node == "retrieve" && RagWiring.Routes(StateGraph.Start, "", out.outputs[0].node)
    ensures out.raised.None? ==>
      && out.outputs[1].node == "generate"
      && RagWiring.Routes(out.outputs[0].node, "", out.outputs[1].node)
      && RagWiring.Routes(out.outputs[1].node, "", StateGraph.End)
  {
    var retrieved := Retriever.Retrieve(s, env);
    match Generator.Generate(retrieved, v, llm)
    case Err(e) => Outcome([Output("retrieve", retrieved)], Some(e))
    case Ok(generated) => Outcome([Output("retrieve", retrieved), Output("generate", generated)], None)
  }

  /**
   * The generation sees exactly the retrieved documents as its context and
   * answers the original question; the documents it returns are those.
   */
  lemma GenerateSeesRetrieved(s: State, v: Generator.RetryVariation, env: Retriever.Env, llm: Generator.GenerationCall -> string)
    ensures var out := Run(s, v, env, llm);
      var retrieved := out.outputs[0].state;
      && retrieved.documents == Retriever.RetrievedDocs(s, env)
      && (out.raised.None? ==>
            && out.outputs[1].state.documents == retrieved.documents
            && out.outputs[1].state.generation
                 == llm(Generator.GenerationCall(FormatDocs(AsItems(retrieved.documents)), OriginalOr(s), out.outputs[1].state.modelConfig)))
  {
  }

  /**
   * From the state `execute_query` builds, a run is never a retry, so it
   * cannot raise; it ends with two iterations counted, one generation, no
   * rewrite, the flags down, and the model configuration untouched.
   */
  lemma FreshRunCounters(question: string, modelConfig: map<string, Value>, collectionIds: seq<int>,
                         v: Generator.RetryVariation, env: Retriever.Env, llm: Generator.GenerationCall -> string)
    ensures Run(InitialState(question, modelConfig, collectionIds), v, env, llm).raised.None?
    ensures var final := Run(InitialState(question, modelConfig, collectionIds), v, env, llm).outputs[1].state;
      && final.totalIterations == 2 && final.generationAttempts == 1 && final.transformAttempts == 0
      && !final.maxIterationsReached && !final.noRelevantDocsFallback
      && final.modelConfig == modelConfig && final.originalQuestion == Some(question)
  {
  }
}
