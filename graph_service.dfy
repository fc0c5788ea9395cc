/**
 * The graph service (services/graph_service.py): the cache of compiled
 * graphs, the loop over a graph's streamed node outputs, and the assembly of
 * the query result from the last output.
 */
module GraphService {
  import opened Wrappers
  import opened GraphUtils
  import Text
  import Schemas
  import StateGraph
  import AdaptiveGraph
  import RagGraph
  import PureLlmGraph

  /** A compiled graph, with the two enum members it was requested for. */
  datatype Compiled = Compiled(graphType: Schemas.GraphType, retrieverType: Schemas.RetrieverType, wiring: StateGraph.Wiring)

  /** `f"{graph_type.value}_{retriever_type.value}"` */
  function GraphKey(g: Schemas.GraphType, r: Schemas.RetrieverType): (k: string)
    ensures |k| == |g.Value()| + 1 + |r.Value()|
    ensures k[..|g.Value()|] == g.Value() && k[|g.Value()|] == '_' && k[|g.Value()| + 1..] == r.Value()
  {
    g.Value() + "_" + r.Value()
  }

  /** The cache key names the request: different requests never share a key. */
  lemma GraphKeyInjective(g1: Schemas.GraphType, r1: Schemas.RetrieverType, g2: Schemas.GraphType, r2: Schemas.RetrieverType)
    ensures GraphKey(g1, r1) == GraphKey(g2, r2) <==> g1 == g2 && r1 == r2
  {
    if GraphKey(g1, r1) == GraphKey(g2, r2) {
      var k := GraphKey(g1, r1);
      assert k[0] == g1.Value()[0] && k[0] == g2.Value()[0];
      assert g1 == g2;
      assert k[|g1.Value()| + 1..] == r1.Value() && k[|g2.Value()| + 1..] == r2.Value();
      Schemas.ValuesDistinct(g1, g2, r1, r2);
    }
  }

  /**
   * The wiring each graph type compiles to. Every one is closed and has a
   * `generate` node; the two RAG graphs start by retrieving, the pure-LLM
   * graph goes straight to generation.
   */
  function WiringFor(g: Schemas.GraphType): (w: StateGraph.Wiring)
    ensures w.Closed() && "generate" in w.nodes
    ensures w.Routes(StateGraph.Start, "", "retrieve") <==> g != Schemas.PureLlm
    ensures w.Routes(StateGraph.Start, "", "generate") <==> g == Schemas.PureLlm
  {
    match g
    case AdaptiveRag =>
      AdaptiveGraph.AdaptiveWiringClosed();
      AdaptiveGraph.AdaptiveWiring
    case SimpleRag => RagGraph.RagWiring
    case PureLlm => PureLlmGraph.PureLlmWiring
  }

  /**
   * The builder chain of `get_graph` and `rebuild_graph`: one `create_*`
   * call per graph type. The pure-LLM graph ignores the retriever type.
   */
  method Build(g: Schemas.GraphType, r: Schemas.RetrieverType) returns (c: Compiled)
    ensures c == Compiled(g, r, WiringFor(g))
    ensures c.wiring.Closed()
  {
    var w;
    match g {
      case AdaptiveRag =>
        w := AdaptiveGraph.CreateAdaptiveGraph();
        AdaptiveGraph.AdaptiveWiringClosed();
      case SimpleRag =>
        w := RagGraph.CreateRagGraph();
      case PureLlm =>
        w := PureLlmGraph.CreatePureLlmGraph();
    }
    c := Compiled(g, r, w);
  }

  /** `GraphService`: the `_graphs` dictionary. */
  class Service {
    var graphs: map<string, Compiled>

    constructor()
      ensures graphs == map[]
    {
      graphs := map[];
    }

    /** Every cached graph is stored under its own key and is the graph its type compiles to. */
    predicate Valid()
      reads this
    {
      forall key :: key in graphs ==>
        key == GraphKey(graphs[key].graphType, graphs[key].retrieverType) && graphs[key].wiring == WiringFor(graphs[key].graphType)
    }

    /** `get_graph`: builds only on a cache miss, and answers every request with the graph for its type. */
    method GetGraph(g: Schemas.GraphType, r: Schemas.RetrieverType) returns (c: Compiled)
      requires Valid()
      modifies this
      ensures Valid()
      ensures c == Compiled(g, r, WiringFor(g))
      ensures graphs == old(graphs)[GraphKey(g, r) := c]
      ensures GraphKey(g, r) in old(graphs) ==> graphs == old(graphs)
    {
      var key := GraphKey(g, r);
      if key !in graphs {
        var built := Build(g, r);
        graphs := graphs[key := built];
      }
      c := graphs[key];
      GraphKeyInjective(c.graphType, c.retrieverType, g, r);
    }

    /** `rebuild_graph`: builds unconditionally and replaces the cached entry. */
    method RebuildGraph(g: Schemas.GraphType, r: Schemas.RetrieverType) returns (c: Compiled)
      requires Valid()
      modifies this
      ensures Valid()
      ensures c == Compiled(g, r, WiringFor(g))
      ensures graphs == old(graphs)[GraphKey(g, r) := c]
    {
      c := Build(g, r);
      graphs := graphs[GraphKey(g, r) := c];
    }

    /**
     * `execute_query`. `stream` stands for `graph.stream`: the steps the
     * compiled graph yields from the initial state, each with the time it
     * took, and the exception that ended the stream, if any. The trace and the
     * timings of the steps completed are returned on every path, as the failure
     * path records them before it re-raises.
     */
    method ExecuteQuery(question: string, g: Schemas.GraphType, r: Schemas.RetrieverType,
                        modelConfig: Option<map<string, Value>>, collectionIds: Option<seq<int>>,
                        stream: (Compiled, State) -> StreamRun)
      returns (result: Result<QueryResult>, trace: seq<string>, timings: map<string, real>)
      requires Valid()
      modifies this
      ensures Valid()
      ensures graphs == old(graphs)[GraphKey(g, r) := Compiled(g, r, WiringFor(g))]
      ensures var run := stream(Compiled(g, r, WiringFor(g)), InitialState(question, modelConfig.GetOr(map[]), collectionIds.GetOr([])));
        && trace == TraceOf(Timed(run.steps))
        && timings == TimingsOf(Timed(run.steps))
        && result == (if run.failure.Some? then Err(run.failure.value) else Assemble(question, Timed(run.steps)))
    {
      var graph := GetGraph(g, r);
      var initial := InitialState(question, modelConfig.GetOr(map[]), collectionIds.GetOr([]));
      var run := stream(graph, initial);
      var final: Option<NodeOutput>;
      trace, timings, final := Consume(run.steps);
      if run.failure.Some? {
        return Err(run.failure.value), trace, timings;
      }
      if final.None? {
        return Err(NoFinalState), trace, timings;
      }
      var documents := Documents(final.value);
      var infos := DocumentInfos(documents);
      if infos.Err? {
        return Err(infos.error), trace, timings;
      }
      var o := final.value;
      result := Ok(QueryResult(
        Generation(o),
        |documents|,
        trace,
        if Question(o) != question then Some(Question(o)) else None,
        Metrics(o),
        infos.value,
        timings));
    }
  }

  /** One node's output as the stream yields it: a full graph state, or the pure-LLM node's smaller dictionary. */
  datatype NodeOutput = Full(state: State) | Pure(out: PureLlmGraph.Output)

  /** `final_state.get("generation", "No answer generated")`: both shapes carry the key. */
  function Generation(o: NodeOutput): string
  {
    match o
    case Full(s) => s.generation
    case Pure(p) => p.generation
  }

  function Documents(o: NodeOutput): seq<Doc>
  {
    match o
    case Full(s) => s.documents
    case Pure(p) => p.documents
  }

  function Question(o: NodeOutput): string
  {
    match o
    case Full(s) => s.question
    case Pure(p) => p.question
  }

  function MaxIterationsReached(o: NodeOutput): bool
  {
    match o
    case Full(s) => s.maxIterationsReached
    case Pure(p) => p.maxIterationsReached
  }

  /** `final_state.get("no_relevant_docs_fallback", False)`: the pure-LLM output lacks the key. */
  function NoRelevantDocsFallback(o: NodeOutput): bool
  {
    match o
    case Full(s) => s.noRelevantDocsFallback
    case Pure(_) => false
  }

  const NoDocsDisclaimer: string := "Diese Antwort basiert auf allgemeinem Wissen, nicht auf Dokumenten aus der Wissensbasis."
  const UnverifiedDisclaimer: string := "Diese Antwort konnte nicht vollständig verifiziert werden."

  /** `_get_disclaimer_text`: the no-documents text wins over the unverified text; no flag, no text. */
  function Disclaimer(o: NodeOutput): (d: Option<string>)
    ensures d == Some(NoDocsDisclaimer) <==> NoRelevantDocsFallback(o)
    ensures d == Some(UnverifiedDisclaimer) <==> !NoRelevantDocsFallback(o) && MaxIterationsReached(o)
    ensures d.None? <==> !NoRelevantDocsFallback(o) && !MaxIterationsReached(o)
  {
    if NoRelevantDocsFallback(o) then Some(NoDocsDisclaimer)
    else if MaxIterationsReached(o) then Some(UnverifiedDisclaimer)
    else None
  }

  /** `iteration_metrics`: the counters and flags read with their `.get` defaults, and the disclaimer. */
  function Metrics(o: NodeOutput): (m: Schemas.IterationMetrics)
    ensures m.maxIterationsReached == MaxIterationsReached(o) && m.noRelevantDocsFallback == NoRelevantDocsFallback(o)
    ensures m.disclaimer == Disclaimer(o)
    ensures o.Pure? ==> m.generationAttempts == o.out.generationAttempts && m.transformAttempts == o.out.transformAttempts
                        && m.totalIterations == o.out.totalIterations
    ensures o.Full? ==> m.generationAttempts == o.state.generationAttempts && m.transformAttempts == o.state.transformAttempts
                        && m.totalIterations == o.state.totalIterations
  {
    match o
    case Full(s) =>
      Schemas.IterationMetrics(s.generationAttempts, s.transformAttempts, s.totalIterations,
                               s.maxIterationsReached, s.noRelevantDocsFallback, Disclaimer(o))
    case Pure(p) =>
      Schemas.IterationMetrics(p.generationAttempts, p.transformAttempts, p.totalIterations,
                               p.maxIterationsReached, false, Disclaimer(o))
  }

  /** The pure-LLM graph never carries a disclaimer. */
  lemma PureLlmNoDisclaimer(s: State, llm: PromptCall -> string)
    ensures Disclaimer(Pure(PureLlmGraph.PureLlmGenerate(s, llm))).None?
    ensures Metrics(Pure(PureLlmGraph.PureLlmGenerate(s, llm))) ==
              Schemas.IterationMetrics(1, 0, 1, false, false, None)
  {
  }

  /** Python truthiness of a metadata value. */
  predicate Truthy(v: Value)
  {
    match v
    case Str(s) => s != ""
    case Int(i) => i != 0
    case Num(r) => r != 0.0
    case Bool(b) => b
    case StrList(items) => items != []
    case Counts(c) => c != map[]
    case Null => false
  }

  /** `metadata.get(key)`, with Python's `None` as `Null`. */
  function Get(m: Metadata, key: string): Value
  {
    if key in m then m[key] else Null
  }

  /** Python's `a or b`: the first operand when it is truthy, else the second. */
  function Or(a: Value, b: Value): (r: Value)
    ensures Truthy(a) ==> r == a
    ensures !Truthy(a) ==> r == b
    ensures Truthy(r) <==> Truthy(a) || Truthy(b)
  {
    if Truthy(a) then a else b
  }

  /**
   * The value's text, lower-cased, contains `token`. A token of lower-case
   * letters cannot straddle two entries of a dictionary's `repr`, nor come
   * from a number's or a boolean's.
   */
  predicate ValueMentions(v: Value, token: string)
  {
    match v
    case Str(s) => Text.Contains(Text.Lower(s), token)
    case StrList(items) => exists i :: 0 <= i < |items| && Text.Contains(Text.Lower(items[i]), token)
    case Counts(c) => exists k :: k in c && Text.Contains(Text.Lower(k), token)
    case _ => false
  }

  /** `token in str(metadata).lower()` */
  predicate Mentions(m: Metadata, token: string)
  {
    exists key :: key in m && (Text.Contains(Text.Lower(key), token) || ValueMentions(m[key], token))
  }

  predicate StackOverflowMarked(m: Metadata)
  {
    Mentions(m, "stackoverflow") || "so_question_id" in m
  }

  /** `metadata.get('source_type', 'unknown')` */
  function DeclaredSource(m: Metadata): Value
  {
    if "source_type" in m then m["source_type"] else Str("unknown")
  }

  /** The `endswith` test is reached, on a `file_path` that is not a string. */
  predicate PathRaises(m: Metadata)
  {
    !StackOverflowMarked(m) && !Mentions(m, "pdf") && "file_path" in m && !m["file_path"].Str?
  }

  /**
   * The source classification. The `endswith` test on `file_path` is
   * reached only when neither token is mentioned; on a value that is not a
   * string it raises.
   */
  function Classify(m: Metadata): (r: Result<Value>)
    ensures StackOverflowMarked(m) ==> r == Ok(Str("stackoverflow"))
    ensures !StackOverflowMarked(m) && Mentions(m, "pdf") ==> r == Ok(Str("pdf"))
    ensures r.Err? <==> PathRaises(m)
    ensures r.Ok? ==> r.value == Str("stackoverflow") || r.value == Str("pdf") || r.value == DeclaredSource(m)
  {
    if StackOverflowMarked(m) then Ok(Str("stackoverflow"))
    else if Mentions(m, "pdf") then Ok(Str("pdf"))
    else if "file_path" in m then
      match m["file_path"]
      case Str(path) => if Text.EndsWith(path, ".pdf") then Ok(Str("pdf")) else Ok(DeclaredSource(m))
      case _ => Err("AttributeError: 'endswith' of a non-string file_path")
    else Ok(DeclaredSource(m))
  }

  /** A string `file_path` ending in ".pdf" already puts "pdf" into the metadata's text. */
  lemma PdfPathMentionsPdf(m: Metadata)
    requires "file_path" in m && m["file_path"].Str? && Text.EndsWith(m["file_path"].s, ".pdf")
    ensures Mentions(m, "pdf")
  {
    var path := m["file_path"].s;
    Text.LowerKeepsSuffix(path, ".pdf");
    var l := Text.Lower(path);
    Text.ContainsAt(l, "pdf", |l| - 3);
    assert ValueMentions(m["file_path"], "pdf");
  }

  /**
   * The order "stackoverflow", "pdf", declared `source_type`, "unknown" is
   * the whole story: the `file_path` test never changes the outcome, it can
   * only raise.
   */
  lemma ClassifyOrder(m: Metadata)
    ensures !StackOverflowMarked(m) && !Mentions(m, "pdf") && Classify(m).Ok? ==> Classify(m) == Ok(DeclaredSource(m))
    ensures "source_type" !in m && !StackOverflowMarked(m) && !Mentions(m, "pdf") && Classify(m).Ok? ==>
              Classify(m) == Ok(Str("unknown"))
  {
    if "file_path" in m && m["file_path"].Str? && Text.EndsWith(m["file_path"].s, ".pdf") {
      PdfPathMentionsPdf(m);
    }
  }

  /** `metadata.get('title') or metadata.get('question_title') or metadata.get('file_path', 'Unknown')` */
  function Title(m: Metadata): (t: Value)
    ensures Truthy(Get(m, "title")) ==> t == m["title"]
    ensures !Truthy(Get(m, "title")) && Truthy(Get(m, "question_title")) ==> t == m["question_title"]
    ensures !Truthy(Get(m, "title")) && !Truthy(Get(m, "question_title")) ==>
              t == (if "file_path" in m then m["file_path"] else Str("Unknown"))
  {
    Or(Get(m, "title"), Or(Get(m, "question_title"), if "file_path" in m then m["file_path"] else Str("Unknown")))
  }

  /** The value types the client is shown: strings, numbers, booleans and lists (no `None`, no dict). */
  predicate Displayable(v: Value)
  {
    v.Str? || v.Int? || v.Num? || v.Bool? || v.StrList?
  }

  /** The metadata entries shown to the client: not the content keys, and only displayable values. */
  function Shown(m: Metadata): (r: Metadata)
    ensures forall key :: key in r <==> key in m && key != "page_content" && key != "full_content" && Displayable(m[key])
    ensures forall key :: key in r ==> r[key] == m[key]
  {
    map key | key in m && key != "page_content" && key != "full_content" && Displayable(m[key]) :: m[key]
  }

  /** `doc_info`. */
  datatype DocInfo = DocInfo(source: Value, title: Value, contentPreview: string, fullContent: string, relevanceScore: Value, metadata: Metadata)

  function Info(d: Doc): (r: Result<DocInfo>)
    ensures r.Ok? <==> !PathRaises(d.metadata)
    ensures r.Ok? ==> r.value.fullContent == d.content && r.value.contentPreview == Text.Preview(d.content, 200)
  {
    match Classify(d.metadata)
    case Err(e) => Err(e)
    case Ok(source) =>
      Ok(DocInfo(source, Title(d.metadata), Text.Preview(d.content, 200), d.content,
                 Or(Get(d.metadata, "relevance_score"), Get(d.metadata, "score")), Shown(d.metadata)))
  }

  /**
   * What the client is shown of a document: the title with its fallbacks, the
   * first score present, and the displayable metadata without the content keys.
   */
  lemma InfoShows(d: Doc)
    requires Info(d).Ok?
    ensures var info := Info(d).value;
      && Classify(d.metadata) == Ok(info.source)
      && info.title == Title(d.metadata)
      && info.relevanceScore == Or(Get(d.metadata, "relevance_score"), Get(d.metadata, "score"))
      && "page_content" !in info.metadata && "full_content" !in info.metadata
      && forall key :: key in info.metadata ==> key in d.metadata && info.metadata[key] == d.metadata[key] && Displayable(info.metadata[key])
  {
  }

  /** Every value in order, or the first error: a loop that raises on the first failing element. */
  function Collect<T>(rs: seq<Result<T>>): (r: Result<seq<T>>)
    ensures r.Ok? <==> forall i :: 0 <= i < |rs| ==> rs[i].Ok?
    ensures r.Ok? ==> |r.value| == |rs| && forall i :: 0 <= i < |rs| ==> rs[i] == Ok(r.value[i])
    ensures r.Err? ==> exists i :: 0 <= i < |rs| && rs[i] == Err(r.error) && forall k :: 0 <= k < i ==> rs[k].Ok?
    decreases |rs|
  {
    if rs == [] then Ok([])
    else if rs[0].Err? then Err(rs[0].error)
    else
      var rest := Collect(rs[1..]);
      assert forall i :: 1 <= i < |rs| ==> rs[1..][i - 1] == rs[i];
      if rest.Err? then
        var k :| 0 <= k < |rs| - 1 && rs[1..][k] == Err(rest.error) && forall j :: 0 <= j < k ==> rs[1..][j].Ok?;
        assert rs[k + 1] == Err(rest.error);
        rest
      else Ok([rs[0].value] + rest.value)
  }

  /** `values` followed by the outcome `r` of the rest of a loop. */
  function Prepend<T>(values: seq<T>, r: Result<seq<T>>): Result<seq<T>>
  {
    if r.Ok? then Ok(values + r.value) else r
  }

  /** One more element of a loop that has not failed yet. */
  lemma CollectStep<T>(rs: seq<Result<T>>, i: nat, values: seq<T>)
    requires i < |rs| && Collect(rs) == Prepend(values, Collect(rs[i..]))
    ensures rs[i].Err? ==> Collect(rs) == Err(rs[i].error)
    ensures rs[i].Ok? ==> Collect(rs) == Prepend(values + [rs[i].value], Collect(rs[i + 1..]))
  {
    var tail := rs[i..];
    assert tail[1..] == rs[i + 1..];
    CollectFirst(tail);
    var rest := Collect(rs[i + 1..]);
    if rs[i].Ok? && rest.Ok? {
      assert values + ([rs[i].value] + rest.value) == (values + [rs[i].value]) + rest.value;
    }
  }

  /** One unfolding of `Collect`. */
  lemma CollectFirst<T>(rs: seq<Result<T>>)
    requires rs != []
    ensures rs[0].Err? ==> Collect(rs) == Err(rs[0].error)
    ensures rs[0].Ok? ==> Collect(rs) == Prepend([rs[0].value], Collect(rs[1..]))
  {
  }

  /** `Info` of every document, in order. */
  function InfoResults(docs: seq<Doc>): (rs: seq<Result<DocInfo>>)
    ensures |rs| == |docs| && forall i :: 0 <= i < |docs| ==> rs[i] == Info(docs[i])
  {
    seq(|docs|, i requires 0 <= i < |docs| => Info(docs[i]))
  }

  /** The documents' infos in order, or the first failing document's error. */
  function Infos(docs: seq<Doc>): (r: Result<seq<DocInfo>>)
    ensures r.Ok? <==> forall i :: 0 <= i < |docs| ==> Info(docs[i]).Ok?
    ensures r.Ok? ==> |r.value| == |docs| && forall i :: 0 <= i < |docs| ==> r.value[i] == Info(docs[i]).value
    ensures r.Err? ==> exists i :: 0 <= i < |docs| && Info(docs[i]) == Err(r.error) && forall j :: 0 <= j < i ==> Info(docs[j]).Ok?
  {
    Collect(InfoResults(docs))
  }

  /** The loop that builds `retrieved_documents`; it raises on the first document whose classification raises. */
  method DocumentInfos(docs: seq<Doc>) returns (r: Result<seq<DocInfo>>)
    ensures r == Infos(docs)
  {
    var rs := InfoResults(docs);
    var infos: seq<DocInfo> := [];
    var i := 0;
    assert rs[0..] == rs;
    assert Collect(rs).Ok? ==> [] + Collect(rs).value == Collect(rs).value;
    while i < |docs|
      invariant 0 <= i <= |docs|
      invariant Collect(rs) == Prepend(infos, Collect(rs[i..]))
    {
      var info := rs[i];
      CollectStep(rs, i, infos);
      if info.Err? {
        return Err(info.error);
      }
      infos := infos + [info.value];
      i := i + 1;
    }
    assert rs[|docs|..] == [];
    assert infos + [] == infos;
    r := Ok(infos);
  }

  /** One `{node_name: node_output}` entry of a streamed step. */
  datatype Update = Update(node: string, output: NodeOutput)

  /** A streamed step: its updates, and the milliseconds since the previous step. */
  datatype StreamStep = StreamStep(duration: real, updates: seq<Update>)

  /** What `graph.stream` yields: the steps, then the exception that ended the stream, if any. */
  datatype StreamRun = StreamRun(steps: seq<StreamStep>, failure: Option<string>)

  /** An update together with the duration of the step that yielded it. */
  datatype Executed = Executed(node: string, duration: real, output: NodeOutput)

  function StepUpdates(step: StreamStep): (r: seq<Executed>)
    ensures |r| == |step.updates|
    ensures forall i :: 0 <= i < |r| ==> r[i] == Executed(step.updates[i].node, step.duration, step.updates[i].output)
  {
    seq(|step.updates|, i requires 0 <= i < |step.updates| =>
      Executed(step.updates[i].node, step.duration, step.updates[i].output))
  }

  /** Every update of every step, in order. */
  function Timed(steps: seq<StreamStep>): seq<Executed>
  {
    if steps == [] then [] else Timed(steps[..|steps| - 1]) + StepUpdates(steps[|steps| - 1])
  }

  /** `execution_trace`: the node names in the order executed. */
  function TraceOf(ex: seq<Executed>): (t: seq<string>)
    ensures |t| == |ex| && forall i :: 0 <= i < |ex| ==> t[i] == ex[i].node
  {
    seq(|ex|, i requires 0 <= i < |ex| => ex[i].node)
  }

  /** `node_timings`: each name mapped to a duration, a later entry overwriting an earlier one. */
  function TimingsOf(ex: seq<Executed>): map<string, real>
  {
    if ex == [] then map[] else TimingsOf(ex[..|ex| - 1])[ex[|ex| - 1].node := ex[|ex| - 1].duration]
  }

  /** `final_state`: the last update's output, `None` when nothing was streamed. */
  function FinalOf(ex: seq<Executed>): (f: Option<NodeOutput>)
    ensures f.None? <==> ex == []
    ensures f.Some? ==> f.value == ex[|ex| - 1].output
  {
    if ex == [] then None else Some(ex[|ex| - 1].output)
  }

  /** The timings name exactly the executed nodes. */
  lemma {:induction false} TimingsKeys(ex: seq<Executed>)
    ensures forall name :: name in TimingsOf(ex) <==> exists i :: 0 <= i < |ex| && ex[i].node == name
    decreases |ex|
  {
    if ex != [] {
      var front := ex[..|ex| - 1];
      TimingsKeys(front);
      forall name | name in TimingsOf(ex) ensures exists i :: 0 <= i < |ex| && ex[i].node == name {
        if name != ex[|ex| - 1].node {
          assert name in TimingsOf(front);
          var i :| 0 <= i < |front| && front[i].node == name;
          assert ex[i].node == name;
        }
      }
      forall name | (exists i :: 0 <= i < |ex| && ex[i].node == name) ensures name in TimingsOf(ex) {
        var i :| 0 <= i < |ex| && ex[i].node == name;
        if i < |ex| - 1 {
          assert front[i].node == name;
        }
      }
    }
  }

  /** Each executed node's timing is the duration of its last execution. */
  lemma {:induction false} TimingsKeepLast(ex: seq<Executed>)
    ensures forall i :: 0 <= i < |ex| && (forall j :: i < j < |ex| ==> ex[j].node != ex[i].node) ==>
              ex[i].node in TimingsOf(ex) && TimingsOf(ex)[ex[i].node] == ex[i].duration
    decreases |ex|
  {
    if ex != [] {
      var front := ex[..|ex| - 1];
      TimingsKeepLast(front);
      forall i | 0 <= i < |ex| && (forall j :: i < j < |ex| ==> ex[j].node != ex[i].node)
        ensures ex[i].node in TimingsOf(ex) && TimingsOf(ex)[ex[i].node] == ex[i].duration
      {
        if i < |ex| - 1 {
          assert front[i] == ex[i];
          assert forall j :: i < j < |front| ==> front[j] == ex[j];
        }
      }
    }
  }

  /** The message of the `AttributeError` raised when nothing was streamed and `final_state` is `None`. */
  const NoFinalState: string := "AttributeError: 'NoneType' object has no attribute 'get'"

  /** The returned record, without `processing_time_ms` and `graph_execution_id`. */
  datatype QueryResult = QueryResult(
    answer: string,
    documentsRetrieved: nat,
    graphTrace: seq<string>,
    rewrittenQuestion: Option<string>,
    metrics: Schemas.IterationMetrics,
    retrievedDocuments: seq<DocInfo>,
    nodeTimings: map<string, real>)

  /** The result `execute_query` assembles from a stream that ended normally. */
  function Assemble(question: string, ex: seq<Executed>): (r: Result<QueryResult>)
    ensures ex == [] ==> r == Err(NoFinalState)
    ensures ex != [] ==> (r.Ok? <==> Infos(Documents(ex[|ex| - 1].output)).Ok?)
    ensures r.Ok? ==>
      var o := ex[|ex| - 1].output;
      && r.value.answer == Generation(o)
      && r.value.documentsRetrieved == |Documents(o)| == |r.value.retrievedDocuments|
      && r.value.graphTrace == TraceOf(ex)
      && r.value.nodeTimings == TimingsOf(ex)
      && (r.value.rewrittenQuestion.None? <==> Question(o) == question)
      && (r.value.rewrittenQuestion.Some? ==> r.value.rewrittenQuestion.value == Question(o))
      && r.value.metrics == Metrics(o)
  {
    match FinalOf(ex)
    case None => Err(NoFinalState)
    case Some(o) =>
      match Infos(Documents(o))
      case Err(e) => Err(e)
      case Ok(infos) =>
        Ok(QueryResult(Generation(o), |Documents(o)|, TraceOf(ex),
                       if Question(o) != question then Some(Question(o)) else None,
                       Metrics(o), infos, TimingsOf(ex)))
  }

  /** Executing one more update extends the trace, overwrites its timing and replaces the final output. */
  lemma TrackOne(ex: seq<Executed>, e: Executed)
    ensures TraceOf(ex + [e]) == TraceOf(ex) + [e.node]
    ensures TimingsOf(ex + [e]) == TimingsOf(ex)[e.node := e.duration]
    ensures FinalOf(ex + [e]) == Some(e.output)
  {
    assert (ex + [e])[..|ex|] == ex;
  }

  lemma TimedSnoc(steps: seq<StreamStep>, i: nat)
    requires i < |steps|
    ensures Timed(steps[..i + 1]) == Timed(steps[..i]) + StepUpdates(steps[i])
  {
    assert steps[..i + 1][..i] == steps[..i];
  }

  lemma ExtendPrefix<T>(before: seq<T>, ups: seq<T>, j: nat)
    requires j < |ups|
    ensures before + ups[..j + 1] == (before + ups[..j]) + [ups[j]]
  {
    assert ups[..j + 1] == ups[..j] + [ups[j]];
  }

  /** The stream loop: every update appends its node to the trace, sets its timing and becomes the final output. */
  method Consume(steps: seq<StreamStep>) returns (trace: seq<string>, timings: map<string, real>, final: Option<NodeOutput>)
    ensures trace == TraceOf(Timed(steps)) && timings == TimingsOf(Timed(steps)) && final == FinalOf(Timed(steps))
  {
    trace, timings, final := [], map[], None;
    var i := 0;
    while i < |steps|
      invariant 0 <= i <= |steps|
      invariant trace == TraceOf(Timed(steps[..i])) && timings == TimingsOf(Timed(steps[..i])) && final == FinalOf(Timed(steps[..i]))
    {
      TimedSnoc(steps, i);
      trace, timings, final := ConsumeStep(steps[i], trace, timings, final, Timed(steps[..i]));
      i := i + 1;
    }
    assert steps[..|steps|] == steps;
  }

  /** The inner loop over one step's `{node_name: node_output}` entries. */
  method ConsumeStep(step: StreamStep, trace0: seq<string>, timings0: map<string, real>, final0: Option<NodeOutput>, ghost before: seq<Executed>)
    returns (trace: seq<string>, timings: map<string, real>, final: Option<NodeOutput>)
    requires trace0 == TraceOf(before) && timings0 == TimingsOf(before) && final0 == FinalOf(before)
    ensures var after := before + StepUpdates(step);
      trace == TraceOf(after) && timings == TimingsOf(after) && final == FinalOf(after)
  {
    trace, timings, final := trace0, timings0, final0;
    ghost var ups := StepUpdates(step);
    ghost var done := before;
    var j := 0;
    assert before + ups[..0] == before;
    while j < |step.updates|
      invariant 0 <= j <= |step.updates|
      invariant done == before + ups[..j]
      invariant trace == TraceOf(done) && timings == TimingsOf(done) && final == FinalOf(done)
    {
      var u := step.updates[j];
      var e := Executed(u.node, step.duration, u.output);
      assert ups[j] == e;
      ExtendPrefix(before, ups, j);
      TrackOne(done, e);
      done := done + [e];
      trace := trace + [u.node];
      timings := timings[u.node := step.duration];
      final := Some(u.output);
      j := j + 1;
    }
    assert ups[..|step.updates|] == ups;
  }

  /**
   * The stream of an adaptive-graph run: one step per visited node, yielding
   * that node's name and the state it returned.
   */
  function AdaptiveStream(trace: seq<AdaptiveGraph.Visit>, durations: nat -> real): (steps: seq<StreamStep>)
    ensures |steps| == |trace|
    ensures forall i :: 0 <= i < |trace| ==>
              steps[i] == StreamStep(durations(i), [Update(AdaptiveGraph.NodeName(trace[i].node), Full(trace[i].output))])
  {
    seq(|trace|, i requires 0 <= i < |trace| =>
      StreamStep(durations(i), [Update(AdaptiveGraph.NodeName(trace[i].node), Full(trace[i].output))]))
  }

  lemma {:induction false} AdaptiveTimed(trace: seq<AdaptiveGraph.Visit>, durations: nat -> real)
    ensures var ex := Timed(AdaptiveStream(trace, durations));
      |ex| == |trace| && forall i :: 0 <= i < |trace| ==>
        ex[i] == Executed(AdaptiveGraph.NodeName(trace[i].node), durations(i), Full(trace[i].output))
    decreases |trace|
  {
    if trace != [] {
      var front := trace[..|trace| - 1];
      AdaptiveTimed(front, durations);
      assert AdaptiveStream(trace, durations)[..|trace| - 1] == AdaptiveStream(front, durations);
    }
  }

  /**
   * A query answered by the adaptive graph: the trace lists the visited nodes
   * in order, and the disclaimer tells how the run ended — the no-documents
   * text after `no_docs_fallback`, the unverified text after `fallback`, none
   * when a useful generation ended it.
   */
  lemma AdaptiveQueryOutcome(question: string, s: State, cfg: AdaptiveGraph.Settings, trace: seq<AdaptiveGraph.Visit>, durations: nat -> real)
    requires AdaptiveGraph.Follows(AdaptiveGraph.Retrieve, s, cfg, trace, AdaptiveGraph.Ended)
    requires Infos(trace[|trace| - 1].output.documents).Ok?
    ensures var r := Assemble(question, Timed(AdaptiveStream(trace, durations)));
      var last := trace[|trace| - 1];
      && r.Ok?
      && |r.value.graphTrace| == |trace|
      && (forall i :: 0 <= i < |trace| ==> r.value.graphTrace[i] == AdaptiveGraph.NodeName(trace[i].node))
      && r.value.graphTrace[0] == "retrieve"
      && (last.node == AdaptiveGraph.NoDocsFallback ==> r.value.metrics.disclaimer == Some(NoDocsDisclaimer))
      && (last.node == AdaptiveGraph.Fallback ==> r.value.metrics.disclaimer == Some(UnverifiedDisclaimer))
      && (last.node == AdaptiveGraph.Generate ==> r.value.metrics.disclaimer.None? && last.route == "useful")
  {
    AdaptiveTimed(trace, durations);
    AdaptiveGraph.FollowsFlags(AdaptiveGraph.Retrieve, s, cfg, trace, AdaptiveGraph.Ended);
    AdaptiveGraph.FollowsEnds(AdaptiveGraph.Retrieve, s, cfg, trace, AdaptiveGraph.Ended);
    var ex := Timed(AdaptiveStream(trace, durations));
    assert ex[|ex| - 1].output == Full(trace[|trace| - 1].output);
  }
}
