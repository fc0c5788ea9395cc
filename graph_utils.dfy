/** The graph state record and `format_docs` (core/graph/utils.py). */
module GraphUtils {
  import opened Wrappers
  import Text

  /**
   * The values stored in metadata and model-configuration dictionaries;
   * `Counts` is a dictionary of counts such as a source breakdown.
   */
  datatype Value = Str(s: string) | Int(i: int) | Num(r: real) | Bool(b: bool) | StrList(items: seq<string>) | Counts(counts: map<string, int>) | Null

  type Metadata = map<string, Value>

  /** A LangChain `Document`: its `page_content` and its `metadata`. */
  datatype Doc = Doc(content: string, metadata: Metadata)

  /**
   * An element of a list of documents as the nodes receive it: a `Document`,
   * a plain string, or any other object, which is known only through `str()`.
   */
  datatype Item = IDoc(doc: Doc) | IStr(s: string) | IOther(repr: string)

  /** `doc.page_content if hasattr(doc, 'page_content') else str(doc)` */
  function Render(it: Item): string
  {
    match it
    case IDoc(d) => d.content
    case IStr(s) => s
    case IOther(r) => r
  }

  function AsItems(docs: seq<Doc>): (r: seq<Item>)
    ensures |r| == |docs| && forall i :: 0 <= i < |docs| ==> r[i] == IDoc(docs[i])
  {
    seq(|docs|, i requires 0 <= i < |docs| => IDoc(docs[i]))
  }

  /**
   * `GraphState`. `original_question` is optional because every node reads it
   * with `state.get("original_question", question)`.
   */
  datatype State = State(
    question: string,
    originalQuestion: Option<string>,
    generation: string,
    documents: seq<Doc>,
    modelConfig: map<string, Value>,
    collectionIds: seq<int>,
    generationAttempts: int,
    transformAttempts: int,
    totalIterations: int,
    maxIterationsReached: bool,
    noRelevantDocsFallback: bool,
    fallbackType: string)

  /** `state.get("original_question", state["question"])` */
  function OriginalOr(s: State): string
  {
    s.originalQuestion.GetOr(s.question)
  }

  /**
   * The state `execute_query` starts every graph with: the question stored
   * as both current and original question, no documents, counters at zero,
   * flags down.
   */
  function InitialState(question: string, modelConfig: map<string, Value>, collectionIds: seq<int>): (s: State)
    ensures s.question == question && s.originalQuestion == Some(question) && OriginalOr(s) == question
    ensures s.generation == "" && s.documents == []
    ensures s.modelConfig == modelConfig && s.collectionIds == collectionIds
    ensures s.generationAttempts == 0 && s.transformAttempts == 0 && s.totalIterations == 0
    ensures !s.maxIterationsReached && !s.noRelevantDocsFallback && s.fallbackType == ""
  {
    State(question, Some(question), "", [], modelConfig, collectionIds, 0, 0, 0, false, false, "")
  }

  /** The pure-LLM prompt's invocation: the question alone, with the model configuration. */
  datatype PromptCall = PromptCall(question: string, config: map<string, Value>)

  const Separator: string := "\n\n"

  function Rendered(docs: seq<Item>): (r: seq<string>)
    ensures |r| == |docs| && forall i :: 0 <= i < |docs| ==> r[i] == Render(docs[i])
  {
    seq(|docs|, i requires 0 <= i < |docs| => Render(docs[i]))
  }

  /** `format_docs`: the documents' texts joined by a blank line. */
  function FormatDocs(docs: seq<Item>): string
  {
    Text.Join(Rendered(docs), Separator)
  }

  /** No documents give the empty context; one document gives exactly its text. */
  lemma FormatDocsSmall(docs: seq<Item>)
    requires |docs| <= 1
    ensures |docs| == 0 ==> FormatDocs(docs) == ""
    ensures |docs| == 1 ==> FormatDocs(docs) == Render(docs[0])
  {
  }

  /** Documents are joined in order: one more document appends a separator and its text. */
  lemma FormatDocsSnoc(docs: seq<Item>, d: Item)
    requires |docs| >= 1
    ensures FormatDocs(docs + [d]) == FormatDocs(docs) + Separator + Render(d)
  {
    assert Rendered(docs + [d]) == Rendered(docs) + [Render(d)];
    Text.JoinSnoc(Rendered(docs), Render(d), Separator);
  }

  function TotalLength(docs: seq<Item>): nat
  {
    if docs == [] then 0 else |Render(docs[0])| + TotalLength(docs[1..])
  }

  lemma {:induction false} TotalLengthRendered(docs: seq<Item>)
    ensures Text.SumLengths(Rendered(docs)) == TotalLength(docs)
    decreases |docs|
  {
    if docs != [] {
      assert Rendered(docs)[1..] == Rendered(docs[1..]);
      TotalLengthRendered(docs[1..]);
    }
  }

  /** The context is as long as the texts plus two characters between neighbours. */
  lemma FormatDocsLength(docs: seq<Item>)
    requires |docs| >= 1
    ensures |FormatDocs(docs)| == TotalLength(docs) + 2 * (|docs| - 1)
  {
    Text.JoinLength(Rendered(docs), Separator);
    TotalLengthRendered(docs);
  }
}
