/** The `retrieve` node (core/graph/nodes/retriever.py). */
module Retriever {
  import opened Wrappers
  import opened GraphUtils

  /** What a retriever may hand back: `None`, a string, a list, or any other object. */
  datatype Raw = RNone | RStr(s: string) | RList(items: seq<Item>) | ROther(repr: string)

  /**
   * The retrieval back ends. `collection(id, question)` is the custom-collection
   * retriever's answer, `None` when it raises; `tool(question)` is the standard
   * retriever tool's answer, `None` when it raises.
   */
  datatype Env = Env(collection: (int, string) -> Option<seq<Item>>, tool: string -> Option<Raw>)

  function Tagged(content: string, source: string): Doc
  {
    Doc(content, map["source" := Str(source)])
  }

  /** A list element: kept when it is a `Document`, wrapped via `str()` otherwise. */
  function NormaliseItem(it: Item): (d: Doc)
    ensures d.content == Render(it)
    ensures it.IDoc? ==> d == it.doc
  {
    if it.IDoc? then it.doc else Tagged(Render(it), "converted_from_list")
  }

  /** The normalisation of a raw result into a list of documents. */
  function Normalised(raw: Raw): (docs: seq<Doc>)
    ensures raw.RNone? ==> docs == []
    ensures raw.RStr? ==> docs == [Tagged(raw.s, "retriever_string")]
    ensures raw.ROther? ==> docs == [Tagged(raw.repr, "converted_single_item")]
    ensures raw.RList? ==> (|docs| == |raw.items|
                             && forall i :: 0 <= i < |docs| ==> docs[i].content == Render(raw.items[i]))
  {
    match raw
    case RNone => []
    case RStr(s) => [Tagged(s, "retriever_string")]
    case RList(items) => seq(|items|, i requires 0 <= i < |items| => NormaliseItem(items[i]))
    case ROther(r) => [Tagged(r, "converted_single_item")]
  }

  /** What one collection contributes: its documents, or nothing when it raised. */
  function Fetched(fetch: (int, string) -> Option<seq<Item>>, id: int, question: string): seq<Item>
  {
    match fetch(id, question)
    case Some(docs) => docs
    case None => []
  }

  /** The documents of every collection, concatenated in `collection_ids` order. */
  function Collected(ids: seq<int>, question: string, fetch: (int, string) -> Option<seq<Item>>): seq<Item>
    decreases |ids|
  {
    if ids == [] then [] else Fetched(fetch, ids[0], question) + Collected(ids[1..], question, fetch)
  }

  /** Collecting over two runs of ids is collecting over each, in order. */
  lemma {:induction false} CollectedAppend(a: seq<int>, b: seq<int>, question: string, fetch: (int, string) -> Option<seq<Item>>)
    ensures Collected(a + b, question, fetch) == Collected(a, question, fetch) + Collected(b, question, fetch)
    decreases |a|
  {
    if a == [] {
      assert a + b == b;
    } else {
      assert (a + b)[0] == a[0];
      assert (a + b)[1..] == a[1..] + b;
      CollectedAppend(a[1..], b, question, fetch);
    }
  }

  /** A collection that raises is skipped: the others still contribute, in order. */
  lemma SkipsFailingCollection(a: seq<int>, id: int, b: seq<int>, question: string, fetch: (int, string) -> Option<seq<Item>>)
    requires fetch(id, question).None?
    ensures Collected(a + [id] + b, question, fetch) == Collected(a, question, fetch) + Collected(b, question, fetch)
  {
    CollectedAppend(a + [id], b, question, fetch);
    CollectedAppend(a, [id], question, fetch);
    assert Collected([id], question, fetch) == [] by {
      assert [id][1..] == [];
    }
    assert Collected(a, question, fetch) + [] == Collected(a, question, fetch);
  }

  /** The raw result: the collections when some are named, else the retriever tool (`None`: it raised). */
  function RawResult(s: State, env: Env): Option<Raw>
  {
    if |s.collectionIds| > 0 then Some(RList(Collected(s.collectionIds, s.question, env.collection)))
    else env.tool(s.question)
  }

  function RetrievedDocs(s: State, env: Env): seq<Doc>
  {
    match RawResult(s, env)
    case None => []
    case Some(raw) => Normalised(raw)
  }

  /**
   * `retrieve`: the documents replaced by the normalised result (empty when the
   * tool raised), one more iteration on every path, everything else passed
   * through and the fallback flags cleared.
   */
  function Retrieve(s: State, env: Env): (r: State)
    ensures r.totalIterations == s.totalIterations + 1
    ensures r.question == s.question && r.originalQuestion == Some(OriginalOr(s))
    ensures r.generationAttempts == s.generationAttempts && r.transformAttempts == s.transformAttempts
    ensures r.collectionIds == s.collectionIds && r.generation == s.generation && r.modelConfig == s.modelConfig
    ensures !r.maxIterationsReached && !r.noRelevantDocsFallback && r.fallbackType == ""
    ensures |s.collectionIds| == 0 && env.tool(s.question).None? ==> r.documents == []
    ensures |s.collectionIds| == 0 && env.tool(s.question).Some? ==> r.documents == Normalised(env.tool(s.question).value)
    ensures |s.collectionIds| > 0 ==> r.documents == Normalised(RList(Collected(s.collectionIds, s.question, env.collection)))
    ensures |s.collectionIds| > 0 ==> |r.documents| == |Collected(s.collectionIds, s.question, env.collection)|
  {
    State(
      question := s.question,
      originalQuestion := Some(OriginalOr(s)),
      generation := s.generation,
      documents := RetrievedDocs(s, env),
      modelConfig := s.modelConfig,
      collectionIds := s.collectionIds,
      generationAttempts := s.generationAttempts,
      transformAttempts := s.transformAttempts,
      totalIterations := s.totalIterations + 1,
      maxIterationsReached := false,
      noRelevantDocsFallback := false,
      fallbackType := "")
  }

  /** The loop over `collection_ids`, skipping a collection whose retrieval raises. */
  method CollectFromCollections(ids: seq<int>, question: string, fetch: (int, string) -> Option<seq<Item>>)
    returns (all: seq<Item>)
    ensures all == Collected(ids, question, fetch)
  {
    all := [];
    var i := 0;
    while i < |ids|
      invariant 0 <= i <= |ids|
      invariant all == Collected(ids[..i], question, fetch)
    {
      CollectedAppend(ids[..i], [ids[i]], question, fetch);
      assert ids[..i + 1] == ids[..i] + [ids[i]];
      assert Collected([ids[i]], question, fetch) == Fetched(fetch, ids[i], question) by {
        assert [ids[i]][1..] == [];
      }
      match fetch(ids[i], question) {
        case Some(docs) => all := all + docs;
        case None =>
      }
      i := i + 1;
    }
    assert ids[..i] == ids;
  }

  /** The loop converting a list result element by element. */
  method NormaliseList(items: seq<Item>) returns (docs: seq<Doc>)
    ensures docs == Normalised(RList(items))
  {
    docs := [];
    var j := 0;
    while j < |items|
      invariant 0 <= j <= |items|
      invariant docs == Normalised(RList(items[..j]))
    {
      docs := docs + [NormaliseItem(items[j])];
      j := j + 1;
    }
    assert items[..j] == items;
  }

  /** The node as the source runs it. */
  method RetrieveNode(s: State, env: Env) returns (r: State)
    ensures r == Retrieve(s, env)
  {
    var raw: Option<Raw>;
    if |s.collectionIds| > 0 {
      var all := CollectFromCollections(s.collectionIds, s.question, env.collection);
      raw := Some(RList(all));
    } else {
      raw := env.tool(s.question);
    }
    var documents: seq<Doc>;
    match raw {
      case None => documents := [];
      case Some(RList(items)) => documents := NormaliseList(items);
      case Some(other) => documents := Normalised(other);
    }
    assert documents == RetrievedDocs(s, env);
    r := State(
      question := s.question,
      originalQuestion := Some(OriginalOr(s)),
      generation := s.generation,
      documents := documents,
      modelConfig := s.modelConfig,
      collectionIds := s.collectionIds,
      generationAttempts := s.generationAttempts,
      transformAttempts := s.transformAttempts,
      totalIterations := s.totalIterations + 1,
      maxIterationsReached := false,
      noRelevantDocsFallback := false,
      fallbackType := "");
  }
}
