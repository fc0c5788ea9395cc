/**
 * The `grade_documents` node (core/graph/nodes/document_grader.py): every
 * document is graded by the LLM with a confidence gate, retried on a closed
 * TCP transport, graded in consecutive batches, and only the relevant ones are
 * kept, in order.
 */
module DocumentGrader {
  import opened Wrappers
  import opened GraphUtils
  import Text
  import Batching
  import Config

  /** The grading model's structured reply (`GradeDocuments`). */
  datatype Score = Score(binaryScore: string, confidence: real, reasoning: string)

  /** One invocation of the grading model: a reply, or a raised `RuntimeError` or other exception. */
  datatype Attempt = Replied(score: Score) | Raised(runtimeError: bool, message: string)

  /** What one invocation is asked: question, document text, document index, attempt number. */
  datatype GradeCall = GradeCall(question: string, document: string, docIndex: nat, attempt: nat)

  datatype Settings = Settings(batchSize: int, retryAttempts: int, threshold: real)

  const Defaults: Settings := Settings(
    Config.DocumentGradingBatchSize,
    Config.DocumentGradingRetryAttempts,
    Config.DocumentGradingConfidenceThreshold)

  /**
   * The shape of `state["documents"]`: a string, a list, or any other
   * object (a bare document or something else) with its truthiness.
   */
  datatype DocsInput = GStr(s: string) | GList(items: seq<Item>) | GOther(item: Item, truthy: bool)

  function Tagged(content: string, source: string): Doc
  {
    Doc(content, map["source" := Str(source)])
  }

  function NormaliseItem(it: Item): (d: Doc)
    ensures d.content == Render(it)
    ensures it.IDoc? ==> d == it.doc
  {
    match it
    case IDoc(d) => d
    case IStr(s) => Tagged(s, "string_conversion")
    case IOther(r) => Tagged(r, "unknown_type")
  }

  /** The input normalisation: every element becomes a document. */
  function Normalise(input: DocsInput): (docs: seq<Doc>)
    ensures input.GStr? ==> docs == [Tagged(input.s, "string_input")]
    ensures input.GOther? ==> docs == (if input.truthy then [NormaliseItem(input.item)] else [])
    ensures input.GList? ==> (|docs| == |input.items|
                              && forall i :: 0 <= i < |docs| ==> docs[i].content == Render(input.items[i]))
  {
    match input
    case GStr(s) => [Tagged(s, "string_input")]
    case GList(items) => seq(|items|, i requires 0 <= i < |items| => NormaliseItem(items[i]))
    case GOther(it, truthy) => if truthy then [NormaliseItem(it)] else []
  }

  /** A list of documents passes through normalisation unchanged. */
  lemma NormaliseDocs(docs: seq<Doc>)
    ensures Normalise(GList(AsItems(docs))) == docs
  {
  }

  /** `"tcptransport" in msg.lower() and "closed" in msg.lower()` */
  predicate IsTcpError(message: string)
  {
    var m := Text.Lower(message);
    Text.Contains(m, "tcptransport") && Text.Contains(m, "closed")
  }

  /** The only failure that is retried: a closed-transport `RuntimeError` before the last attempt. */
  predicate Retried(a: Attempt, attempt: nat, maxRetries: int)
  {
    a.Raised? && a.runtimeError && IsTcpError(a.message) && attempt < maxRetries - 1
  }

  /**
   * The `for attempt in range(max_retries)` loop from `attempt` on: the outcome
   * that ends it, or `None` when it runs out without a score.
   */
  function RetryFrom(grader: GradeCall -> Attempt, question: string, content: string, docIndex: nat, attempt: nat, maxRetries: int): Option<Attempt>
    decreases maxRetries - attempt
  {
    if attempt >= maxRetries then None
    else
      var a := grader(GradeCall(question, content, docIndex, attempt));
      if Retried(a, attempt, maxRetries) then RetryFrom(grader, question, content, docIndex, attempt + 1, maxRetries)
      else Some(a)
  }

  /** The number of grader invocations the loop makes from `attempt` on. */
  function CallsFrom(grader: GradeCall -> Attempt, question: string, content: string, docIndex: nat, attempt: nat, maxRetries: int): nat
    decreases maxRetries - attempt
  {
    if attempt >= maxRetries then 0
    else
      var a := grader(GradeCall(question, content, docIndex, attempt));
      if Retried(a, attempt, maxRetries) then 1 + CallsFrom(grader, question, content, docIndex, attempt + 1, maxRetries)
      else 1
  }

  /** At most `max_retries` invocations; at least one, with an outcome, whenever `max_retries >= 1`. */
  lemma {:induction false} CallsBounded(grader: GradeCall -> Attempt, question: string, content: string, docIndex: nat, attempt: nat, maxRetries: int)
    requires attempt <= maxRetries
    ensures CallsFrom(grader, question, content, docIndex, attempt, maxRetries) <= maxRetries - attempt
    ensures attempt < maxRetries ==> CallsFrom(grader, question, content, docIndex, attempt, maxRetries) >= 1
    ensures attempt < maxRetries ==> RetryFrom(grader, question, content, docIndex, attempt, maxRetries).Some?
    decreases maxRetries - attempt
  {
    if attempt < maxRetries {
      var a := grader(GradeCall(question, content, docIndex, attempt));
      if Retried(a, attempt, maxRetries) {
        CallsBounded(grader, question, content, docIndex, attempt + 1, maxRetries);
      }
    }
  }

  /** Any failure other than a closed-transport `RuntimeError` ends the loop at once. */
  lemma OtherErrorsNotRetried(grader: GradeCall -> Attempt, question: string, content: string, docIndex: nat, maxRetries: int)
    requires maxRetries >= 1
    requires grader(GradeCall(question, content, docIndex, 0)).Raised?
    requires !grader(GradeCall(question, content, docIndex, 0)).runtimeError
             || !IsTcpError(grader(GradeCall(question, content, docIndex, 0)).message)
    ensures RetryFrom(grader, question, content, docIndex, 0, maxRetries) == Some(grader(GradeCall(question, content, docIndex, 0)))
    ensures CallsFrom(grader, question, content, docIndex, 0, maxRetries) == 1
  {
  }

  /** A transport that stays closed is retried until the last attempt, whose error stands. */
  lemma {:induction false} PersistentTcpError(grader: GradeCall -> Attempt, question: string, content: string, docIndex: nat, attempt: nat, maxRetries: int)
    requires attempt < maxRetries
    requires forall k: nat :: attempt <= k < maxRetries ==>
               var a := grader(GradeCall(question, content, docIndex, k)); a.Raised? && a.runtimeError && IsTcpError(a.message)
    ensures CallsFrom(grader, question, content, docIndex, attempt, maxRetries) == maxRetries - attempt
    ensures RetryFrom(grader, question, content, docIndex, attempt, maxRetries) == Some(grader(GradeCall(question, content, docIndex, maxRetries - 1)))
    decreases maxRetries - attempt
  {
    if attempt < maxRetries - 1 {
      PersistentTcpError(grader, question, content, docIndex, attempt + 1, maxRetries);
    }
  }

  /** The tuple `grade_single_doc` returns: document, relevance, error, confidence, reasoning. */
  datatype Graded = Graded(doc: Doc, relevant: bool, error: Option<string>, confidence: real, reasoning: string)

  /** The error left when the loop ends with no score and `score.binary_score` is read. */
  const MissingScore: string := "'NoneType' object has no attribute 'binary_score'"

  function Failed(doc: Doc, message: string): Graded
  {
    Graded(doc, false, Some(message), 0.0, "Error: " + message)
  }

  /** The confidence gate applied to the loop's outcome; every failure is fail-closed. */
  function Judge(doc: Doc, outcome: Option<Attempt>, threshold: real): (g: Graded)
    ensures g.doc == doc
    ensures g.relevant <==> (outcome.Some? && outcome.value.Replied?
                             && outcome.value.score.binaryScore == "yes" && outcome.value.score.confidence >= threshold)
    ensures g.error.None? <==> (outcome.Some? && outcome.value.Replied?)
    ensures g.error.Some? ==> !g.relevant && g.confidence == 0.0
  {
    match outcome
    case None => Failed(doc, MissingScore)
    case Some(Raised(_, message)) => Failed(doc, message)
    case Some(Replied(score)) =>
      Graded(doc, score.binaryScore == "yes" && score.confidence >= threshold, None, score.confidence, score.reasoning)
  }

  /** `grade_single_doc` for document `docIndex`. */
  function SingleDoc(grader: GradeCall -> Attempt, question: string, doc: Doc, docIndex: nat, settings: Settings): Graded
  {
    Judge(doc, RetryFrom(grader, question, doc.content, docIndex, 0, settings.retryAttempts), settings.threshold)
  }

  /** A "yes" reply below the confidence threshold is not relevant. */
  lemma LowConfidenceRejected(grader: GradeCall -> Attempt, question: string, doc: Doc, docIndex: nat, settings: Settings, score: Score)
    requires RetryFrom(grader, question, doc.content, docIndex, 0, settings.retryAttempts) == Some(Replied(score))
    requires score.confidence < settings.threshold
    ensures !SingleDoc(grader, question, doc, docIndex, settings).relevant
  {
  }

  method GradeSingleDoc(grader: GradeCall -> Attempt, question: string, doc: Doc, docIndex: nat, settings: Settings)
    returns (g: Graded, calls: nat)
    ensures g == SingleDoc(grader, question, doc, docIndex, settings)
    ensures calls == CallsFrom(grader, question, doc.content, docIndex, 0, settings.retryAttempts)
  {
    var maxRetries := settings.retryAttempts;
    var outcome: Option<Attempt> := None;
    calls := 0;
    var attempt: nat := 0;
    while attempt < maxRetries
      invariant RetryFrom(grader, question, doc.content, docIndex, 0, maxRetries)
                == RetryFrom(grader, question, doc.content, docIndex, attempt, maxRetries)
      invariant CallsFrom(grader, question, doc.content, docIndex, 0, maxRetries)
                == calls + CallsFrom(grader, question, doc.content, docIndex, attempt, maxRetries)
      invariant outcome.None?
      decreases maxRetries - attempt
    {
      var a := grader(GradeCall(question, doc.content, docIndex, attempt));
      calls := calls + 1;
      if a.Raised? && a.runtimeError && IsTcpError(a.message) && attempt < maxRetries - 1 {
        attempt := attempt + 1;
      } else {
        outcome := Some(a);
        break;
      }
    }
    g := Judge(doc, outcome, settings.threshold);
  }

  /**
   * The result recorded for document `i`: `escaped(i)` is an exception that
   * `asyncio.gather` hands back in place of the tuple.
   */
  function DocResult(grader: GradeCall -> Attempt, escaped: nat -> Option<string>, question: string, docs: seq<Doc>, i: nat, settings: Settings): Graded
    requires i < |docs|
  {
    match escaped(i)
    case Some(message) => Failed(docs[i], message)
    case None => SingleDoc(grader, question, docs[i], i, settings)
  }

  /** `grade_all_docs`: one result per document, in document order. */
  function GradedAll(grader: GradeCall -> Attempt, escaped: nat -> Option<string>, question: string, docs: seq<Doc>, settings: Settings): (r: seq<Graded>)
    ensures |r| == |docs| && forall i :: 0 <= i < |docs| ==> r[i].doc == docs[i]
  {
    seq(|docs|, i requires 0 <= i < |docs| => DocResult(grader, escaped, question, docs, i, settings))
  }

  /**
   * The batch loop over `range(0, len(docs), batch_size)`: results are appended
   * batch after batch, so they come out in document order, and the loop runs
   * `ceil(n / batch_size)` batches. A batch size of 0 makes `range` raise
   * `ValueError`, even with no documents; a negative one gives no batches.
   */
  method GradeAllDocs(grader: GradeCall -> Attempt, escaped: nat -> Option<string>, question: string, docs: seq<Doc>, settings: Settings)
    returns (results: Result<seq<Graded>>, batches: nat)
    ensures settings.batchSize == 0 ==> results == Err(Batching.ZeroStep) && batches == 0
    ensures settings.batchSize < 0 ==> results == Ok([]) && batches == 0
    ensures settings.batchSize > 0 ==>
      && results == Ok(GradedAll(grader, escaped, question, docs, settings))
      && batches == Batching.NumBatches(|docs|, settings.batchSize)
  {
    if settings.batchSize == 0 {
      return Err(Batching.ZeroStep), 0;
    }
    if settings.batchSize < 0 {
      return Ok([]), 0;
    }
    var b: nat := settings.batchSize;
    ghost var all := GradedAll(grader, escaped, question, docs, settings);
    var collected: seq<Graded> := [];
    batches := 0;
    var batchStart := 0;
    while batchStart < |docs|
      invariant batchStart == batches * b
      invariant batchStart <= |docs| + b - 1
      invariant |collected| == Batching.Min(batchStart, |docs|)
      invariant collected == all[..|collected|]
      decreases |docs| - batchStart
    {
      var batchEnd := Batching.Min(batchStart + b, |docs|);
      var i := batchStart;
      while i < batchEnd
        invariant batchStart <= i <= batchEnd
        invariant |collected| == i
        invariant collected == all[..i]
      {
        var g: Graded;
        match escaped(i) {
          case Some(message) =>
            g := Failed(docs[i], message);
          case None =>
            var calls;
            g, calls := GradeSingleDoc(grader, question, docs[i], i, settings);
        }
        assert all[..i + 1] == all[..i] + [g];
        collected := collected + [g];
        i := i + 1;
      }
      assert (batches + 1) * b == batches * b + b;
      batches := batches + 1;
      batchStart := batchStart + b;
    }
    assert collected == all;
    Batching.NumBatchesOfStarts(|docs|, b, batches);
    results := Ok(collected);
  }

  /** The debugging record kept for every graded document. */
  datatype GradeRecord = GradeRecord(contentPreview: string, isRelevant: bool, confidence: real, reasoning: string, error: Option<string>)

  function Record(g: Graded): GradeRecord
  {
    GradeRecord(Text.Preview(g.doc.content, 100), g.relevant, g.confidence, g.reasoning, g.error)
  }

  predicate Keep(g: Graded)
  {
    g.relevant && g.error.None?
  }

  /** The documents the filtering loop keeps from the first `|rs|` results. */
  function Kept(rs: seq<Graded>): seq<Doc>
    decreases |rs|
  {
    if rs == [] then []
    else Kept(rs[..|rs| - 1]) + (if Keep(rs[|rs| - 1]) then [rs[|rs| - 1].doc] else [])
  }

  /**
   * The kept documents are exactly the documents of the kept results, in their
   * order: `idx` lists the positions of the kept results, increasing, and
   * misses none.
   */
  lemma {:induction false} KeptSelection(rs: seq<Graded>) returns (idx: seq<nat>)
    ensures |idx| == |Kept(rs)|
    ensures forall k :: 0 <= k < |idx| ==> idx[k] < |rs| && Keep(rs[idx[k]]) && Kept(rs)[k] == rs[idx[k]].doc
    ensures forall k, l :: 0 <= k < l < |idx| ==> idx[k] < idx[l]
    ensures forall i :: 0 <= i < |rs| && Keep(rs[i]) ==> i in idx
    decreases |rs|
  {
    if rs == [] {
      idx := [];
    } else {
      var n := |rs| - 1;
      var front := rs[..n];
      var prev := KeptSelection(front);
      if Keep(rs[n]) {
        idx := prev + [n];
        assert Kept(rs) == Kept(front) + [rs[n].doc];
      } else {
        idx := prev;
        assert Kept(rs) == Kept(front);
      }
      forall k | 0 <= k < |prev|
        ensures idx[k] == prev[k] && Kept(rs)[k] == Kept(front)[k] && rs[prev[k]] == front[prev[k]]
      {
      }
      forall i | 0 <= i < |rs| && Keep(rs[i]) ensures i in idx {
        if i < n {
          assert rs[i] == front[i];
          assert i in prev;
        } else {
          assert idx[|idx| - 1] == n;
        }
      }
    }
  }

  /** Filtering never lengthens the list. */
  lemma {:induction false} KeptLength(rs: seq<Graded>)
    ensures |Kept(rs)| <= |rs|
    decreases |rs|
  {
    if rs != [] {
      KeptLength(rs[..|rs| - 1]);
    }
  }

  /** The filtering loop, which also records every grade. */
  method FilterResults(rs: seq<Graded>) returns (filtered: seq<Doc>, grades: seq<GradeRecord>)
    ensures filtered == Kept(rs)
    ensures |grades| == |rs| && forall i :: 0 <= i < |rs| ==> grades[i] == Record(rs[i])
  {
    filtered := [];
    grades := [];
    var i := 0;
    while i < |rs|
      invariant 0 <= i <= |rs|
      invariant filtered == Kept(rs[..i])
      invariant |grades| == i && forall j :: 0 <= j < i ==> grades[j] == Record(rs[j])
    {
      assert rs[..i + 1][..i] == rs[..i];
      grades := grades + [Record(rs[i])];
      if rs[i].relevant && rs[i].error.None? {
        filtered := filtered + [rs[i].doc];
      }
      i := i + 1;
    }
    assert rs[..i] == rs;
  }

  /**
   * The node: documents replaced by the relevant ones, one more iteration
   * whatever the number of documents, the question and the attempt counters
   * kept; the `ValueError` of a batch size of 0, and no documents at all for
   * a negative batch size.
   */
  function GradeDocuments(s: State, settings: Settings, grader: GradeCall -> Attempt, escaped: nat -> Option<string>): (r: Result<State>)
    ensures r.Err? <==> settings.batchSize == 0
    ensures r.Err? ==> r.error == Batching.ZeroStep
    ensures r.Ok? ==>
      && r.value.documents == (if settings.batchSize > 0 then Kept(GradedAll(grader, escaped, s.question, s.documents, settings)) else [])
      && r.value.totalIterations == s.totalIterations + 1
      && r.value.question == s.question && r.value.originalQuestion == Some(OriginalOr(s))
      && r.value.generationAttempts == s.generationAttempts && r.value.transformAttempts == s.transformAttempts
      && r.value.generation == s.generation && r.value.modelConfig == s.modelConfig && r.value.collectionIds == s.collectionIds
      && !r.value.maxIterationsReached && !r.value.noRelevantDocsFallback && r.value.fallbackType == ""
  {
    var docs := Normalise(GList(AsItems(s.documents)));
    NormaliseDocs(s.documents);
    if settings.batchSize == 0 then Err(Batching.ZeroStep)
    else
      Ok(State(
        question := s.question,
        originalQuestion := Some(OriginalOr(s)),
        generation := s.generation,
        documents := if settings.batchSize > 0 then Kept(GradedAll(grader, escaped, s.question, docs, settings)) else [],
        modelConfig := s.modelConfig,
        collectionIds := s.collectionIds,
        generationAttempts := s.generationAttempts,
        transformAttempts := s.transformAttempts,
        totalIterations := s.totalIterations + 1,
        maxIterationsReached := false,
        noRelevantDocsFallback := false,
        fallbackType := ""))
  }

  /** Every kept document was among the inputs and was graded relevant. */
  lemma GradingOnlyFilters(s: State, settings: Settings, grader: GradeCall -> Attempt, escaped: nat -> Option<string>, k: nat)
    requires GradeDocuments(s, settings, grader, escaped).Ok?
    requires k < |GradeDocuments(s, settings, grader, escaped).value.documents|
    ensures exists i :: 0 <= i < |s.documents|
              && GradeDocuments(s, settings, grader, escaped).value.documents[k] == s.documents[i]
              && escaped(i).None?
              && SingleDoc(grader, s.question, s.documents[i], i, settings).relevant
  {
    var rs := GradedAll(grader, escaped, s.question, s.documents, settings);
    var idx := KeptSelection(rs);
    var i := idx[k];
    assert Keep(rs[i]);
  }

  /** The node as the source runs it: normalise, grade in batches, filter. */
  method GradeDocumentsNode(s: State, settings: Settings, grader: GradeCall -> Attempt, escaped: nat -> Option<string>)
    returns (r: Result<State>, grades: seq<GradeRecord>)
    ensures r == GradeDocuments(s, settings, grader, escaped)
    ensures |grades| == (if settings.batchSize > 0 then |s.documents| else 0)
  {
    var docs := Normalise(GList(AsItems(s.documents)));
    NormaliseDocs(s.documents);
    var results, batches := GradeAllDocs(grader, escaped, s.question, docs, settings);
    if results.Err? {
      return Err(results.error), [];
    }
    var filtered;
    filtered, grades := FilterResults(results.value);
    r := Ok(State(
      question := s.question,
      originalQuestion := Some(OriginalOr(s)),
      generation := s.generation,
      documents := filtered,
      modelConfig := s.modelConfig,
      collectionIds := s.collectionIds,
      generationAttempts := s.generationAttempts,
      transformAttempts := s.transformAttempts,
      totalIterations := s.totalIterations + 1,
      maxIterationsReached := false,
      noRelevantDocsFallback := false,
      fallbackType := ""));
  }
}
