# Adaptive RAG over Stack Overflow and PDFs — a Dafny model

This project models, in Dafny, the decision logic of *langgraph-rag*. The service
answers programming questions with retrieval-augmented generation over Stack Overflow
questions and PDF documents. Its central part is the **adaptive RAG control loop**, a
state machine with the nodes `retrieve`, `grade_documents`, `generate`,
`transform_query`, `no_docs_fallback`, `fallback` and `END`. Three iteration budgets
guard it: generation retries, query rewrites and total steps. The model also covers
the components around the loop:

- the document, hallucination and answer graders, with their retry, confidence-gate,
  batching and early-exit rules;
- the two simpler graphs, plain RAG (retrieve then generate) and pure LLM;
- the graph service, which builds the initial state and turns a run into a response
  (trace, timings, disclaimer, previews, source classification);
- the in-memory job manager and the batch-query runner;
- the Stack Overflow connector, its loaders and the scraper;
- the multi-source retriever;
- batched embeddings and the embedding service's cache and batch plan;
- the vector-store facade and its health report;
- collections of questions and documents, and collection health;
- graph comparisons, evaluation (manual ratings and BERT scores);
- HTML cleaning and the request schemas.

Large language models, the retriever, HTTP replies, the database and the vector store
are not computed here. Their outputs are **oracle parameters**: functions from a
step, batch or attempt number to a verdict, confidence, text, reply or fault. Every
property is therefore proved for *every* behaviour of those services.

The modules follow the repository's files one for one. `GraphUtils` (graph state and
`format_docs`) and `AdaptiveGraph` (routers, nodes, edge table, driver `Run`) are
examples. Shared pieces have modules of their own:
`Answers` (reference-answer choice, made in three places), `Pagination`,
`Batching`, `Fields` (typed metadata reads), `StateGraph` (the graph builder),
`Text`, `Seqs`, `Wrappers`, and `Config` (the configuration defaults). Code that updates
state step by step is written as methods with loop invariants, or as classes over `map`
fields. Examples are the job manager, the collection tables, the grading loops, the
embedding batches and the scraper's page loop. Each of these methods is proved
against a specification function, and the lemmas state the properties of that
function.

## Model

| member | source | states |
|---|---|---|
| Text.StripEmptyIffBlank | langgraph-rag/app/evaluation/bert_evaluation.py:61-67 | `s.strip()` is empty exactly when `s` is all whitespace, the guard `not s.strip()` |
| Text.StripShape | langgraph-rag/app/services/comparison_service.py:205 | `strip()` returns a slice of its input with no whitespace at either end |
| Text.StripNoop | langgraph-rag/app/utils/text_cleaning.py:41-42 | a string with no surrounding whitespace is a fixed point of `strip()` |
| Text.TrimLeftShape | langgraph-rag/app/services/comparison_service.py:205 | `lstrip()` removes exactly a blank prefix and leaves no leading whitespace |
| Text.TrimRightShape | langgraph-rag/app/services/comparison_service.py:205 | `rstrip()` removes exactly a blank suffix and leaves no trailing whitespace |
| Text.Split | langgraph-rag/app/services/stackoverflow_connector.py:73 | `s.split(sep)` always yields at least one piece |
| Text.SplitJoin | langgraph-rag/app/services/stackoverflow_connector.py:73 | splitting a join on a separator no part contains returns the parts: tags stored comma-joined read back as the same list |
| Text.SplitAtSeparator | langgraph-rag/app/services/stackoverflow_connector.py:73 | the first separator ends the first piece |
| Text.Preview | langgraph-rag/app/services/graph_service.py:161 | `s[:n] + "..."` when longer than `n`, else `s`: at most `n + 3` characters, a prefix of `s` followed by `...` |
| Text.NatToString | langgraph-rag/app/services/stackoverflow_scrapper.py:496 | `str(n)` is a non-empty digit string with no leading zero |
| Text.NatToStringParses | langgraph-rag/app/services/stackoverflow_scrapper.py:496 | parsing `str(n)` gives back `n` |
| Text.IntToStringInjective | langgraph-rag/app/services/stackoverflow_scrapper.py:285 | `str(a) == str(b)` exactly when `a == b`, so the id strings joined into a request name distinct ids |
| Text.LowerKeepsSuffix | langgraph-rag/app/services/graph_service.py:154 | lower-casing keeps a lower-case suffix |
| Text.ContainsAt | langgraph-rag/app/services/graph_service.py:154 | a substring occurring at any position is found by `in` |
| Text.JoinSnoc | langgraph-rag/app/core/graph/utils.py:27-30 | joining one more part appends the separator and that part |
| Text.JoinLength | langgraph-rag/app/core/graph/utils.py:27-30 | a join is as long as its parts plus one separator between each pair |
| Batching.NumBatchesOfStarts | langgraph-rag/app/services/embedding_service.py:174 | a loop over starts `0, size, 2*size, ...` below `n` runs `ceil(n / size)` times |
| Batching.BatchStartBelow | langgraph-rag/app/core/graph/nodes/hallucination_grader.py:48 | batch `j` exists exactly when its start `j * size` is below the number of items |
| Batching.ChunksCount | langgraph-rag/app/core/batched_embeddings.py:64 | `range(0, n, size)` gives `ceil(n / size)` batches |
| Batching.ChunkAt | langgraph-rag/app/core/batched_embeddings.py:64-66 | batch `j` is the slice `[j*size : min(j*size + size, n)]` |
| Batching.ChunksCover | langgraph-rag/app/core/batched_embeddings.py:64-66 | the batches concatenated in order give the input back |
| Batching.ChunksPrefix | langgraph-rag/app/core/batched_embeddings.py:64-66 | the first `j` batches cover exactly the first `min(j*size, n)` items |
| Batching.ChunkBounds | langgraph-rag/app/core/batched_embeddings.py:64-66 | no batch is empty and none holds more than `size` items |
| Batching.ChunkWithin | langgraph-rag/app/core/batched_embeddings.py:64-66 | every item of a batch is an item of the input |
| Batching.DivChar | langgraph-rag/app/services/embedding_service.py:174 | integer division is fixed by the multiples that bracket the dividend |
| Seqs.Filter | langgraph-rag/app/core/graph/tools/document_loaders/stackoverflow_loader.py:239-255 | a list comprehension with a condition keeps only passing elements, in order |
| Seqs.FilterSnoc | langgraph-rag/app/core/graph/tools/document_loaders/stackoverflow_loader.py:239-255 | one more element extends the filtered list by that element exactly when it passes |
| Seqs.FilterComplete | langgraph-rag/app/core/graph/tools/document_loaders/stackoverflow_loader.py:239-255 | no passing element is dropped |
| Seqs.FilterAll | langgraph-rag/app/core/graph/tools/document_loaders/stackoverflow_loader.py:239-255 | when everything passes the filter returns its input |
| Seqs.SliceTo | langgraph-rag/app/core/graph/tools/multi_source_retriever.py:232 | `s[:k]` is a prefix of `s`; with negative `k` it drops `-k` items from the end |
| Pagination.FloorDiv | langgraph-rag/app/services/stackoverflow_connector.py:412 | Python's `//` rounds toward negative infinity: the quotient is bracketed by the dividend's multiples |
| Pagination.Pages | langgraph-rag/app/services/stackoverflow_connector.py:412 | `(total + size - 1) // size` is the fewest pages of `size` that hold `total` items, 0 exactly when there are no items |
| Pagination.PageStartsInside | langgraph-rag/app/services/collection_manager.py:296-308 | every page from 1 to the page count starts at an offset inside the items |
| Pagination.OffsetsTile | langgraph-rag/app/services/collection_manager.py:296-308 | page `p + 1` starts `size` items after page `p`, and page 1 at 0 |
| Pagination.MorePagesIffMoreItems | langgraph-rag/app/services/comparison_service.py:252-262 | a page exists after page `p` exactly when `p * size < total` |
| Answers.FirstAccepted | langgraph-rag/app/services/stackoverflow_connector.py:236-238 | the first accepted answer, or `None` exactly when no answer is accepted |
| Answers.TopScored | langgraph-rag/app/services/stackoverflow_connector.py:240 | `max(answers, key=score)`: the first answer whose score no other answer exceeds |
| Answers.BestAnswer | langgraph-rag/app/services/stackoverflow_connector.py:232-241 | `None` exactly without answers; otherwise one of the answers |
| Answers.BestAnswerChoice | langgraph-rag/app/services/batch_query_service.py:346-369 | the reference answer is the first accepted one, or else the first of highest score, as both the connector and the batch service choose it |
| Answers.BestAnswerUnique | langgraph-rag/app/services/batch_query_service.py:362-369 | at most one position is first among the highest scored, so `max` and a stable descending sort choose the same answer |
| Answers.AcceptedPreferred | langgraph-rag/app/tests/test_batch_query.py:45-65 | an accepted answer wins over a higher-scored one |
| Answers.HighestScoreFallback | langgraph-rag/app/tests/test_batch_query.py:67-87 | without an accepted answer the highest-scored one wins |
| GraphUtils.FormatDocsSmall | langgraph-rag/app/core/graph/utils.py:27-30 | no documents give the empty context and one document gives exactly its text |
| GraphUtils.FormatDocsSnoc | langgraph-rag/app/core/graph/utils.py:27-30 | documents are joined in order: one more document appends the blank-line separator and its text |
| GraphUtils.FormatDocsLength | langgraph-rag/app/core/graph/utils.py:27-30 | the context is as long as the texts plus two characters between neighbours |
| GraphUtils.InitialState | langgraph-rag/app/services/graph_service.py:95-108 | a run starts with the question as both current and original question, no documents, zero counters and lowered flags |
| Schemas.ValuesDistinct | langgraph-rag/app/api/schemas/schemas.py:9-19 | distinct enum members have distinct string values, so a value names its member |
| Schemas.DefaultIterationMetrics | langgraph-rag/app/api/schemas/schemas.py:87-94 | every omitted `IterationMetrics` field takes its declared default |
| Schemas.ValidateRating | langgraph-rag/app/api/schemas/schemas.py:107-111 | a rating request is accepted exactly for ratings 1 to 5 and keeps its fields |
| Schemas.ValidateScrape | langgraph-rag/app/api/schemas/schemas.py:145-152 | a scrape request is accepted exactly when count, days back, minimum score and start page lie in their bounds after defaults; the defaults are 100, 365, ["sql"], 1, true and 1 |
| Schemas.DefaultScrapeValid | langgraph-rag/app/api/schemas/schemas.py:145-152 | the request with every field omitted is valid and carries the defaults |
| Schemas.ValidateBatchQuery | langgraph-rag/app/api/schemas/schemas.py:217-241 | a batch request is accepted exactly with 1 to 50 question ids; omitted graph types default to `[ADAPTIVE_RAG]` and the trace flag to true |
| StateGraph.Workflow.constructor | langgraph-rag/app/core/graph/adaptive_graph.py:194 | a new workflow has no nodes, edges or branches |
| StateGraph.Workflow.AddNode | langgraph-rag/app/core/graph/adaptive_graph.py:198-203 | `add_node` adds the name and changes nothing else |
| StateGraph.Workflow.AddEdge | langgraph-rag/app/core/graph/adaptive_graph.py:206-207 | `add_edge` adds the pair and changes nothing else |
| StateGraph.Workflow.AddConditionalEdges | langgraph-rag/app/core/graph/adaptive_graph.py:209-217 | `add_conditional_edges` records the path map for its source node and changes nothing else |
| Generator.RetryTemperature | langgraph-rag/app/core/graph/nodes/generator.py:37-38 | the retry temperature is `base + (attempt - 1) * increment` capped at 1.0 |
| Generator.Generate | langgraph-rag/app/core/graph/nodes/generator.py:16-71 | one more generation attempt and iteration; the answer is produced for the ORIGINAL question with the documents as context; documents and questions pass through; flags cleared; on a retry with variation the temperature is raised, and a non-numeric stored temperature makes the node raise exactly the TypeError of `temperature + float`, while without escalation the configuration is kept as it is |
| Generator.EscalatedTemperature | langgraph-rag/app/core/graph/nodes/generator.py:35-40 | with a numeric temperature a retry succeeds and stores the capped escalation: never above 1.0 and, with a non-negative increment, never below the base |
| Generator.TemperatureCompounds | langgraph-rag/app/core/graph/nodes/generator.py:35-40 | the raised temperature is written back into the model config, so the next retry succeeds again and escalates from it |
| Generator.AnswersOriginalQuestion | langgraph-rag/app/core/graph/nodes/generator.py:27-28 | once the original question is stored, a rewritten current question changes neither whether the node raises nor the answer |
| Rewriter.TransformQuery | langgraph-rag/app/core/graph/nodes/rewriter.py:17-61 | one more transform attempt and iteration; the question becomes the rewriter's output for the current question; the original question is kept or recorded; flags cleared |
| Rewriter.RewritesKeepOriginal | langgraph-rag/app/core/graph/nodes/rewriter.py:51 | after any number of rewrites the original question is still the first one seen and the transform counter grew by the number of rewrites |
| Retriever.NormaliseItem | langgraph-rag/app/core/graph/nodes/retriever.py:72-80 | a list element that is a document is kept; any other is wrapped with its `str()` text |
| Retriever.Normalised | langgraph-rag/app/core/graph/nodes/retriever.py:65-86 | `None` gives no documents, a string one tagged document, a list one document per element with its text, anything else one converted document |
| Retriever.CollectedAppend | langgraph-rag/app/core/graph/nodes/retriever.py:38-52 | collecting over two runs of collection ids is collecting over each in order |
| Retriever.SkipsFailingCollection | langgraph-rag/app/core/graph/nodes/retriever.py:49-50 | a collection whose retrieval raises is skipped and the others still contribute in order |
| Retriever.Retrieve | langgraph-rag/app/core/graph/nodes/retriever.py:18-143 | one more iteration on every path (including the two error paths); with collections, the documents are the normalised concatenation of every collection that answered, in `collection_ids` order; otherwise the normalised tool result, or none when the tool raised; everything else passed through; flags cleared |
| Retriever.CollectFromCollections | langgraph-rag/app/core/graph/nodes/retriever.py:38-52 | the loop over collection ids returns the collected documents of the specification |
| Retriever.NormaliseList | langgraph-rag/app/core/graph/nodes/retriever.py:70-80 | the per-element conversion loop returns the normalised list |
| Retriever.RetrieveNode | langgraph-rag/app/core/graph/nodes/retriever.py:18-143 | the node as written returns `Retrieve` of its state |
| DocumentGrader.NormaliseItem | langgraph-rag/app/core/graph/nodes/document_grader.py:46-54 | an element that is already a document is kept as it is; any other element becomes a document whose text is its string form |
| DocumentGrader.Normalise | langgraph-rag/app/core/graph/nodes/document_grader.py:39-54 | a bare string becomes one document tagged "string_input"; any other object is wrapped in a one-element list when truthy and dropped otherwise, so a bare document passes through unchanged; a list keeps its length and each element's text |
| DocumentGrader.NormaliseDocs | langgraph-rag/app/core/graph/nodes/document_grader.py:45-48 | a list of documents comes out of normalisation unchanged |
| DocumentGrader.CallsBounded | langgraph-rag/app/core/graph/nodes/document_grader.py:74-94 | the retry loop calls the grading model at most `max_retries` times, and at least once with an outcome whenever `max_retries` is at least one |
| DocumentGrader.OtherErrorsNotRetried | langgraph-rag/app/core/graph/nodes/document_grader.py:81-94 | a failure that is not a closed-transport RuntimeError ends the loop after one call with that failure |
| DocumentGrader.PersistentTcpError | langgraph-rag/app/core/graph/nodes/document_grader.py:84-91 | a transport that stays closed is retried until the last attempt, and the last attempt's error is the outcome |
| DocumentGrader.Judge | langgraph-rag/app/core/graph/nodes/document_grader.py:99-122 | a document is relevant exactly when the grading model replied "yes" with confidence at or above the threshold; any failure gives no relevance, zero confidence and the error |
| DocumentGrader.LowConfidenceRejected | langgraph-rag/app/core/graph/nodes/document_grader.py:106-117 | a "yes" reply below the confidence threshold does not make the document relevant |
| DocumentGrader.GradeSingleDoc | langgraph-rag/app/core/graph/nodes/document_grader.py:63-122 | the retry loop and confidence gate produce the specified grade for the document and make the specified number of grader calls |
| DocumentGrader.GradedAll | langgraph-rag/app/core/graph/nodes/document_grader.py:124-146 | there is one result per document, in document order, and each result belongs to its document |
| DocumentGrader.GradeAllDocs | langgraph-rag/app/core/graph/nodes/document_grader.py:124-146 | a zero batch size is the `range` error with no batch run, a negative one yields no results; a positive one yields the per-document results in order, replacing an escaped exception by an error result, in ceil(n / batch_size) batches |
| DocumentGrader.KeptSelection | langgraph-rag/app/core/graph/nodes/document_grader.py:165-178 | the kept documents are exactly the documents of the results that are relevant and error-free, in their original order |
| DocumentGrader.KeptLength | langgraph-rag/app/core/graph/nodes/document_grader.py:165-178 | filtering never lengthens the document list |
| DocumentGrader.FilterResults | langgraph-rag/app/core/graph/nodes/document_grader.py:162-178 | the filtering loop keeps exactly the relevant, error-free documents and records one grade per result, in order |
| DocumentGrader.GradeDocuments | langgraph-rag/app/core/graph/nodes/document_grader.py:29-200 | the node raises the `range` error exactly for a zero batch size; otherwise it replaces the documents by the relevant ones (none for a negative size), adds one iteration, keeps the question, the original question, the counters, the generation and the configuration, and lowers the fallback flags |
| DocumentGrader.GradingOnlyFilters | langgraph-rag/app/core/graph/nodes/document_grader.py:162-178 | when the node succeeds, every document it keeps was among its inputs and was graded relevant without error |
| DocumentGrader.GradeDocumentsNode | langgraph-rag/app/core/graph/nodes/document_grader.py:29-200 | normalising, grading in batches and filtering together give the node's specified result, the `range` error included, and one grade record per document for a positive batch size |
| HallucinationGrader.FirstConfirming | langgraph-rag/app/core/graph/nodes/hallucination_grader.py:48-74 | the search result is the first batch that confirms the generation; no earlier batch confirms it, and none at all confirms when there is no result |
| HallucinationGrader.Grounded | langgraph-rag/app/core/graph/nodes/hallucination_grader.py:20-79 | no documents means not grounded; otherwise a batch size of 0 is the `range` error, and the answer is grounded exactly when the batch size is positive and some batch of `batch_size` documents gets a "yes" (a negative size gives no batch) |
| HallucinationGrader.Calls | langgraph-rag/app/core/graph/nodes/hallucination_grader.py:48-74 | the grading model is called at most once per batch, and never when there are no documents or the batch size is not positive |
| HallucinationGrader.GradeHallucination | langgraph-rag/app/core/graph/nodes/hallucination_grader.py:20-79 | the batch loop raises the `range` error for a zero batch size over some documents, and otherwise returns grounded exactly when some batch confirms, passing over batches whose call raises and stopping at the first confirming batch |
| HallucinationGrader.NoConfirmationNotGrounded | langgraph-rag/app/core/graph/nodes/hallucination_grader.py:66-79 | for a positive batch size, when every batch fails or answers anything but "yes" the answer is not grounded and every batch was checked |
| HallucinationGrader.FirstBatchConfirms | langgraph-rag/app/core/graph/nodes/hallucination_grader.py:72-74 | for a positive batch size, a "yes" on the first batch makes the answer grounded after a single call |
| AnswerGrader.PrepareInput | langgraph-rag/app/core/graph/nodes/answer_grader.py:31-35 | the grading model sees the current (possibly rewritten) question and the generation |
| AnswerGrader.ProcessResultLetters | langgraph-rag/app/core/graph/nodes/answer_grader.py:37-40 | the answer addresses the question exactly when the reply is the letters y, e, s in any case |
| AnswerGrader.LowerIdempotent | langgraph-rag/app/core/graph/nodes/answer_grader.py:38 | lower-casing twice is the same as lower-casing once |
| AnswerGrader.VerdictIgnoresCase | langgraph-rag/app/core/graph/nodes/answer_grader.py:38 | the verdict does not depend on the reply's case: "YES" and "Yes" count, "no" and " yes" do not |
| AnswerGrader.Grader.constructor | langgraph-rag/app/core/graph/nodes/base_grader.py:29-32 | a new grader holds its prompt and model and has no cached chain |
| AnswerGrader.Grader.GetGrader | langgraph-rag/app/core/graph/nodes/base_grader.py:61-72 | the chain is built only when none is cached, and the cached chain is returned |
| AnswerGrader.Grader.Grade | langgraph-rag/app/core/graph/nodes/base_grader.py:74-86 | grading invokes the cached chain on the prepared input and turns the reply into the verdict; an invocation error propagates |
| AnswerGrader.CreateGraderNode | langgraph-rag/app/core/graph/nodes/base_grader.py:89-101 | the factory makes one fresh grader with nothing cached |
| AnswerGrader.GradeTwice | langgraph-rag/app/core/graph/nodes/base_grader.py:61-86 | however many states the node grades, it builds its chain once and each verdict is the specified one |
| AdaptiveGraph.CheckIterationLimits | langgraph-rag/app/core/graph/adaptive_graph.py:36-54 | a budget is reached exactly when the generation attempts, the rewrite attempts or the total iterations have reached their limit |
| AdaptiveGraph.DecideToGenerate | langgraph-rag/app/core/graph/adaptive_graph.py:56-89 | the route is "generate" exactly when documents remain; otherwise "transform_query" while rewrites remain and "no_docs_fallback" once they are used up |
| AdaptiveGraph.GradeGeneration | langgraph-rag/app/core/graph/adaptive_graph.py:91-136 | a reached budget routes to the fallback before either grader is asked; otherwise the answer grader is asked only for a grounded answer, and the route is "useful" for grounded and addressing, "not useful" for grounded but not addressing, and "not supported" for ungrounded |
| AdaptiveGraph.GenerationDecision | langgraph-rag/app/core/graph/adaptive_graph.py:91-136 | a reached budget routes to the fallback without asking a grader; otherwise the router raises the hallucination grader's `range` error exactly when there are documents and its batch size is 0 |
| AdaptiveGraph.GenerateNoDocsFallback | langgraph-rag/app/core/graph/adaptive_graph.py:142-172 | the fallback answers the current question with no documents, sets the generation counter to 1, adds one iteration, raises both fallback flags and keeps the question, original question and configuration |
| AdaptiveGraph.NoDocsFallbackIgnoresOriginal | langgraph-rag/app/core/graph/adaptive_graph.py:146-157 | the fallback answer does not depend on the stored original question |
| AdaptiveGraph.MarkMaxIterations | langgraph-rag/app/core/graph/adaptive_graph.py:178-186 | the fallback node raises the max-iterations flag, lowers the no-documents flag, sets the fallback type and changes nothing else |
| AdaptiveGraph.MarkMaxIterationsStable | langgraph-rag/app/core/graph/adaptive_graph.py:178-186 | marking twice is marking once, and the generation and every counter are kept |
| AdaptiveGraph.CreateAdaptiveGraph | langgraph-rag/app/core/graph/adaptive_graph.py:194-236 | the builder calls produce exactly the adaptive wiring: six nodes, the plain edges and the two routing tables |
| AdaptiveGraph.AdaptiveWiringClosed | langgraph-rag/app/core/graph/adaptive_graph.py:194-236 | every edge and every routing target joins declared nodes, START or END, and no node with a router also has a plain edge |
| AdaptiveGraph.RetrieveStep | langgraph-rag/app/core/graph/adaptive_graph.py:206-207 | a visit to `retrieve` runs the retriever and continues along its plain edge to `grade_documents` |
| AdaptiveGraph.GradeDocumentsStep | langgraph-rag/app/core/graph/adaptive_graph.py:209-217 | a visit to `grade_documents` raises exactly when the grading raises, and otherwise continues to the node that the route chosen by `decide_to_generate` is wired to |
| AdaptiveGraph.DecisionRoutes | langgraph-rag/app/core/graph/adaptive_graph.py:209-217 | each route `decide_to_generate` can return is wired to the node the run enters next |
| AdaptiveGraph.GradeDocumentsAdvances | langgraph-rag/app/core/graph/adaptive_graph.py:209-217 | grading followed by the routing decision is a legal step of the run |
| AdaptiveGraph.GenerateStep | langgraph-rag/app/core/graph/adaptive_graph.py:223-232 | a visit to `generate` raises exactly when the generator or the generation router raises; otherwise it follows the route the router picks and goes to `fallback` exactly when a budget is reached |
| AdaptiveGraph.GenerationRoutes | langgraph-rag/app/core/graph/adaptive_graph.py:223-232 | each route the generation router can return is wired to the node the run enters next |
| AdaptiveGraph.GenerateAdvances | langgraph-rag/app/core/graph/adaptive_graph.py:223-232 | generation followed by the routing decision is a legal step of the run, and it leads to `fallback` exactly when a budget is reached |
| AdaptiveGraph.TransformQueryStep | langgraph-rag/app/core/graph/adaptive_graph.py:221 | a visit to `transform_query` runs the rewriter and returns to `retrieve` |
| AdaptiveGraph.NoDocsFallbackStep | langgraph-rag/app/core/graph/adaptive_graph.py:219 | a visit to `no_docs_fallback` runs the fallback answer and ends the run |
| AdaptiveGraph.FallbackStep | langgraph-rag/app/core/graph/adaptive_graph.py:234 | a visit to `fallback` marks the state and ends the run |
| AdaptiveGraph.Step | langgraph-rag/app/core/graph/adaptive_graph.py:198-234 | a node visit raises exactly the error of its node function or router, and otherwise produces that node's output and a legal successor |
| AdaptiveGraph.Run | langgraph-rag/app/core/graph/adaptive_graph.py:194-236 | the run from any node is a sequence of legal visits that stops at END, at the first raising node, or after `budget` visits, never making more |
| AdaptiveGraph.Invoke | langgraph-rag/app/services/graph_service.py:116-119 | a recursion limit below 1 is rejected; otherwise the run starts at `retrieve`, the target of the edge from START, makes at most `recursion_limit` visits and stops for the limit only after exactly that many |
| AdaptiveGraph.RunWithinLimit | langgraph-rag/app/core/graph/adaptive_graph.py:36-54 | a run given at least as many steps as its termination measure never stops for the recursion limit |
| AdaptiveGraph.RaisedOnlyByTemperature | langgraph-rag/app/core/graph/nodes/generator.py:35-40 | with non-zero batch sizes the only node a run can raise in is `generate`, and only with a non-numeric stored temperature and the TypeError of adding a float to it |
| AdaptiveGraph.FollowsEnds | langgraph-rag/app/core/graph/adaptive_graph.py:36-54 | a run entered within its rewrite budget has fewer visits than its termination measure unless it ends, and only an ending run's last visit leads to END |
| AdaptiveGraph.FollowsWiring | langgraph-rag/app/core/graph/adaptive_graph.py:205-234 | consecutive visits follow the compiled graph's edges and routing tables, and the last visit's route leads to where the run stopped (END, or the node that raised or was cut off) |
| AdaptiveGraph.OriginalQuestionKept | langgraph-rag/app/core/graph/adaptive_graph.py:162 | once stored, the original question survives every node of the run |
| AdaptiveGraph.TransformAttemptsBounded | langgraph-rag/app/core/graph/adaptive_graph.py:71-85 | the rewrite counter never exceeds any bound that covers `max_transform_retries` and its starting value |
| AdaptiveGraph.GenerationAttemptsBounded | langgraph-rag/app/core/graph/adaptive_graph.py:104-136 | the generation counter never exceeds any bound that covers 1 and `max_generation_retries`, provided the run is entered below it |
| AdaptiveGraph.TotalIterationsBounded | langgraph-rag/app/core/graph/adaptive_graph.py:168 | each visit adds at most one iteration, so the i-th output is at most i + 1 above the start |
| AdaptiveGraph.FollowsFlags | langgraph-rag/app/core/graph/adaptive_graph.py:159-186 | a run ends after `no_docs_fallback` with the no-documents flag, after `fallback` with the max-iterations flag, or after an accepted generation with the flags down, and every earlier visit carries its node's flags |
| AdaptiveGraph.DefaultRunCounters | langgraph-rag/app/config.py:43-58 | with the default budgets a run from a fresh state makes at most 12 visits, counts at most 12 iterations, 2 generations and 2 rewrites, and keeps the original question |
| AdaptiveGraph.DefaultRunIsShort | langgraph-rag/app/config.py:54-58 | with the default settings and the recursion limit of 20 an invocation from a fresh state never hits the limit: it visits at most 12 nodes, ends when the temperature is numeric and can otherwise raise only in `generate` with the TypeError, and its counters stay within the budgets |
| RagGraph.CreateRagGraph | langgraph-rag/app/core/graph/rag_graph.py:30-39 | the builder calls produce exactly the simple-RAG wiring |
| RagGraph.RagWiringIsLinear | langgraph-rag/app/core/graph/rag_graph.py:32-37 | the simple-RAG graph is the single path START, retrieve, generate, END, with no branch and no loop |
| RagGraph.Run | langgraph-rag/app/core/graph/rag_graph.py:18-39 | a run visits `retrieve` and then `generate` along the graph's edges; it raises in `generate`, after one streamed output, exactly when the generator raises, and otherwise ends after two |
| RagGraph.GenerateSeesRetrieved | langgraph-rag/app/core/graph/rag_graph.py:35-37 | when the generation succeeds it sees exactly the retrieved documents as its context, answers the original question, and returns those documents |
| RagGraph.FreshRunCounters | langgraph-rag/app/core/graph/rag_graph.py:18-39 | from a fresh state a run never raises and ends with two iterations, one generation, no rewrite, the flags down, the model configuration untouched and the original question kept |
| PureLlmGraph.PureLlmGenerate | langgraph-rag/app/core/graph/pure_llm_graph.py:40-80 | the pure-LLM node answers the current question alone with the state's model configuration, returns no documents and fixed counters of one generation, no rewrite and one iteration |
| PureLlmGraph.PureLlmIgnoresHistory | langgraph-rag/app/core/graph/pure_llm_graph.py:51-80 | the node's output depends only on the question and the model configuration |
| PureLlmGraph.CreatePureLlmGraph | langgraph-rag/app/core/graph/pure_llm_graph.py:82-90 | the pure-LLM graph is the single node `generate` between START and END |
| GraphService.GraphKey | langgraph-rag/app/services/graph_service.py:35 | the cache key is the graph type's value, an underscore, then the retriever type's value |
| GraphService.GraphKeyInjective | langgraph-rag/app/services/graph_service.py:35 | two requests share a cache key exactly when they have the same graph type and retriever type |
| GraphService.WiringFor | langgraph-rag/app/services/graph_service.py:40-48 | each graph type selects a closed graph with a `generate` node; the adaptive and simple RAG graphs start at `retrieve`, and only the pure-LLM graph starts at `generate` |
| GraphService.Build | langgraph-rag/app/services/graph_service.py:40-48 | each graph type is built by its own factory, and the pure-LLM graph ignores the retriever type |
| GraphService.Service.constructor | langgraph-rag/app/services/graph_service.py:25-27 | a new service has no cached graphs |
| GraphService.Service.GetGraph | langgraph-rag/app/services/graph_service.py:29-50 | the graph returned is the one for the requested type, it is built only on a cache miss, and a hit leaves the cache unchanged |
| GraphService.Service.RebuildGraph | langgraph-rag/app/services/graph_service.py:52-70 | the graph is rebuilt unconditionally and replaces the cached entry for its key |
| GraphService.Service.ExecuteQuery | langgraph-rag/app/services/graph_service.py:72-237 | the query runs the cached graph from the initial state; the trace and timings cover every node update streamed; the result is the stream's exception, or the assembled result |
| GraphService.Disclaimer | langgraph-rag/app/services/graph_service.py:239-245 | the no-documents text is given exactly when that flag is set; the unverified text when only the max-iterations flag is set; no text when neither is set |
| GraphService.Metrics | langgraph-rag/app/services/graph_service.py:178-185 | the iteration metrics are the final output's counters and flags, with the disclaimer derived from them |
| GraphService.PureLlmNoDisclaimer | langgraph-rag/app/services/graph_service.py:178-185 | a pure-LLM answer never carries a disclaimer, and its metrics are one generation, no rewrite and one iteration |
| GraphService.Or | langgraph-rag/app/services/graph_service.py:160-163 | Python's `a or b` gives the first operand when truthy and otherwise the second, so the result is truthy exactly when either is |
| GraphService.Classify | langgraph-rag/app/services/graph_service.py:150-155 | a document mentioning "stackoverflow" or carrying a question id is "stackoverflow"; otherwise a mention of "pdf" makes it "pdf"; otherwise it keeps its declared source type; the `.endswith` test raises exactly on a non-string `file_path` |
| GraphService.PdfPathMentionsPdf | langgraph-rag/app/services/graph_service.py:154 | a string `file_path` ending in ".pdf" already puts "pdf" in the metadata's text |
| GraphService.ClassifyOrder | langgraph-rag/app/services/graph_service.py:151-155 | the `file_path` test never changes the classification: without either mention, the source is the declared type, or "unknown" when none is declared |
| GraphService.Title | langgraph-rag/app/services/graph_service.py:160 | the title is the first truthy of `title` and `question_title`, otherwise `file_path`, otherwise "Unknown" |
| GraphService.Shown | langgraph-rag/app/services/graph_service.py:164-167 | the metadata shown keeps exactly the entries whose key is not a content key and whose value is a string, number, boolean or list, unchanged |
| GraphService.Info | langgraph-rag/app/services/graph_service.py:142-168 | a document's info exists exactly when its classification does not raise; it holds the full content and the 200-character preview |
| GraphService.InfoShows | langgraph-rag/app/services/graph_service.py:157-168 | the info holds the classification, the title with its fallbacks, the first score present and the shown metadata |
| GraphService.Collect | langgraph-rag/app/services/graph_service.py:142-169 | a loop that raises on the first failing element returns all values in order exactly when none fails, and otherwise the first error |
| GraphService.InfoResults | langgraph-rag/app/services/graph_service.py:142-169 | there is one info result per document, in order |
| GraphService.Infos | langgraph-rag/app/services/graph_service.py:139-169 | `retrieved_documents` exists exactly when no document's classification raises, and then holds every document's info in order; otherwise the error is that of the first document that raises |
| GraphService.DocumentInfos | langgraph-rag/app/services/graph_service.py:139-169 | the loop building `retrieved_documents` returns the info of every document in order, or the first classification error |
| GraphService.StepUpdates | langgraph-rag/app/services/graph_service.py:124-130 | each entry of one streamed step becomes one executed update, with the step's duration |
| GraphService.TraceOf | langgraph-rag/app/services/graph_service.py:125 | the execution trace lists the executed node names in order |
| GraphService.FinalOf | langgraph-rag/app/services/graph_service.py:111-130 | the final state is the last update's output, and there is none exactly when nothing was streamed |
| GraphService.TimingsKeys | langgraph-rag/app/services/graph_service.py:126 | the timings name exactly the executed nodes |
| GraphService.TimingsKeepLast | langgraph-rag/app/services/graph_service.py:126 | each node's timing is the duration of its last execution |
| GraphService.Assemble | langgraph-rag/app/services/graph_service.py:137-188 | no final state is an error; otherwise the result exists exactly when every document's info does, and holds the final answer, the document count, the trace, the timings, the metrics, and the rewritten question exactly when it differs from the asked one |
| GraphService.TrackOne | langgraph-rag/app/services/graph_service.py:124-130 | one more update appends its node to the trace, overwrites its timing and becomes the final output |
| GraphService.Consume | langgraph-rag/app/services/graph_service.py:116-132 | the stream loop yields the trace, the timings and the final output of all the updates streamed |
| GraphService.ConsumeStep | langgraph-rag/app/services/graph_service.py:124-130 | the inner loop over one step's entries extends the trace, timings and final output by that step's updates |
| GraphService.AdaptiveStream | langgraph-rag/app/services/graph_service.py:116-119 | an adaptive run is streamed as one step per visited node, yielding that node's name and returned state |
| GraphService.AdaptiveTimed | langgraph-rag/app/services/graph_service.py:116-130 | the updates executed from an adaptive stream are the visits, in order, with their durations |
| GraphService.AdaptiveQueryOutcome | langgraph-rag/app/services/graph_service.py:172-188 | an adaptive query's trace lists the visited nodes from `retrieve`, and its disclaimer says how the run ended: the no-documents text after `no_docs_fallback`, the unverified text after `fallback`, none after a useful generation |
| JobManager.NewJob | langgraph-rag/app/services/job_manager.py:35-45 | a new job is running, not completed, with the given parameters, the progress fields or an empty progress, no results and no error |
| JobManager.Progressed | langgraph-rag/app/services/job_manager.py:52-57 | progress keys merge with the new values winning, a "result" entry is appended to the results, and nothing else changes |
| JobManager.Completion | langgraph-rag/app/services/job_manager.py:61-65 | completing sets the status and completion time whatever the status was, and replaces the results only by a non-empty list |
| JobManager.Failure | langgraph-rag/app/services/job_manager.py:69-72 | failing sets the status, the completion time and the error whatever the status was, and nothing else |
| JobManager.Cancellation | langgraph-rag/app/services/job_manager.py:79-85 | only a running job is cancelled, which sets its status and completion time |
| JobManager.TerminalStatesOverwritten | langgraph-rag/app/services/job_manager.py:59-85 | a cancelled job can still be completed or failed, a completed job can still be failed, and a completed job cannot be cancelled |
| JobManager.NeverPending | langgraph-rag/app/services/job_manager.py:35-85 | no operation ever makes a job pending |
| JobManager.Prefix | langgraph-rag/app/services/job_manager.py:105 | Python's `jobs[:limit]` takes the first `limit` jobs, and for a negative limit drops that many from the end |
| JobManager.Insert | langgraph-rag/app/services/job_manager.py:103 | inserting a job adds exactly that job to the list, after the jobs that started no earlier than it |
| JobManager.InsertSorted | langgraph-rag/app/services/job_manager.py:103 | inserting into a newest-first list keeps it newest first |
| JobManager.SortNewestFirst | langgraph-rag/app/services/job_manager.py:103 | the sort by start time, descending, is newest first and a permutation of its input |
| JobManager.InsertStable | langgraph-rag/app/services/job_manager.py:103 | inserting into a newest-first list places the job after every job with the same start time |
| JobManager.SortStable | langgraph-rag/app/services/job_manager.py:103 | jobs with equal start times keep their input order, as Python's stable sort does with `reverse=True` |
| JobManager.WithStatus | langgraph-rag/app/services/job_manager.py:99-100 | the filter keeps exactly the jobs with the requested status, or every job when no status is requested |
| JobManager.Listing | langgraph-rag/app/services/job_manager.py:96-105 | the listing is newest first and takes each filtered job at most as often as the filter keeps it; it has `limit` jobs (all when fewer), or for a negative limit all but the last `-limit`; no job left out started later than the last one listed |
| JobManager.PrefixOfSorted | langgraph-rag/app/services/job_manager.py:103-105 | a cut of a newest-first list is newest first, is part of it, and every job it leaves out started no later than its last job |
| JobManager.Manager.constructor | langgraph-rag/app/services/job_manager.py:23-25 | a new manager has its job type and no jobs |
| JobManager.Manager.CreateJob | langgraph-rag/app/services/job_manager.py:27-48 | the job is stored under its id as the new running record, which `get_job` then returns; the id is appended to the insertion order only when new |
| JobManager.Manager.GetJob | langgraph-rag/app/services/job_manager.py:87-89 | a record comes back exactly for a known id, and it is that id's job of this manager's type, never pending |
| JobManager.Manager.UpdateProgress | langgraph-rag/app/services/job_manager.py:50-57 | a known job's progress and results are updated; an unknown id changes nothing |
| JobManager.Manager.CompleteJob | langgraph-rag/app/services/job_manager.py:59-65 | a known job is completed; an unknown id changes nothing |
| JobManager.Manager.FailJob | langgraph-rag/app/services/job_manager.py:67-72 | a known job is failed with its error; an unknown id changes nothing |
| JobManager.Manager.CancelJob | langgraph-rag/app/services/job_manager.py:74-85 | the result is true exactly for a known running job, which becomes cancelled; otherwise nothing changes |
| JobManager.Manager.DeleteJob | langgraph-rag/app/services/job_manager.py:107-117 | the result is true exactly for a known job that is not running, which is removed; otherwise nothing changes |
| JobManager.Manager.Values | langgraph-rag/app/services/job_manager.py:97 | the jobs are listed in insertion order, one per id, and none is pending |
| JobManager.Manager.ListJobs | langgraph-rag/app/services/job_manager.py:91-105 | the listing is newest first, holds only stored jobs with the requested status, each at most once per stored record, `limit` of them (all when fewer, all but the last `-limit` for a negative limit), and none left out started later than the last one listed |
| JobManager.Registry.constructor | langgraph-rag/app/services/job_manager.py:121-123 | no manager exists before the first request |
| JobManager.Registry.Get | langgraph-rag/app/services/job_manager.py:126-147 | each kind of manager is created once, with its job type and no jobs, and the same instance is returned on every later request |
| JobManager.Remove | langgraph-rag/app/services/job_manager.py:116 | removing an id keeps exactly the other ids, still without duplicates |
| JobManager.DistinctSnoc | langgraph-rag/app/services/job_manager.py:35 | appending a new id keeps the ids distinct |
| BatchQuery.FullQuestion | langgraph-rag/app/services/batch_query_service.py:225-227 | the question text is the title, followed by a blank line and the body exactly when the body is non-empty |
| BatchQuery.ReferenceAnswer | langgraph-rag/app/services/batch_query_service.py:346-369 | there is a reference answer exactly when the question has answers, and it is the body of one of them (which one is stated by `Answers.BestAnswerChoice`) |
| BatchQuery.ExecutionFor | langgraph-rag/app/services/batch_query_service.py:231-255 | the pure-LLM graph is run with the default retriever and no collections; the RAG graphs get the Stack Overflow retriever and the collections as given |
| BatchQuery.Evaluate | langgraph-rag/app/services/batch_query_service.py:278-321 | the evaluation is asked only for a non-empty reference answer; an evaluation id is reported exactly when it succeeds; a BERT score only when all three values were stored |
| BatchQuery.ProcessSingle | langgraph-rag/app/services/batch_query_service.py:186-344 | a failing question lookup propagates its error; a question not found is skipped; a graph that raises makes the run failed with its message; any other run succeeds with the graph's answer, whatever the rating step does |
| BatchQuery.FailedRun | langgraph-rag/app/services/batch_query_service.py:149-158 | the record of a run whose processing raised is failed, titled "Unknown", names the run's question and graph type and carries the error message |
| BatchQuery.RunnerRecords | langgraph-rag/app/services/batch_query_service.py:113-158 | every run's record names its question and graph type, and a run whose question lookup raises is recorded as failed with that error |
| BatchQuery.GraphTypes | langgraph-rag/app/services/batch_query_service.py:102-104 | the requested graph types are used, or adaptive RAG alone when none or an empty list was given |
| BatchQuery.PairsLength | langgraph-rag/app/services/batch_query_service.py:106-107 | a batch makes (number of questions) × (number of graph types) runs |
| BatchQuery.PairAt | langgraph-rag/app/services/batch_query_service.py:111-112 | runs are question-major: run i × (number of graph types) + k is question i with graph type k |
| BatchQuery.RunsOf | langgraph-rag/app/services/batch_query_service.py:134 | there is one record per run |
| BatchQuery.Count | langgraph-rag/app/services/batch_query_service.py:177-179 | a status count never exceeds the number of records |
| BatchQuery.CountsSum | langgraph-rag/app/services/batch_query_service.py:175-180 | the successful, failed and skipped counts add up to the number of records |
| BatchQuery.RunsOfPrefix | langgraph-rag/app/services/batch_query_service.py:134 | the records of the first m runs are the first m records |
| BatchQuery.RunReports | langgraph-rag/app/services/batch_query_service.py:115-170 | a run is announced with its title exactly when the title lookup succeeds, then reported with the running status counts and its record; the report clears the current question only on the success path |
| BatchQuery.ReportsLength | langgraph-rag/app/services/batch_query_service.py:115-170 | each run sends one or two progress reports, and exactly two when every title lookup succeeds |
| BatchQuery.ReportsSnoc | langgraph-rag/app/services/batch_query_service.py:115-170 | one more run adds its announcement, when its title is found, and then its result report with the running status counts |
| BatchQuery.ReportsPerRun | langgraph-rag/app/services/batch_query_service.py:111-170 | the reports of a batch are, in order, the reports of each run computed from the records up to and including it |
| BatchQuery.StartedAt | langgraph-rag/app/services/batch_query_service.py:115-122 | when every title lookup succeeds, run j is announced as report 2j with `processed` = j, its question id and its title |
| BatchQuery.DoneAt | langgraph-rag/app/services/batch_query_service.py:138-147 | when every title lookup succeeds, run j is reported as report 2j + 1 with `processed` = j + 1, the status counts of the first j + 1 records, its own record, and the current question cleared |
| BatchQuery.ReportsAccount | langgraph-rag/app/services/batch_query_service.py:108-147 | when every title lookup succeeds, each run is announced with `processed` = j and reported with `processed` = j + 1 and status counts adding up to j + 1 |
| BatchQuery.RunStep | langgraph-rag/app/services/batch_query_service.py:134-170 | one more run appends its record and then its reports |
| BatchQuery.RowStep | langgraph-rag/app/services/batch_query_service.py:111-112 | the runs of one more question are that question's row after the runs before |
| BatchQuery.ProcessPair | langgraph-rag/app/services/batch_query_service.py:113-170 | one run appends its record (failed with the message when processing or the title lookup raises), bumps the processed count and, with a progress callback, sends its reports |
| BatchQuery.ProcessQuestion | langgraph-rag/app/services/batch_query_service.py:112-170 | the inner loop appends the runs of one question, one per graph type, to the records and reports before |
| BatchQuery.ProcessQuestions | langgraph-rag/app/services/batch_query_service.py:111-170 | the outer loop yields the records and reports of every question-major run |
| BatchQuery.ProcessBatch | langgraph-rag/app/services/batch_query_service.py:74-184 | the records are those of the runs in order, the reports are sent with a callback, and the summary's total is (number of questions) × (number of graph types) and splits exactly by status |
| StackOverflowConnector.ParseTags | langgraph-rag/app/services/stackoverflow_connector.py:125 | a missing or empty tags column reads back as no tags; any other column gives at least one tag |
| StackOverflowConnector.TagsRoundTrip | langgraph-rag/app/services/stackoverflow_connector.py:176 | tags joined with "," read back as the same tags, provided no tag holds a comma and the list is not the single empty tag |
| StackOverflowConnector.EmptyTagLost | langgraph-rag/app/services/stackoverflow_connector.py:176 | the single empty tag is stored as "" and reads back as no tags |
| StackOverflowConnector.FromRow | langgraph-rag/app/services/stackoverflow_connector.py:120-144 | a database row keeps its id and its answers, and its tags are the parsed tags column |
| StackOverflowConnector.GetQuestionsByIds | langgraph-rag/app/services/stackoverflow_connector.py:101-151 | no ids gives no questions without a query; a database error gives no questions; otherwise there is one question per row found, in order |
| StackOverflowConnector.Rating | langgraph-rag/app/services/stackoverflow_connector.py:237-241 | the answer's acceptance and score are what the best-answer rule looks at |
| StackOverflowConnector.Ratings | langgraph-rag/app/services/stackoverflow_connector.py:237-241 | the rule sees every answer, in order |
| StackOverflowConnector.BestAnswer | langgraph-rag/app/services/stackoverflow_connector.py:232-241 | there is no best answer exactly when there are no answers, and otherwise it is one of them |
| StackOverflowConnector.BestAnswerRule | langgraph-rag/app/services/stackoverflow_connector.py:232-241 | the best answer is the first accepted one; with none accepted, it is the first answer of maximal score |
| StackOverflowConnector.QuestionDocsShape | langgraph-rag/app/services/stackoverflow_connector.py:165-227 | in combine mode an answered question gives one Q+A document carrying the best answer; otherwise the question document comes first, followed by one document per answer when answers are included |
| StackOverflowConnector.QuestionDocsSource | langgraph-rag/app/services/stackoverflow_connector.py:178-224 | every document names the Stack Overflow source and its question |
| StackOverflowConnector.SeparateCount | langgraph-rag/app/services/stackoverflow_connector.py:192-227 | without combining there is one document per question, plus one per answer when answers are included |
| StackOverflowConnector.CombinedCount | langgraph-rag/app/services/stackoverflow_connector.py:166-190 | combining with answers included, questions that all have answers give exactly one document each |
| StackOverflowConnector.AppendAnswers | langgraph-rag/app/services/stackoverflow_connector.py:210-227 | the answer loop appends one answer document per answer, in order |
| StackOverflowConnector.ConvertQuestion | langgraph-rag/app/services/stackoverflow_connector.py:166-227 | the loop body adds exactly the documents specified for one question |
| StackOverflowConnector.ConvertToDocuments | langgraph-rag/app/services/stackoverflow_connector.py:153-230 | the conversion loop yields the documents of every question, in order |
| StackOverflowConnector.QuestionsPage | langgraph-rag/app/services/stackoverflow_connector.py:394-434 | the page count is ceil(total / page size), or 0 with no questions; `has_next` holds exactly when the page is before the last, `has_prev` exactly after page 1; a zero page size with questions present gives the error answer |
| StackOverflowConnector.HasNextIffItemsRemain | langgraph-rag/app/services/stackoverflow_connector.py:394-420 | with a positive page size, `has_next` holds exactly when the next page's offset is below the total |
| BaseLoader.ChunkParams | langgraph-rag/app/core/graph/tools/document_loaders/base_loader.py:94-114 | the chunk size is the configured size capped at 800; the overlap is at most a quarter of it, and for documents averaging over 5000 characters it is min(200, a quarter) |
| BaseLoader.DefaultChunkParams | langgraph-rag/app/core/graph/tools/document_loaders/base_loader.py:102-109 | with the defaults 800 and 100 the parameters are 800 and 100, or 800 and 200 for large documents |
| BaseLoader.Cleaned | langgraph-rag/app/core/graph/tools/document_loaders/base_loader.py:141-150 | a kept document has its content stripped and gains its input position and its new length, its other metadata unchanged |
| BaseLoader.KeptPositions | langgraph-rag/app/core/graph/tools/document_loaders/base_loader.py:136-139 | no more positions are kept than there are documents |
| BaseLoader.KeptPositionsValid | langgraph-rag/app/core/graph/tools/document_loaders/base_loader.py:136-139 | every kept position names a non-blank document, in increasing order |
| BaseLoader.KeptPositionsComplete | langgraph-rag/app/core/graph/tools/document_loaders/base_loader.py:136-139 | every non-blank document is kept |
| BaseLoader.ValidatedAt | langgraph-rag/app/core/graph/tools/document_loaders/base_loader.py:132-156 | the j-th output is the j-th non-blank input, stripped and tagged with its input position |
| BaseLoader.ValidatedNonEmpty | langgraph-rag/app/core/graph/tools/document_loaders/base_loader.py:137-142 | no kept document is empty |
| BaseLoader.ValidateDocuments | langgraph-rag/app/core/graph/tools/document_loaders/base_loader.py:132-156 | the validation loop returns exactly the cleaned non-blank documents, in order |
| BaseLoader.ResplitBounded | langgraph-rag/app/core/graph/tools/document_loaders/base_loader.py:70-87 | when the character splitter keeps to its limit, no final chunk exceeds 1600 characters |
| BaseLoader.ResplitIdentity | langgraph-rag/app/core/graph/tools/document_loaders/base_loader.py:74-87 | chunks already within 1600 characters pass through unchanged and none is counted as re-split |
| BaseLoader.SplitDocuments | langgraph-rag/app/core/graph/tools/document_loaders/base_loader.py:32-92 | an empty input is returned unchanged; otherwise the splitter runs with the chunk parameters from the average length, and every chunk over 1600 characters is split again and counted |
| BaseLoader.MinLength | langgraph-rag/app/core/graph/tools/document_loaders/base_loader.py:169 | the minimum is the length of some document and no document is shorter |
| BaseLoader.MaxLength | langgraph-rag/app/core/graph/tools/document_loaders/base_loader.py:170 | the maximum is the length of some document and no document is longer |
| BaseLoader.TotalBetween | langgraph-rag/app/core/graph/tools/document_loaders/base_loader.py:167 | the total length lies between n times the shortest and n times the longest |
| BaseLoader.AverageBetween | langgraph-rag/app/core/graph/tools/document_loaders/base_loader.py:168 | the mean of n values lies between their bounds |
| BaseLoader.Sources | langgraph-rag/app/core/graph/tools/document_loaders/base_loader.py:171 | the sources are exactly those of the documents, "unknown" standing for a missing one |
| BaseLoader.GetStats | langgraph-rag/app/core/graph/tools/document_loaders/base_loader.py:158-172 | no documents give only the count 0; otherwise the total is the sum of the lengths, the average is the total over the count and lies between min and max, min and max are attained, and the sources are exactly the documents' sources, each once |
| StackOverflowLoader.LoadFilters | langgraph-rag/app/core/graph/tools/document_loaders/stackoverflow_loader.py:42-55 | the load filters hold the built-in keys, the settings' keys and the caller's keys; the caller's values win over the settings', which win over the built-in ones |
| StackOverflowLoader.QualityScore | langgraph-rag/app/core/graph/tools/document_loaders/stackoverflow_loader.py:151-175 | the quality score never exceeds 1.0 |
| StackOverflowLoader.QualityScoreRange | langgraph-rag/app/core/graph/tools/document_loaders/stackoverflow_loader.py:153-175 | with no negative scores the quality score lies between 0.3 and 1.0 |
| StackOverflowLoader.QualityScoreCapped | langgraph-rag/app/core/graph/tools/document_loaders/stackoverflow_loader.py:175 | the cap applies: a well-scored, accepted, much-viewed pair scores exactly 1.0 |
| StackOverflowLoader.QualityScoreMonotone | langgraph-rag/app/core/graph/tools/document_loaders/stackoverflow_loader.py:156-175 | raising a score, accepting the answer or adding views never lowers the quality score |
| StackOverflowLoader.PairValidation | langgraph-rag/app/core/graph/tools/document_loaders/stackoverflow_loader.py:138-149 | a combined Q+A document is community-validated exactly when its answer is accepted or both the question and the answer score are positive |
| StackOverflowLoader.QuestionNeverValidated | langgraph-rag/app/core/graph/tools/document_loaders/stackoverflow_loader.py:145-149 | a question-only document carries no answer fields and is never validated |
| StackOverflowLoader.EnrichedFacts | langgraph-rag/app/core/graph/tools/document_loaders/stackoverflow_loader.py:116-134 | enrichment keeps the content and the other entries, writes the document type, source type, validation flag and quality score computed from the original metadata, and adds the primary tag and tag count only for a tag list |
| StackOverflowLoader.EnrichAll | langgraph-rag/app/core/graph/tools/document_loaders/stackoverflow_loader.py:112-136 | enrichment keeps the number of documents |
| StackOverflowLoader.ProcessMetadata | langgraph-rag/app/core/graph/tools/document_loaders/stackoverflow_loader.py:112-136 | the enrichment loop returns every document enriched, in order |
| StackOverflowLoader.FilterByTags | langgraph-rag/app/core/graph/tools/document_loaders/stackoverflow_loader.py:239-255 | without tags the documents are returned unchanged; otherwise the documents sharing a tag are kept, in order |
| StackOverflowLoader.TagFilterKeeps | langgraph-rag/app/core/graph/tools/document_loaders/stackoverflow_loader.py:245-252 | a document is kept exactly when it shares a requested tag, ignoring case, with a comma string split and stripped |
| StackOverflowLoader.StoredTagsReadBack | langgraph-rag/app/core/graph/tools/document_loaders/stackoverflow_loader.py:246-248 | a tag string stored by the connector reads back as the original tags, provided none holds a comma or surrounding whitespace |
| StackOverflowLoader.PairSharesTag | langgraph-rag/app/core/graph/tools/document_loaders/stackoverflow_loader.py:246-252 | a converted Q+A document passes the tag filter exactly when its question has a requested tag, ignoring case |
| StackOverflowLoader.FilterByScore | langgraph-rag/app/core/graph/tools/document_loaders/stackoverflow_loader.py:257-270 | the documents meeting the minimum are kept, in order |
| StackOverflowLoader.ScoreFilterKeeps | langgraph-rag/app/core/graph/tools/document_loaders/stackoverflow_loader.py:261-267 | a document is kept exactly when its question or answer score meets the minimum, a missing score counting as 0 |
| StackOverflowLoader.LoadedBeforeSplit | langgraph-rag/app/core/graph/tools/document_loaders/stackoverflow_loader.py:68-77 | answered questions give one enriched document each before validation and splitting |
| StackOverflowLoader.LoadDocuments | langgraph-rag/app/core/graph/tools/document_loaders/stackoverflow_loader.py:34-85 | no connector, a failing query or no pairs give no documents; otherwise the pairs are converted in combine mode, enriched, validated and split |
| CustomCollectionLoader.TaggedFacts | langgraph-rag/app/core/graph/tools/document_loaders/custom_collection_loader.py:123-134 | the collection id, collection name and source type are overwritten, the document type is added only when missing, and every other entry is kept |
| CustomCollectionLoader.TaggedIdempotent | langgraph-rag/app/core/graph/tools/document_loaders/custom_collection_loader.py:127-134 | tagging twice with the same collection is the same as tagging once |
| CustomCollectionLoader.TaggedDocs | langgraph-rag/app/core/graph/tools/document_loaders/custom_collection_loader.py:123-137 | tagging keeps the number of documents |
| CustomCollectionLoader.ProcessCollectionMetadata | langgraph-rag/app/core/graph/tools/document_loaders/custom_collection_loader.py:112-137 | the loop tags every document, keeping the number, order and content of the documents |
| CustomCollectionLoader.EarlyReturns | langgraph-rag/app/core/graph/tools/document_loaders/custom_collection_loader.py:57-110 | a missing collection, no question ids, no Q&A pairs or a raised error each give no documents |
| CustomCollectionLoader.LoadDocuments | langgraph-rag/app/core/graph/tools/document_loaders/custom_collection_loader.py:54-110 | the loader returns no documents on each guard, and otherwise the pairs converted in combine mode, tagged, validated and split |
| MultiSourceRetriever.SourcesOrDefault | langgraph-rag/app/core/graph/tools/multi_source_retriever.py:59-60 | no source list means PDF then Stack Overflow; a given list, even an empty one, is used as it is |
| MultiSourceRetriever.StandardDocs | langgraph-rag/app/core/graph/tools/multi_source_retriever.py:101-121 | a retriever that raises gives no documents; a returned list is filtered to its documents; a single returned document becomes a list of one, and anything else gives none |
| MultiSourceRetriever.DocsOf | langgraph-rag/app/core/graph/tools/multi_source_retriever.py:112-117 | only documents are kept from what a retriever returned, never more than it returned |
| MultiSourceRetriever.QuestionIds | langgraph-rag/app/core/graph/tools/multi_source_retriever.py:155-158 | the seen set holds the question id of every document that has one |
| MultiSourceRetriever.Fresh | langgraph-rag/app/core/graph/tools/multi_source_retriever.py:160-165 | a direct-search document is added only when its question id is new, and no two added documents share a question id |
| MultiSourceRetriever.FreshComplete | langgraph-rag/app/core/graph/tools/multi_source_retriever.py:160-165 | every question id new to the vector hits among the direct results is represented among the added documents |
| MultiSourceRetriever.Deduplicate | langgraph-rag/app/core/graph/tools/multi_source_retriever.py:154-167 | the two loops add exactly the fresh direct-search documents |
| MultiSourceRetriever.Take | langgraph-rag/app/core/graph/tools/multi_source_retriever.py:173 | `documents[:k]` is the first k documents, or all when fewer |
| MultiSourceRetriever.StackOverflowDocsShape | langgraph-rag/app/core/graph/tools/multi_source_retriever.py:130-173 | the Stack Overflow documents are at most k, start with the vector hits, and never repeat a question already among them |
| MultiSourceRetriever.RetrieveStackOverflow | langgraph-rag/app/core/graph/tools/multi_source_retriever.py:123-173 | the Stack Overflow path returns the vector hits for k // 2, then the fresh direct-search documents, cut to k, and only the vector hits when the direct search fails |
| MultiSourceRetriever.Score | langgraph-rag/app/core/graph/tools/multi_source_retriever.py:185-220 | the ranking score never exceeds 1.0 |
| MultiSourceRetriever.NonStackOverflowScore | langgraph-rag/app/core/graph/tools/multi_source_retriever.py:205-220 | a PDF scores 0.7 and any other non-Stack-Overflow source 0.6, plus the length bonus, never above 0.9 |
| MultiSourceRetriever.AcceptedOutranksPdf | langgraph-rag/app/core/graph/tools/multi_source_retriever.py:192-220 | an accepted Stack Overflow answer with non-negative scores outranks any PDF that is not longer |
| MultiSourceRetriever.ScoredAll | langgraph-rag/app/core/graph/tools/multi_source_retriever.py:223 | every document is paired with its own score, in order |
| MultiSourceRetriever.Insert | langgraph-rag/app/core/graph/tools/multi_source_retriever.py:224 | insertion adds exactly the new element |
| MultiSourceRetriever.InsertDescending | langgraph-rag/app/core/graph/tools/multi_source_retriever.py:224 | inserting into a descending list keeps it descending |
| MultiSourceRetriever.SortDescending | langgraph-rag/app/core/graph/tools/multi_source_retriever.py:224 | the sort is a permutation of its input |
| MultiSourceRetriever.SortDescendingSorted | langgraph-rag/app/core/graph/tools/multi_source_retriever.py:224 | the sort yields descending scores |
| MultiSourceRetriever.InsertStable | langgraph-rag/app/core/graph/tools/multi_source_retriever.py:224 | inserting into a descending list places the new element after every element with the same score |
| MultiSourceRetriever.SortDescendingStable | langgraph-rag/app/core/graph/tools/multi_source_retriever.py:224 | documents with equal scores keep their input order, as Python's stable sort does also with `reverse=True` |
| MultiSourceRetriever.Ranked | langgraph-rag/app/core/graph/tools/multi_source_retriever.py:226-232 | each kept document is returned with its score recorded, in order |
| MultiSourceRetriever.RankedLength | langgraph-rag/app/core/graph/tools/multi_source_retriever.py:228 | ranking keeps `total_k` documents, or all when there are fewer |
| MultiSourceRetriever.RankedDescending | langgraph-rag/app/core/graph/tools/multi_source_retriever.py:223-230 | the kept documents are in descending score order, each with its score as `retrieval_score` |
| MultiSourceRetriever.RankedTop | langgraph-rag/app/core/graph/tools/multi_source_retriever.py:223-230 | the kept and the dropped documents together are the scored input, and no dropped document scores higher than a kept one |
| MultiSourceRetriever.RankedFromInput | langgraph-rag/app/core/graph/tools/multi_source_retriever.py:223-230 | every kept document is an input document with its own score |
| MultiSourceRetriever.RankDocuments | langgraph-rag/app/core/graph/tools/multi_source_retriever.py:175-232 | the ranking loop returns exactly the ranked documents |
| MultiSourceRetriever.Breakdown | langgraph-rag/app/core/graph/tools/multi_source_retriever.py:234-251 | every source in the breakdown has at least one document |
| MultiSourceRetriever.BreakdownCounts | langgraph-rag/app/core/graph/tools/multi_source_retriever.py:238-249 | each normalised source present is counted with its number of documents, and only present sources appear |
| MultiSourceRetriever.TotalRemove | langgraph-rag/app/core/graph/tools/multi_source_retriever.py:249 | the sum of the counts does not depend on which source is taken first |
| MultiSourceRetriever.TotalIncrement | langgraph-rag/app/core/graph/tools/multi_source_retriever.py:249 | counting one more document raises the sum by one |
| MultiSourceRetriever.BreakdownTotal | langgraph-rag/app/core/graph/tools/multi_source_retriever.py:234-251 | the breakdown's counts add up to the number of documents |
| MultiSourceRetriever.CalculateFinalBreakdown | langgraph-rag/app/core/graph/tools/multi_source_retriever.py:234-251 | the counting loop returns exactly the breakdown |
| MultiSourceRetriever.PerSourceKeys | langgraph-rag/app/core/graph/tools/multi_source_retriever.py:67-84 | every source searched has a count |
| MultiSourceRetriever.PerSourceLast | langgraph-rag/app/core/graph/tools/multi_source_retriever.py:74-84 | a source's count is the number of documents from its last search |
| MultiSourceRetriever.WithBreakdown | langgraph-rag/app/core/graph/tools/multi_source_retriever.py:95-97 | only the first document changes: it keeps its content and carries a breakdown |
| MultiSourceRetriever.RetrieveSource | langgraph-rag/app/core/graph/tools/multi_source_retriever.py:68-72 | one turn of the source loop takes the Stack Overflow path or the standard path |
| MultiSourceRetriever.RetrieveMultiSource | langgraph-rag/app/core/graph/tools/multi_source_retriever.py:38-99 | all sources are gathered with `k_per_source` each and ranked keeping `total_k`, and the first document gets the breakdown of the kept documents |
| MultiSourceRetriever.GatherSources | langgraph-rag/app/core/graph/tools/multi_source_retriever.py:67-84 | the source loop collects the documents in source order and the count each source returned |
| BatchedEmbeddings.EmbedSingles | langgraph-rag/app/core/batched_embeddings.py:99-105 | the one-text-at-a-time loop ends with the outcome of the Singles specification: one request per text in order, stopping at the first text whose call raises and re-raising that exception |
| BatchedEmbeddings.EmbedSubBatch | langgraph-rag/app/core/batched_embeddings.py:81-95 | a sub-batch is one call whose vectors are kept, or, when that call raises, the single-text loop over the sub-batch (the SubBatch specification) |
| BatchedEmbeddings.EmbedSubBatches | langgraph-rag/app/core/batched_embeddings.py:78-95 | the loop over range(0, len(batch), 5) gives the outcome of running SubBatch over the chunks of 5 in order, stopping at the first exception |
| BatchedEmbeddings.EmbedBatch | langgraph-rag/app/core/batched_embeddings.py:70-105 | a batch is one call, else the sub-batch loop when it holds more than 5 texts, else the single-text loop (the Batch specification) |
| BatchedEmbeddings.EmbedBatches | langgraph-rag/app/core/batched_embeddings.py:64-106 | the loop over range(0, total_docs, batch_size) gives the outcome of running Batch over the consecutive chunks in order, the vectors concatenated |
| BatchedEmbeddings.EmbedDocuments | langgraph-rag/app/core/batched_embeddings.py:39-109 | embed_documents ends with the outcome of the Embedded specification: no call for no texts, one direct call when they fit a batch, else the batch loop |
| BatchedEmbeddings.SmallInputs | langgraph-rag/app/core/batched_embeddings.py:49-57 | no texts give an empty list with no call; texts that fit one batch make exactly one call, on all of them, and return its result unretried |
| BatchedEmbeddings.RunFirstTry | langgraph-rag/app/core/batched_embeddings.py:64-72 | when every batch embeds at its first call, the loop succeeds and its requests are exactly the batches |
| BatchedEmbeddings.BatchesInOrder | langgraph-rag/app/core/batched_embeddings.py:64-72 | when every batch embeds at its first call, the requests are the consecutive slices texts[i:min(i + batch_size, n)], ceil(n / batch_size) of them, which together are the texts in order |
| BatchedEmbeddings.RunPointwise | langgraph-rag/app/core/batched_embeddings.py:64-72 | a loop whose every piece yields one vector per text yields one vector per text of the concatenated pieces |
| BatchedEmbeddings.SinglesPointwise | langgraph-rag/app/core/batched_embeddings.py:99-102 | when each text embeds on its own, the single-text loop yields each text's own vector in order |
| BatchedEmbeddings.SubBatchPointwise | langgraph-rag/app/core/batched_embeddings.py:81-92 | when each text embeds on its own, a sub-batch yields each text's own vector in order, whether or not its call raised |
| BatchedEmbeddings.BatchPointwise | langgraph-rag/app/core/batched_embeddings.py:70-102 | when each text embeds on its own, a batch yields each text's own vector in order, whichever fallback it took |
| BatchedEmbeddings.Recovers | langgraph-rag/app/core/batched_embeddings.py:64-109 | when each text embeds on its own, embed_documents of more than one batch returns one vector per text, each text's own, in the order of the texts, whatever batch and sub-batch calls raised |
| BatchedEmbeddings.AfterRaised | langgraph-rag/app/core/batched_embeddings.py:64-106 | prefixing earlier successful calls keeps an outcome's exception one raised by a single-text call |
| BatchedEmbeddings.RunRaised | langgraph-rag/app/core/batched_embeddings.py:64-106 | a loop whose every step can only raise the exception of a single-text call can only raise such an exception |
| BatchedEmbeddings.SinglesRaised | langgraph-rag/app/core/batched_embeddings.py:99-105 | the single-text loop raises only the exception of a call on one of its texts, as its last request |
| BatchedEmbeddings.BatchRaised | langgraph-rag/app/core/batched_embeddings.py:70-105 | a batch raises only the exception of a single-text call on one of its texts; the batch and sub-batch exceptions are swallowed |
| BatchedEmbeddings.OnlySingleFailuresRaise | langgraph-rag/app/core/batched_embeddings.py:64-109 | beyond one batch, embed_documents raises only the exception of a single-text call on one of the texts, and that call is the last request made |
| EmbeddingService.FirstFailure | langgraph-rag/app/services/embedding_service.py:235-242 | the sub-batch loop fails exactly when some sub-batch fails, and then with the exception of one of them |
| EmbeddingService.RemainingSucceeds | langgraph-rag/app/services/embedding_service.py:219-246 | the loop over the later batches runs to the end exactly when every batch is stored directly or through its sub-batches, and then reports once per batch |
| EmbeddingService.AddWithFallback | langgraph-rag/app/services/embedding_service.py:231-246 | the retry of a failed batch is the Added specification: re-raise when it is no larger than the fallback size, else add its sub-batches in turn up to the first failure |
| EmbeddingService.AddRemaining | langgraph-rag/app/services/embedding_service.py:217-246 | the loop over range(batch_size, total_docs, batch_size) gives the Remaining outcome over the chunks after the first batch, numbered from 2, each reported with the documents stored up to its end |
| EmbeddingService.CreateVectorStoreBatched | langgraph-rag/app/services/embedding_service.py:170-249 | _create_vector_store_batched gives the Created outcome: the (0, 0) report, one call when the documents fit a batch, else the first batch and the later-batch loop |
| EmbeddingService.TotalBatchesCount | langgraph-rag/app/services/embedding_service.py:173-174 | total_batches is 1 when the documents fit a batch, and otherwise ceil(n / batch_size), the first batch plus the later ones the loop visits |
| EmbeddingService.RemainingReports | langgraph-rag/app/services/embedding_service.py:219-244 | a later-batch loop that runs to the end reports each batch with its number and the count of documents stored up to its end |
| EmbeddingService.ProgressComplete | langgraph-rag/app/services/embedding_service.py:176-249 | a successful batched creation stores every document and reports batches 0 to total_batches, the k-th with min(k * batch_size, n) processed, ending at (total_batches, n) |
| EmbeddingService.CreatedSucceeds | langgraph-rag/app/services/embedding_service.py:202-249 | beyond one batch, creation succeeds exactly when the first batch is stored and every later batch is stored directly or through its sub-batches |
| EmbeddingService.FallbackRule | langgraph-rag/app/services/embedding_service.py:231-246 | a failed later batch is recovered exactly when it is larger than the fallback size and each of its sub-batches is stored |
| EmbeddingService.SingleBatch | langgraph-rag/app/services/embedding_service.py:188-200 | documents that fit one batch are stored in one call, reported as (0, 0) then (1, n); when that call fails only (0, 0) is reported and its exception is the result |
| EmbeddingService.DocumentsRequired | langgraph-rag/app/services/embedding_service.py:67-69 | creating a store that is not cached, with no documents given, when the collection is absent on disk or a rebuild is forced, fails |
| EmbeddingService.CachedStoreReused | langgraph-rag/app/services/embedding_service.py:53-55 | once a store is cached, asking for it again without a rebuild returns it with no embedding call, whatever documents and batch size are passed |
| EmbeddingService.Service.constructor | langgraph-rag/app/services/embedding_service.py:27-29 | the service starts with no cached store |
| EmbeddingService.Service.GetOrCreateVectorStore | langgraph-rag/app/services/embedding_service.py:33-108 | the result and progress reports are those of the Resolved specification, and the cache gains the returned store under its name on success and is unchanged on failure |
| CollectionManager.BasenameShape | langgraph-rag/app/services/collection_manager.py:534 | the document name is the part of the path after its last `/`: it holds no `/` and is the whole path or follows a `/` |
| CollectionManager.AddQuestionsCount | langgraph-rag/app/services/collection_manager.py:167-189 | the insertions are the known requested ids the collection lacks; the count is exactly their number, the collection then holds every known requested id, and adding the same ids again inserts nothing |
| CollectionManager.QueryCount | langgraph-rag/app/database.py:13 | a count query sees the rows added in the session only when the session autoflushes; the sessions here do not |
| CollectionManager.StaleQuestionCount | langgraph-rag/app/services/collection_manager.py:182-193 | as written, with autoflush off, the stored question_count is the number of rows before the insert, strictly less than the rows the collection holds once committed |
| CollectionManager.StaleQuestionCountExample | langgraph-rag/app/services/collection_manager.py:182-193 | an empty collection given one new question stores question_count 0 while holding one row |
| CollectionManager.FlushedCountIsRowCount | langgraph-rag/app/services/collection_manager.py:191-193 | had the pending rows been flushed before the count, the stored count would be the row count after the insert |
| CollectionManager.RemoveQuestionsCount | langgraph-rag/app/services/collection_manager.py:225-230 | removing counts exactly the deleted memberships, and removing the same ids again deletes none |
| CollectionManager.PathsOfAdd | langgraph-rag/app/services/collection_manager.py:539-546 | a new document row adds its path to its own collection's paths and to no other collection's |
| CollectionManager.PageOf | langgraph-rag/app/services/collection_manager.py:296-308 | a listing page is computed exactly when the page size is non-zero; a zero page size is the division error |
| CollectionManager.PageOfTiles | langgraph-rag/app/services/collection_manager.py:296-308 | for a positive page size total_pages is ceil(total / page_size), page 1 starts at offset 0, and every page from 1 to total_pages starts inside the total |
| CollectionManager.ListingsPartition | langgraph-rag/app/services/collection_manager.py:278-282 | the questions in a collection and those not in it (lines 336-342) are disjoint and together are every stored question |
| CollectionManager.GetCollection | langgraph-rag/app/services/collection_manager.py:96-109 | a collection is found exactly when its id is stored, and it is the stored record |
| CollectionManager.InsertQuestions | langgraph-rag/app/services/collection_manager.py:180-189 | the count_added loop leaves the memberships as the old ones plus the new ids, and counts each new id once |
| CollectionManager.InsertDocuments | langgraph-rag/app/services/collection_manager.py:530-547 | the count_added loop inserts one row per new path under fresh ids, named after the path's basename and carrying added_by; the collection's paths become the old ones plus the new paths and the count is their number |
| CollectionManager.ExtendsElsewhere | langgraph-rag/app/services/collection_manager.py:539-546 | rows inserted for one collection leave the paths of every other collection as they were |
| CollectionManager.Manager.constructor | langgraph-rag/app/services/collection_manager.py:22-23 | the manager works on the database it is given |
| CollectionManager.Manager.CreateCollection | langgraph-rag/app/services/collection_manager.py:33-82 | a name already in use gives the "already exists" error and changes nothing; otherwise a new collection with question_count 0 is stored under a fresh id and nothing else changes |
| CollectionManager.Manager.DeleteCollection | langgraph-rag/app/services/collection_manager.py:111-140 | the result is true exactly when the collection existed; afterwards get_collection finds nothing, and its memberships and document rows are gone with it while all else stays |
| CollectionManager.Manager.AddQuestionsToCollection | langgraph-rag/app/services/collection_manager.py:142-207 | a missing collection gives the not-found error and changes nothing; otherwise exactly the known requested ids it lacks are added, their number is returned, and question_count becomes the membership count |
| CollectionManager.Manager.RemoveQuestionsFromCollection | langgraph-rag/app/services/collection_manager.py:209-251 | the collection's memberships among the ids are deleted and counted, other collections keep theirs, and question_count of an existing collection becomes what is left |
| CollectionManager.Manager.GetCollectionQuestionIds | langgraph-rag/app/services/collection_manager.py:370-384 | the ids returned are exactly the collection's memberships, each once |
| CollectionManager.Manager.UpdateCollectionRebuildTime | langgraph-rag/app/services/collection_manager.py:386-406 | an existing collection gets last_rebuilt_at set to the time given; nothing else changes |
| CollectionManager.Manager.SetRebuildError | langgraph-rag/app/services/collection_manager.py:408-449 | set_rebuild_error and clear_rebuild_error set an existing collection's rebuild_error to the message or to none; nothing else changes |
| CollectionManager.Manager.AddDocumentsToCollection | langgraph-rag/app/services/collection_manager.py:494-565 | a missing collection and a non-pdf collection give their errors and change nothing; otherwise the requested paths the collection lacks are added, their number is returned, and question_count becomes the row count |
| CollectionManager.Manager.StoreDocuments | langgraph-rag/app/services/collection_manager.py:529-551 | the new paths are inserted as rows of the collection, other collections keep their rows, and question_count becomes the collection's row count |
| CollectionManager.Manager.RemoveDocumentsFromCollection | langgraph-rag/app/services/collection_manager.py:567-607 | the collection's rows among the ids are deleted and counted, rows of other collections stay, and question_count of an existing collection becomes the rows left |
| VectorStore.SearchConfig | langgraph-rag/app/core/graph/tools/vector_store.py:57-63 | the search parameters always hold `k`, 5 unless the caller gives one; the caller's `filter` and `fetch_k` are kept unchanged and every other key is dropped |
| VectorStore.NamesDistinct | langgraph-rag/app/core/graph/tools/vector_store.py:67-69 | `<type>_collection` names differ for different sources, `custom_collection_<id>` names (line 348) differ for different ids, and no custom name is a source's name |
| VectorStore.DefaultBatchStoresAll | langgraph-rag/app/core/graph/tools/vector_store.py:50-54 | a store created with the default batch size of 50 (config.py line 73) that succeeds holds exactly the documents it was given |
| VectorStore.ExistingStoreReused | langgraph-rag/app/core/graph/tools/vector_store.py:42-65 | a collection that is present and non-empty is reused, the cached store before the stored one, without asking the loader |
| VectorStore.LoaderErrorRaised | langgraph-rag/app/core/graph/tools/vector_store.py:76-96 | when documents must be loaded (a forced rebuild, or an absent or empty collection) the loader's error is what get_retriever raises |
| VectorStore.RebuiltRetrieverHoldsLoaded | langgraph-rag/app/core/graph/tools/vector_store.py:42-65 | a forced rebuild that succeeds searches exactly the documents the loader returned, with the filtered search parameters |
| VectorStore.RebuildCountsAgree | langgraph-rag/app/core/graph/tools/vector_store.py:142-161 | a successful rebuild_collection reports the source's collection name, status "rebuilt", and a vector store size equal to the document count |
| VectorStore.VectorStoreService.constructor | langgraph-rag/app/core/graph/tools/vector_store.py:27-28 | the service starts with its own embedding service, which holds no cached store |
| VectorStore.VectorStoreService.GetRetriever | langgraph-rag/app/core/graph/tools/vector_store.py:34-65 | the retriever is the Retrieved specification's, and on success its store is cached under the source's collection name; a failure leaves the cache as it was |
| VectorStore.VectorStoreService.RebuildCollection | langgraph-rag/app/core/graph/tools/vector_store.py:142-161 | the statistics are the Rebuilt specification's; a success caches the loaded documents under the source's name, a failure changes no cache entry |
| VectorStore.VectorStoreService.FilterStackOverflowDocuments | langgraph-rag/app/core/graph/tools/vector_store.py:229-248 | the tag filter applies only for a non-empty tag list and the score filter only for a given minimum; a document is kept exactly when it is in the input and passes each filter that applies, in input order |
| VectorStore.GetCustomCollectionRetriever | langgraph-rag/app/core/graph/tools/vector_store.py:317-398 | the retriever is the CustomRetrieved specification's, read from the collection manager's tables |
| VectorStore.CustomNotFound | langgraph-rag/app/core/graph/tools/vector_store.py:342-344 | an unknown collection id is refused with a message that ends in "not found" |
| VectorStore.CustomTypeOnlyWhenLoading | langgraph-rag/app/core/graph/tools/vector_store.py:350-369 | an unknown collection type is refused only when documents must be loaded; a present, non-empty store is reused whatever the type |
| VectorStore.CustomEmptyLoadRefused | langgraph-rag/app/core/graph/tools/vector_store.py:371-376 | a loader that returns no documents gives the "No documents loaded" error |
| VectorStore.CustomStoreHoldsLoaded | langgraph-rag/app/core/graph/tools/vector_store.py:358-384 | when a new store is built, a successful call searches exactly the documents of the collection type's loader, and there is at least one |
| VectorStore.Synced | langgraph-rag/app/core/graph/tools/vector_store.py:414-436 | syncing changes only the given collection, and only its question_count, to the actual count of its questions or document rows |
| VectorStore.SyncIdempotent | langgraph-rag/app/core/graph/tools/vector_store.py:414-436 | syncing a collection twice leaves the same tables as syncing it once |
| VectorStore.SyncCollectionCount | langgraph-rag/app/core/graph/tools/vector_store.py:401-439 | the result is 0 for a missing collection and otherwise its membership count (stackoverflow) or document-row count (pdf); the tables change only when the stored count differed, and then only that count |
| VectorStore.EmbeddedEvents | langgraph-rag/app/core/graph/tools/vector_store.py:505-510 | each embedding progress report reaches the callback as one event, in order |
| VectorStore.CustomRebuildOutcomes | langgraph-rag/app/core/graph/tools/vector_store.py:442-526 | an unknown id or type is refused before any loading or event; an empty load is refused after the documents_loaded event; a success reports the collection's id and name, status "rebuilt" and as many stored as loaded documents |
| VectorStore.RebuildCustomCollection | langgraph-rag/app/core/graph/tools/vector_store.py:442-526 | the statistics and progress events are the CustomRebuilt specification's; a success ends by syncing the collection's count, and a failure changes no table |
| VectorStore.LoaderHealth | langgraph-rag/app/core/graph/tools/vector_store.py:285-303 | the pdf entry is whether the PDF directory exists; the stackoverflow entry is true exactly when a connector exists and its connection test did not raise, and only then is the connection result recorded |
| VectorStore.StackOverflowEntryAsWritten | langgraph-rag/app/core/graph/tools/vector_store.py:288-303 | with the connection probe raising `AttributeError`, as the missing `test_connection` makes it, the Stack Overflow entry is always false, never has a connection entry, and carries the error message whenever a connector exists |
| VectorStore.OverallCountsErrors | langgraph-rag/app/core/graph/tools/vector_store.py:305-310 | with the PDF directory missing and the connector created but its `test_connection` call raising `AttributeError`, no loader entry is true, yet `overall` as written is true because the error message is a truthy value |
| VectorStore.OverallMeansALoaderWorks | langgraph-rag/app/core/graph/tools/vector_store.py:305-310 | the intended `overall` holds exactly when the embedding service is up and the PDF directory exists or the Stack Overflow connection test passes |
| VectorStore.HealthCheck | langgraph-rag/app/core/graph/tools/vector_store.py:269-315 | the embedding service is reported up exactly when listing collections succeeded, and `overall` is the intended one: the service up and a working loader |
| CollectionHealthService.CheckCollectionHealth | langgraph-rag/app/services/collection_health_service.py:23-68 | the store exists exactly when the collection is configured and its store reports at least one document; a rebuild is needed exactly when it does not exist; the count is the store's when it exists and 0 otherwise; an error is reported exactly when the probe of a configured collection raised |
| CollectionHealthService.HealthAgreesWithRetriever | langgraph-rag/app/services/collection_health_service.py:42-47 | the health check counts a store as present exactly when get_custom_collection_retriever (vector_store.py lines 350-353) would reuse it |
| CollectionHealthService.HealthyIds | langgraph-rag/app/services/collection_health_service.py:94-95 | the healthy collections are exactly the configured ones whose store is present |
| CollectionHealthService.CheckedAllValid | langgraph-rag/app/services/collection_health_service.py:89-92 | recording every collection's health changes no name, so the collection records stay valid |
| CollectionHealthService.CheckEach | langgraph-rag/app/services/collection_health_service.py:86-101 | the loop records each collection's chroma_exists, needs_rebuild and last_health_check, counts the healthy ones exactly, and counts every other one as needing a rebuild |
| CollectionHealthService.CheckAllCollections | langgraph-rag/app/services/collection_health_service.py:70-104 | the summary's total is the number of collections, healthy counts the collections with a present store and needs_rebuild the rest, checked_at is the time given; each record gets its health and no other table changes |
| TextCleaning.TextKept | langgraph-rag/app/utils/text_cleaning.py:33 | text without `<` passes through the tag removal unchanged, whatever follows it |
| TextCleaning.TagDropped | langgraph-rag/app/utils/text_cleaning.py:33 | a markup element `<...>` (at least one character, no `>` inside) is removed whole |
| TextCleaning.EnclosedTextKept | langgraph-rag/app/utils/text_cleaning.py:31-33 | markup around text without `<` is removed and the enclosed text kept |
| TextCleaning.NoEntity | langgraph-rag/app/utils/text_cleaning.py:37 | text without `&` decodes to itself, whatever follows it |
| TextCleaning.CollapseStart | langgraph-rag/app/utils/text_cleaning.py:40 | a run of three or more newlines separated only by whitespace is replaced by exactly two newlines, and any other character is kept |
| TextCleaning.CollapseLeavesNoTriple | langgraph-rag/app/utils/text_cleaning.py:40 | after the newline pass no three newlines follow each other |
| TextCleaning.NoNewlineKept | langgraph-rag/app/utils/text_cleaning.py:40 | text without newlines passes through the newline pass unchanged, whatever follows it |
| TextCleaning.CleanHtml | langgraph-rag/app/utils/text_cleaning.py:13-42 | no text comes back as no text and the empty string as the empty string |
| TextCleaning.CleanedShape | langgraph-rag/app/utils/text_cleaning.py:39-42 | the cleaned text has no leading or trailing whitespace and never three newlines in a row |
| TextCleaning.PlainTextUnchanged | langgraph-rag/app/utils/text_cleaning.py:13-42 | plain text without markup, entities, newlines or surrounding whitespace comes back unchanged |
| TextCleaning.EntitiesDecodedAfterTags | langgraph-rag/app/utils/text_cleaning.py:31-37 | tags are removed before entities are decoded: for input without `<` cleaning is decoding, then the newline pass, then stripping |
| TextCleaning.CleanedAfterDecoding | langgraph-rag/app/utils/text_cleaning.py:31-42 | text that after tag removal and decoding has no newline and no surrounding whitespace is the cleaned result |
| TextCleaning.EncodedTagDecoded | langgraph-rag/app/utils/text_cleaning.py:35-37 | an escaped element `&lt;name&gt;` decodes to `<name>` |
| TextCleaning.EncodedMarkupSurvives | langgraph-rag/app/utils/text_cleaning.py:35-37 | an escaped element survives cleaning as the text `<name>` rather than being removed as markup (the `&lt;value&gt;` case of test_html_cleaning.py line 24) |
| ScraperApi.RequestParams | langgraph-rag/app/services/stackoverflow_scrapper.py:47-57 | the parameters sent are the defaults (site stackoverflow, order desc, sort votes) and the caller's, the caller's value winning on a shared key |
| ScraperApi.RequestFor | langgraph-rag/app/services/stackoverflow_scrapper.py:43-57 | a request goes to `https://api.stackexchange.com/2.3/<endpoint>` with the merged parameters |
| ScraperApi.MakeRequest | langgraph-rag/app/services/stackoverflow_scrapper.py:59-77 | a failed call never raises: it gives no items, no further pages and its error message; a reply is passed on with its items and has_more as they came, and without an error |
| ScraperApi.PageParams | langgraph-rag/app/services/stackoverflow_scrapper.py:248-249 | a page request sets `page` and `pagesize` in the caller's dict and keeps its other entries |
| ScraperApi.Round | langgraph-rag/app/services/stackoverflow_scrapper.py:247-268 | one round of the page loop asks for the next page with a page size of the missing count capped at 100, keeps the caller's other parameters, and appends that page's questions |
| ScraperApi.FetchQuestions | langgraph-rag/app/services/stackoverflow_scrapper.py:229-275 | at most 10 page calls, on consecutive pages from start_page, each asking for what is missing up to 100; none when count is not positive; every call but the last returned questions and has_more; the loop stops for a reason (error, empty page, no more pages, the page limit or enough questions); the result is the first count questions gathered, and the number of calls is the one `CallsFrom` fixes |
| ScraperApi.CallsDetermined | langgraph-rag/app/services/stackoverflow_scrapper.py:247-275 | calls made only while questions were missing, every one but the last having continued, and a reason to stop fix the number of calls |
| ScraperApi.IdsStringDetermines | langgraph-rag/app/services/stackoverflow_scrapper.py:285 | two non-empty id batches give the same `;`-joined ids string exactly when they are the same batch |
| ScraperApi.BatchEndpointsAreChunks | langgraph-rag/app/services/stackoverflow_scrapper.py:283-292 | one call per batch, the batches being the consecutive slices of at most 100 ids, in order |
| ScraperApi.FetchInBatches | langgraph-rag/app/services/stackoverflow_scrapper.py:283-298 | the batch loop calls each batch's endpoint in order and keeps, in order, the items of the calls that succeeded with items |
| ScraperApi.FetchAnswers | langgraph-rag/app/services/stackoverflow_scrapper.py:277-303 | the answers are the items of the successful `questions/<ids>/answers` calls, one call per batch of 100 question ids |
| ScraperApi.FetchAcceptedAnswers | langgraph-rag/app/services/stackoverflow_scrapper.py:335-371 | no ids make no call and give no answers; otherwise the answers are the items of the successful `answers/<ids>` calls, one per batch of 100 ids |
| ScraperStore.ParsedTagsReadBack | langgraph-rag/app/services/stackoverflow_scrapper.py:311 | the comma-joined tags read back (stackoverflow_connector.py line 125) as the item's tag list when no tag holds a comma and the list is not the single empty tag; a missing list reads back as no tags |
| ScraperStore.StoredBodyClean | langgraph-rag/app/services/stackoverflow_scrapper.py:310 | a stored body is cleaned markup, with no surrounding whitespace and never three newlines in a row; a missing body is stored as the empty string |
| ScraperStore.AcceptedAnswerIdsComplete | langgraph-rag/app/services/stackoverflow_scrapper.py:167-170 | an id is collected exactly when some parsed question names it as its accepted answer and it is not 0 |
| ScraperStore.SearchTags | langgraph-rag/app/services/stackoverflow_scrapper.py:105-106 | the search always names at least one tag |
| ScraperStore.SearchParams | langgraph-rag/app/services/stackoverflow_scrapper.py:102-117 | the search asks for questions from days_back days before the start, a first page of min(count, 100), bodies, the minimum score, and accepted answers exactly when they are required |
| ScraperStore.TaggedNamesTags | langgraph-rag/app/services/stackoverflow_scrapper.py:105-109 | splitting `tagged` at ";" gives the requested tags back when none holds a ";", and `tagged` is "sql" when no tags were requested |
| ScraperStore.QaTables.constructor | langgraph-rag/app/database.py:107-131 | the question and answer tables start empty |
| ScraperStore.QaTables.MergeQuestion | langgraph-rag/app/services/stackoverflow_scrapper.py:373-410 | a question is stored exactly when it has an id and the database does not fail; storing upserts it under its id, keeps every earlier row and leaves the answers alone |
| ScraperStore.QaTables.MergeAnswer | langgraph-rag/app/services/stackoverflow_scrapper.py:412-474 | an answer whose question is missing is skipped; otherwise it is upserted under its id linked to its question unless the database fails; the question table is untouched |
| ScraperStore.QuestionsAfterKeys | langgraph-rag/app/services/stackoverflow_scrapper.py:143-152 | after the question loop the table holds every earlier row plus exactly the ids stored |
| ScraperStore.LastMergeWins | langgraph-rag/app/services/stackoverflow_scrapper.py:395-398 | a stored question with no later successful merge of its id is the row kept for that id |
| ScraperStore.StoreQuestions | langgraph-rag/app/services/stackoverflow_scrapper.py:141-164 | each question is merged in order; the ids of the stored ones are collected in order and counted as stored, and each failed one counts as skipped and as an error |
| ScraperStore.OutcomesPartition | langgraph-rag/app/services/stackoverflow_scrapper.py:432-474 | every answer is counted exactly once, as stored, skipped or an error |
| ScraperStore.StoreAnswers | langgraph-rag/app/services/stackoverflow_scrapper.py:202-213 | each answer is merged in order and counted as stored, as skipped when its question is missing, or as an error; the question table is untouched |
| ScraperStore.ScrapeAndStore | langgraph-rag/app/services/stackoverflow_scrapper.py:79-227 | at most count questions are fetched, each stored or skipped; every answer fetched (accepted ones and the others) and every failed question is counted once among stored, skipped and errors; no question row is lost; the question table is the old one with every fetched question merged in order, the answers table has the accepted answers of the parsed questions merged and then the answers of the stored questions, and the fetched and stored counts are those of these lists |
| ScraperStore.TestRequest | langgraph-rag/app/services/stackoverflow_scrapper.py:480-485 | the connection test asks `/questions` for one question tagged sql on stackoverflow |
| ScraperStore.TestApiConnection | langgraph-rag/app/services/stackoverflow_scrapper.py:476-503 | the test succeeds exactly when its call did; a failure reports the call's error, a success the quota and a result message |
| ScraperStore.ConnectionMessageCounts | langgraph-rag/app/services/stackoverflow_scrapper.py:493-497 | the success message is "Successfully fetched N test question(s)" with N, in decimal, the number of questions the reply held |
| ScraperStats.KeptPiecesShape | langgraph-rag/app/services/stackoverflow_scrapper.py:531-533 | every tag counted is a comma-separated piece of a column value, stripped, non-empty and without surrounding whitespace |
| ScraperStats.DistinctSpec | langgraph-rag/app/services/stackoverflow_scrapper.py:534 | the dict's keys, in insertion order, are each tag seen, once, and nothing else |
| ScraperStats.OccursIffCounted | langgraph-rag/app/services/stackoverflow_scrapper.py:534 | a tag has a positive count exactly when it occurs |
| ScraperStats.DistinctSnoc | langgraph-rag/app/services/stackoverflow_scrapper.py:534 | one more tag is appended to the dict's key order exactly when it is new |
| ScraperStats.AddAllCounts | langgraph-rag/app/services/stackoverflow_scrapper.py:526-534 | counting from the empty dict gives every tag once, in the order of its first occurrence, with the number of its occurrences |
| ScraperStats.CountPieces | langgraph-rag/app/services/stackoverflow_scrapper.py:531-534 | the inner loop adds the stripped non-empty pieces of one column value to the dict, in order |
| ScraperStats.CountTags | langgraph-rag/app/services/stackoverflow_scrapper.py:526-534 | after the counting loop the dict's keys are the distinct tags in first-occurrence order and each value is the tag's number of occurrences over all rows |
| ScraperStats.SortMembers | langgraph-rag/app/services/stackoverflow_scrapper.py:539-543 | sorting keeps the number of entries and exactly the same entries |
| ScraperStats.SortPermutes | langgraph-rag/app/services/stackoverflow_scrapper.py:539-543 | the sorted entries are the dict's items rearranged |
| ScraperStats.SortSorted | langgraph-rag/app/services/stackoverflow_scrapper.py:539-543 | the sorted entries are in non-increasing order of count |
| ScraperStats.SortStable | langgraph-rag/app/services/stackoverflow_scrapper.py:539-543 | entries with equal counts keep their input order, as Python's stable sort with reverse=True does |
| ScraperStats.SortDistinct | langgraph-rag/app/services/stackoverflow_scrapper.py:539-543 | entries with distinct tags stay distinct after sorting |
| ScraperStats.TagItemsSpec | langgraph-rag/app/services/stackoverflow_scrapper.py:540 | the dict's items hold one entry per distinct tag with its true count, and every tag seen has its entry |
| ScraperStats.GetTopTags | langgraph-rag/app/services/stackoverflow_scrapper.py:525-544 | the tags part of the statistics is TopTags of the tag columns |
| ScraperStats.TopTagsSpec | langgraph-rag/app/services/stackoverflow_scrapper.py:536-544 | at most ten entries, all of them when fewer than ten tags exist; one per distinct tag, each with its true count, largest count first |
| ScraperStats.TopTagsCut | langgraph-rag/app/services/stackoverflow_scrapper.py:536-544 | a tag left out of the top ten occurs no more often than any tag listed |
| ScraperStats.TopTagsOrder | langgraph-rag/app/services/stackoverflow_scrapper.py:539-543 | the sort permutes the dict's items, and tags with equal counts keep the dict's key order, the order of the rows they first appeared in |
| ScraperStats.AcceptedBounded | langgraph-rag/app/services/stackoverflow_scrapper.py:511-513 | no more answers are accepted than stored, and as many exactly when every stored answer is accepted |
| BertEvaluation.EvaluateAnswer | langgraph-rag/app/evaluation/bert_evaluation.py:46-87 | a score exists exactly when the scorer is available, neither answer is blank and the scorer did not raise; it carries the scorer's precision, recall and F1 and the service's model type |
| BertEvaluation.BatchEvaluate | langgraph-rag/app/evaluation/bert_evaluation.py:89-115 | an unavailable scorer gives one None per generated answer whatever the references; lists of different lengths raise; otherwise one result per pair, in order, each that of evaluate_answer |
| BertEvaluation.Interpretation | langgraph-rag/app/evaluation/bert_evaluation.py:117-130 | the interpretation is one of the six grades |
| BertEvaluation.InterpretationByThresholds | langgraph-rag/app/evaluation/bert_evaluation.py:117-130 | the grade is the one whose index, from "Very Poor" up to "Excellent", is the number of the bounds 0.5, 0.6, 0.7, 0.8, 0.9 the F1 score reaches |
| BertEvaluation.ReachedMonotone | langgraph-rag/app/evaluation/bert_evaluation.py:119-128 | a higher score reaches at least as many of the bounds |
| BertEvaluation.InterpretationMonotone | langgraph-rag/app/evaluation/bert_evaluation.py:117-130 | a higher F1 score never gets a worse grade |
| EvaluationService.GraphTypeOr | langgraph-rag/app/evaluation/evaluation_service.py:56 | the graph type stored is never empty, and a given non-empty one is kept |
| EvaluationService.GraphTypeOrIdempotent | langgraph-rag/app/evaluation/evaluation_service.py:56 | applying the default twice changes nothing, and "adaptive_rag" is stored exactly when no type, an empty one or "adaptive_rag" itself is given |
| EvaluationService.NewRecord | langgraph-rag/app/evaluation/evaluation_service.py:49-76 | the new record has the default graph type, the model config or an empty one, and BERT scores exactly when a non-blank reference is given and evaluate_answer gives a result, which are then its scores |
| EvaluationService.Rated | langgraph-rag/app/evaluation/evaluation_service.py:124-127 | a rating sets the rating, comment, evaluator name and evaluation time and keeps every other field |
| EvaluationService.Show | langgraph-rag/app/evaluation/evaluation_service.py:151-181 | the BERT block is shown exactly when bert_f1 is present and not 0.0, with its F1 and its interpretation; the manual block exactly when the rating is present and not 0, with that rating |
| EvaluationService.RatingShownBack | langgraph-rag/app/evaluation/evaluation_service.py:124-175 | a rating from 1 to 5 added by add_manual_evaluation is shown back by get_evaluation with its comment, evaluator and time, and the BERT block is unchanged |
| EvaluationService.NewRecordShown | langgraph-rag/app/evaluation/evaluation_service.py:49-175 | a new record shows a BERT block exactly when a score was computed with a non-zero F1, and never a manual block |
| EvaluationService.EvaluationTable.constructor | langgraph-rag/app/evaluation/models.py:13-17 | the evaluation table starts empty, the first id being 1 |
| EvaluationService.EvaluationTable.EvaluateGeneratedAnswer | langgraph-rag/app/evaluation/evaluation_service.py:25-90 | a failing commit raises and leaves the table as it was; otherwise NewRecord is stored under a fresh id and returned, and nothing else changes |
| EvaluationService.EvaluationTable.AddManualEvaluation | langgraph-rag/app/evaluation/evaluation_service.py:92-138 | a rating outside 1 to 5 raises before the table is read; otherwise the answer is true exactly when the record exists and the commit succeeds, and only then is the record rated |
| EvaluationService.EvaluationTable.GetEvaluation | langgraph-rag/app/evaluation/evaluation_service.py:140-189 | a view exists exactly when the record does, and it is the record as Show presents it |
| EvaluationService.EvaluationTable.EvaluateWithReference | langgraph-rag/app/evaluation/evaluation_service.py:272-326 | a missing question or a failing commit gives None and changes nothing; otherwise the record of an evaluation against the best answer is added under a fresh id, which is returned |
| EvaluationService.ReferenceAnswer | langgraph-rag/app/evaluation/evaluation_service.py:296-307 | a reference answer exists exactly when the question has answers |
| EvaluationService.ReferenceAnswerChoice | langgraph-rag/app/evaluation/evaluation_service.py:296-307 | the reference is the body of the first accepted answer when there is one, else of the first answer with the highest score |
| EvaluationService.ReferenceRequest | langgraph-rag/app/evaluation/evaluation_service.py:309-317 | the evaluation uses the question's title and id, the chosen reference, and no graph type, execution id or processing time |
| ComparisonService.GroupByGraphType | langgraph-rag/app/services/comparison_service.py:69-73 | the grouping loop ends with the Grouped specification of the evaluations |
| ComparisonService.InGroupSnoc | langgraph-rag/app/services/comparison_service.py:71-73 | one more evaluation joins the group of its graph type, the default applied, and no other |
| ComparisonService.GroupingPartitions | langgraph-rag/app/services/comparison_service.py:69-73 | every evaluation lands in exactly one group, that of its graph type or "adaptive_rag"; each group holds exactly the evaluations of its key in their order; there is a group for every key that occurs and no other; the group sizes add up to the number of evaluations |
| ComparisonService.GroupKeysOccur | langgraph-rag/app/services/comparison_service.py:69-73 | there is a group for exactly the keys that occur among the evaluations |
| ComparisonService.InGroupSound | langgraph-rag/app/services/comparison_service.py:71-73 | a group holds only evaluations of the input whose key is the group's |
| ComparisonService.InGroupComplete | langgraph-rag/app/services/comparison_service.py:71-73 | every evaluation is in the group of its own key |
| ComparisonService.AverageNone | langgraph-rag/app/services/comparison_service.py:357-369 | an average is None exactly when no value of its field is present |
| ComparisonService.AverageWithin | langgraph-rag/app/services/comparison_service.py:357-369 | an average lies within any bounds all present values respect: it is taken over the present values only |
| ComparisonService.Latest | langgraph-rag/app/services/comparison_service.py:370 | the latest evaluation is the first of those with the newest created_at, as Python's max picks it |
| ComparisonService.Summarize | langgraph-rag/app/services/comparison_service.py:357-371 | a group's summary counts its evaluations, names an evaluation of the group with the newest date as the latest, and averages each BERT score, the processing time and the confidence over their present values |
| ComparisonService.MetricsSummary | langgraph-rag/app/services/comparison_service.py:337-374 | there is a summary for exactly the non-empty groups, each that group's Summarize |
| ComparisonService.AcceptedAnswer | langgraph-rag/app/services/comparison_service.py:78-84 | the accepted answer is absent exactly when no answer is accepted, and otherwise it is the first accepted one |
| ComparisonService.ComparisonsByQuestion | langgraph-rag/app/services/comparison_service.py:32-91 | a missing question gives the not-found error; otherwise the question, its evaluations grouped by graph type, a metrics summary for exactly the keys that occur, each that key's group summarized, and the first accepted answer |
| ComparisonService.TagFiltersShape | langgraph-rag/app/services/comparison_service.py:204-205 | every tag filter is non-empty, without surrounding whitespace and lower case |
| ComparisonService.WithAllTagsSnoc | langgraph-rag/app/services/comparison_service.py:206-207 | one more tag filter narrows the rows by that filter |
| ComparisonService.ApplyTagFilters | langgraph-rag/app/services/comparison_service.py:204-207 | the rows left are those, in order, whose lower-cased tags contain every filter |
| ComparisonService.WithAllTagsNone | langgraph-rag/app/services/comparison_service.py:204-207 | no tag filter leaves every row |
| ComparisonService.Named | langgraph-rag/app/services/comparison_service.py:245 | the available graph types listed are present, non-empty types of the question |
| ComparisonService.TotalPages | langgraph-rag/app/services/comparison_service.py:252 | total_pages is 0 for a non-positive page size and otherwise the least number of pages of page_size that hold the total |
| ComparisonService.PageRows | langgraph-rag/app/services/comparison_service.py:231-233 | a page holds at most page_size rows |
| ComparisonService.SelectedSpec | langgraph-rag/app/services/comparison_service.py:199-215 | a question is listed exactly when it matches every tag filter, the graph-type count filter, the minimum score and the case-insensitive title search |
| ComparisonService.PageFullBeforeLast | langgraph-rag/app/services/comparison_service.py:231-252 | every page before the last is full |
| ComparisonService.EvaluatedQuestions | langgraph-rag/app/services/comparison_service.py:149-263 | the total counts the selected questions before paging; the items are those of the requested page, at most page_size; total_pages is ceil(total / page_size); has_next holds exactly when rows remain after the page and has_prev exactly when the page is not the first |

## Left out

- Language models, the retriever, the BERT scorer, the HTTP API of Stack Overflow,
  the database and Chroma are not computed. Their replies are oracle parameters indexed
  by step, batch or attempt. Prompt text, model loading and structured-output parsing
  are out of scope.
- An exception from a language-model call in `generate`, `transform_query`, the
  fallbacks or the answer grader aborts the run in the code. The model's calls always
  return. The graders' own caught errors (document grading, hallucination batches) are
  modelled. So are the exceptions the nodes raise themselves: the `TypeError` of a
  non-numeric stored temperature in `generate`, and the `range` error of a zero
  batch size in the two graders.
- AdaptiveGraph.Invoke: LangGraph's `recursion_limit` is modelled as at most that
  many node visits, one super-step per visit, with the entry from START not counted.
  LangGraph's exact bookkeeping for the START step is not part of this model, so the
  limit may be off by one against the library. `DefaultRunIsShort` leaves a margin of
  8 steps.
- RagGraph.Run and PureLlmGraph: the recursion limit is not applied. Their runs take
  two visits and one visit, far below any limit of at least 1 that admits them.
- Concurrency is not modelled. That covers `asyncio.gather` and the thread pool in
  core/graph/nodes/document_grader.py, background tasks and executors. Only the
  per-document isolation and the ordered collection of results are kept.
- Time: timestamps are natural numbers, and node durations are oracle values.
  `time.sleep`, the scraper's backoff delays and its quota log are left out. The API
  key, which is only forwarded in the request, is left out too.
- Progress callbacks are modelled as lists of reports in three places. In
  BatchQuery they are the announcement and result report of each run. In VectorStore
  they are the events of `EmbeddedEvents` and `RebuildCustomCollection`. In the
  embedding service they are the reported batches. Callbacks elsewhere are left out.
- Database sessions are left out, except for the `autoflush=False` count query
  behind the finding below (`CollectionManager.QueryCount`). Commit and query faults
  are boolean or oracle inputs. Tables are maps and sequences, SQL filters and joins are not modelled, and
  rows arrive in the order the query returns them, which is taken as an input.
- `delete_collection` relies on the ORM cascade to remove a collection's memberships
  and documents. The model deletes them together with the collection.
- CollectionManager: `get_collections`, `get_collection_statistics` and
  `get_collection_documents` are left out (database reads). For
  `get_collection_questions` and `get_non_collection_questions`, only the partition
  into members and non-members and the page arithmetic are modelled. Their score and
  tag filters, title search (SQL `LIKE` with its wildcards) and sort orders are left
  out.
- StackOverflowConnector: `get_questions_with_answers`, `get_question_by_id`,
  `search_questions`, `get_questions_with_collections` and the SQL filters of
  `get_questions_paginated` are left out. Only its page arithmetic and the
  `get_questions_by_ids`, `convert_to_documents` and `_get_best_answer` logic are
  modelled.
- StackOverflowLoader: `get_statistics`, `search_direct`, `get_question_by_id` and
  `close` are left out (database reads and resource release).
- CustomCollectionLoader: `get_collection_info` is left out (a database read).
- BaseLoader: `check_file_size` is left out (it reads the file system).
- Text splitting: `RecursiveCharacterTextSplitter` is left out. A splitter is an
  oracle, and only the chunk parameters and the bookkeeping around it are modelled.
- VectorStore: `get_document_stats`, `search_documents`, `get_loader_stats`,
  `search_stackoverflow_directly`, `get_stackoverflow_question`, `list_collections`
  and `cleanup_collections` are left out. They are pass-throughs to Chroma, the
  loaders and the database.
- VectorStore.Info: states only that information exists exactly when the collection
  is readable. The fields come from Chroma.
- EmbeddingService: `_delete_collection`, `_track_embedding_creation`,
  `_update_last_used`, `get_collection_info`, `list_collections` and
  `cleanup_unused_collections` are left out (Chroma and database bookkeeping). What a
  persisted collection holds is an input.
- The md5 `document_hash` of a collection document (services/collection_manager.py:536-537)
  is not stored in the model's document rows. The sha256 tracking hash
  (services/embedding_service.py:256-257) goes with `_track_embedding_creation`.
- BatchQuery: `_save_retrieved_documents` (a database write) and the synchronous
  wrapper `process_batch_sync` are left out.
- EvaluationService: `get_evaluations_by_session` and `get_evaluation_statistics` are
  left out (database reads and aggregates).
- ComparisonService: `get_comparison_metrics` and `get_evaluation_details` are left
  out (database reads).
- ComparisonService.EvaluatedQuestions: requires `page` at least 1 and `page_size`
  between 1 and 100. The service itself does not check these. The route that calls it
  admits only those values (api/routes/comparison_routes.py:155-156).
- ScraperStats: only the row counts and the top tags of `get_scraping_stats` are
  modelled. `recent_questions_7d` (a clock-relative query) and the SQL score averages
  are left out.
- Floating point: scores, confidences and temperatures are `real`, so rounding and NaN
  are not modelled. `math.ceil` of a float quotient is modelled as the exact integer
  ceiling. The `round(score, 3)` applied to `retrieval_score` is left out: the model
  stores the exact score.
- Answers: an answer whose score is missing (`None`) counts as score 0 when the
  reference answer is chosen.
- GraphService: a retrieved document object without `page_content` is not modelled.
  Every retrieved document has content and metadata.
- TextCleaning.Unescape: `html.unescape` is modelled only for `&quot;`, `&lt;`,
  `&gt;`, `&amp;`, `&apos;` and `&#39;`. Every other entity is kept as written.
- Text.Lower: folds only the ASCII letters `A`-`Z`. Python's `str.lower` also folds
  non-ASCII upper case (`É`, `Σ`, `Ж`), so the model's keyword and tag matching can
  miss a match that the code finds on such text.
- Text.IsSpace: covers the ASCII whitespace and separators, U+0085 and U+00A0.
  Python's `str.strip`, `str.isspace` and `str.split` treat every Unicode space as
  whitespace (U+2003, U+3000, U+2028 and the rest), so `Text.Strip` and
  `Text.IsBlank` keep characters the code removes.
- TextCleaning.Collapse: its `\s` is `Text.IsSpace`, while Python's `re` `\s` matches
  every Unicode space, so a run of newlines separated by U+2003 is collapsed by the
  code and left by the model.
- StackOverflowLoader.DocTags: a `tags` value that is neither a string nor a list (a
  number, a boolean, `None`) makes `filter_by_tags` raise `TypeError` in the code as
  soon as a tag is requested. The model reads it as no tags, so the document is
  filtered out instead of the call failing.
- ComparisonService.HasTag: SQLAlchemy's `contains` builds a `LIKE` pattern without
  escaping, so a `_` or `%` in a requested tag is a wildcard in the code. The model
  matches the tag as a literal substring.
- ComparisonService.OtherFilters: the title search is an `ilike` pattern, so `_` and
  `%` in it are wildcards in the code. The model matches it as a literal substring.
- BertEvaluation: the scorer's F1, precision and recall are oracle values. Only the
  shape rules, the blank-input guard and the score interpretation are modelled.
- Notes on the code's behaviour, which the model follows:
  - the answer grader receives `state["question"]`, the possibly rewritten question
    (core/graph/nodes/answer_grader.py), not `original_question`;
  - the accept-as-is branch (core/graph/adaptive_graph.py:124-126) and the second
    max-iterations branch (132-134) cannot be reached, because the limit check at
    line 104 already returned; the model keeps both branches as written, and the
    contract of `AdaptiveGraph.GradeGeneration` shows that they are never taken;
  - `StackOverflowConnector` (services/stackoverflow_connector.py) defines no
    `test_connection`, so in `health_check` (core/graph/tools/vector_store.py:290-303)
    the call raises `AttributeError` whenever a connector exists, and the Stack
    Overflow entry ends as false with that message; `LoaderHealth` still takes the
    probe's outcome as an input, so its `Ok` branch describes a connector that has the
    method, and `VectorStore.StackOverflowEntryAsWritten` states what happens as written;
  - services/stackoverflow_connector.py defines no `get_stackoverflow_connector` (only
    dependencies.py does), so the import at core/graph/tools/multi_source_retriever.py:14
    fails and the whole module fails to load; its `_get_stackoverflow_connector`
    (lines 26-36) also calls the missing `test_connection`. The model of
    `MultiSourceRetriever` takes the connector as given, so its working Stack Overflow
    path describes the code as evidently intended and is not reachable as written;
  - `retrieve_multi_source` fills a per-source count (`source_breakdown`) that it
    never returns or logs; `MultiSourceRetriever.RetrieveMultiSource` hands it back as
    `perSource` so that its contract can state it;
  - the `ValueError` of `get_graph` for an unknown graph type cannot be raised once
    graph types are the enum `GraphType`.

## Findings

| source | as written | input that shows it | evidently intended | confidence | as-written member | corrected member |
|---|---|---|---|---|---|---|
| langgraph-rag/app/core/graph/tools/vector_store.py:305-310 | `overall` is `any(...)` over the loader entries, and an error string is truthy, so a loader that failed counts as healthy | the embedding service up, the PDF directory missing, and the Stack Overflow connector created, whose `test_connection()` raises `AttributeError` because the connector class defines no such method: the report says healthy | healthy only when the embedding service is up and at least one loader actually works | not executed | VectorStore.OverallCountsErrors | VectorStore.OverallMeansALoaderWorks |
| langgraph-rag/app/services/collection_manager.py:182-193 | the new membership rows are only added to the session when `question_count` is set from a count query. The session is opened with `autoflush=False` (database.py:13), so the query does not see them. `add_documents_to_collection` (lines 532-551) does the same | an empty collection given one new question: `question_count` is stored as 0 while the collection holds 1 question | `question_count` is the number of rows after the insert | not executed | CollectionManager.StaleQuestionCount, CollectionManager.StaleQuestionCountExample | CollectionManager.Manager.AddQuestionsToCollection, CollectionManager.Manager.AddDocumentsToCollection |
