/**
 * The request and response schemas (api/schemas/schemas.py): the enums, the
 * field bounds a request must meet and the defaults of omitted fields.
 * Validation either yields the request record or names the field it refuses.
 * A parameter of type `Option<T>` is a field the caller may omit (`None`).
 */
module Schemas {
  import opened Wrappers

  datatype RetrieverType = PdfRetriever | StackOverflowRetriever
  {
    function Value(): string
    {
      match this
      case PdfRetriever => "pdf"
      case StackOverflowRetriever => "stackoverflow"
    }
  }

  datatype GraphType = AdaptiveRag | SimpleRag | PureLlm
  {
    function Value(): string
    {
      match this
      case AdaptiveRag => "adaptive_rag"
      case SimpleRag => "simple_rag"
      case PureLlm => "pure_llm"
    }
  }

  /** Distinct enum members have distinct values, so a value names its member. */
  lemma ValuesDistinct(g1: GraphType, g2: GraphType, r1: RetrieverType, r2: RetrieverType)
    ensures g1.Value() == g2.Value() <==> g1 == g2
    ensures r1.Value() == r2.Value() <==> r1 == r2
  {
  }

  /** `IterationMetrics`. */
  datatype IterationMetrics = IterationMetrics(
    generationAttempts: int,
    transformAttempts: int,
    totalIterations: int,
    maxIterationsReached: bool,
    noRelevantDocsFallback: bool,
    disclaimer: Option<string>)

  /** An `IterationMetrics` built with every field omitted. */
  function DefaultIterationMetrics(): (m: IterationMetrics)
    ensures m.generationAttempts == 0 && m.transformAttempts == 0 && m.totalIterations == 0
    ensures !m.maxIterationsReached && !m.noRelevantDocsFallback && m.disclaimer.None?
  {
    IterationMetrics(0, 0, 0, false, false, None)
  }

  /** `QueryRatingRequest`. */
  datatype QueryRatingRequest = QueryRatingRequest(sessionId: string, rating: int, comment: Option<string>)

  function ValidateRating(sessionId: string, rating: int, comment: Option<string>): (r: Result<QueryRatingRequest>)
    ensures r.Ok? <==> 1 <= rating <= 5
    ensures r.Ok? ==> r.value == QueryRatingRequest(sessionId, rating, comment)
  {
    if 1 <= rating <= 5 then Ok(QueryRatingRequest(sessionId, rating, comment))
    else Err("rating: must lie between 1 and 5")
  }

  /** `ScrapeRequest`. */
  datatype ScrapeRequest = ScrapeRequest(
    count: int,
    daysBack: int,
    tags: Option<seq<string>>,
    minScore: int,
    onlyAcceptedAnswers: bool,
    startPage: int)

  /**
   * `ScrapeRequest` validation. `tags` is doubly optional: omitted (`None`),
   * or given, possibly as `null` (`Some(None)`).
   */
  function ValidateScrape(count: Option<int>, daysBack: Option<int>, tags: Option<Option<seq<string>>>,
                          minScore: Option<int>, onlyAcceptedAnswers: Option<bool>, startPage: Option<int>)
    : (r: Result<ScrapeRequest>)
    ensures r.Ok? <==>
              && 1 <= count.GetOr(100) <= 1000
              && 1 <= daysBack.GetOr(365) <= 3650
              && 0 <= minScore.GetOr(1)
              && 1 <= startPage.GetOr(1)
    ensures r.Ok? ==> r.value.count == count.GetOr(100) && r.value.daysBack == daysBack.GetOr(365)
    ensures r.Ok? ==> r.value.tags == tags.GetOr(Some(["sql"]))
    ensures r.Ok? ==> r.value.minScore == minScore.GetOr(1) && r.value.startPage == startPage.GetOr(1)
    ensures r.Ok? ==> r.value.onlyAcceptedAnswers == onlyAcceptedAnswers.GetOr(true)
  {
    var c, d, m, p := count.GetOr(100), daysBack.GetOr(365), minScore.GetOr(1), startPage.GetOr(1);
    if !(1 <= c <= 1000) then Err("count: must lie between 1 and 1000")
    else if !(1 <= d <= 3650) then Err("days_back: must lie between 1 and 3650")
    else if m < 0 then Err("min_score: must be at least 0")
    else if p < 1 then Err("start_page: must be at least 1")
    else Ok(ScrapeRequest(c, d, tags.GetOr(Some(["sql"])), m, onlyAcceptedAnswers.GetOr(true), p))
  }

  /** The request with every field omitted is valid. */
  lemma DefaultScrapeValid()
    ensures ValidateScrape(None, None, None, None, None, None) == Ok(ScrapeRequest(100, 365, Some(["sql"]), 1, true, 1))
  {
  }

  /** `BatchQueryRequest`. */
  datatype BatchQueryRequest = BatchQueryRequest(
    questionIds: seq<int>,
    sessionId: string,
    collectionIds: Option<seq<int>>,
    graphTypes: Option<seq<GraphType>>,
    includeGraphTrace: bool)

  /** `BatchQueryRequest` validation: one to fifty question ids; omitted graph types are `[ADAPTIVE_RAG]`. */
  function ValidateBatchQuery(questionIds: seq<int>, sessionId: string, collectionIds: Option<seq<int>>,
                              graphTypes: Option<Option<seq<GraphType>>>, includeGraphTrace: Option<bool>)
    : (r: Result<BatchQueryRequest>)
    ensures r.Ok? <==> 1 <= |questionIds| <= 50
    ensures r.Ok? ==> r.value.questionIds == questionIds && r.value.collectionIds == collectionIds
    ensures r.Ok? ==> r.value.graphTypes == graphTypes.GetOr(Some([AdaptiveRag]))
    ensures r.Ok? ==> r.value.includeGraphTrace == includeGraphTrace.GetOr(true)
  {
    if |questionIds| < 1 then Err("question_ids: at least 1 item")
    else if |questionIds| > 50 then Err("question_ids: at most 50 items")
    else Ok(BatchQueryRequest(questionIds, sessionId, collectionIds, graphTypes.GetOr(Some([AdaptiveRag])), includeGraphTrace.GetOr(true)))
  }
}
