/**
 * The Stack Overflow document loader (core/graph/tools/document_loaders/
 * stackoverflow_loader.py): the load filters, the metadata enrichment with
 * a community-validation flag and a quality score, and the tag and score
 * filters. The database behind the connector is a parameter.
 */
module StackOverflowLoader {
  import opened Wrappers
  import opened GraphUtils
  import opened Fields
  import Text
  import Seqs
  import StackOverflowConnector
  import BaseLoader

  // ------------------------------------------------------------ filters

  /** The loader's built-in load filters. */
  const DefaultFilters: Metadata := map[
    "limit" := Int(200),
    "min_score" := Int(1),
    "tags" := StrList(["sql", "mysql", "postgresql", "database"]),
    "only_accepted_answers" := Bool(false)]

  /**
   * The filters a load uses: the built-in ones, overridden by those of the
   * settings, overridden by the caller's.
   */
  function LoadFilters(settingsFilters: Metadata, filters: Option<Metadata>): (r: Metadata)
    ensures forall k :: k in r <==> k in DefaultFilters || k in settingsFilters || (filters.Some? && k in filters.value)
    ensures forall k :: filters.Some? && k in filters.value ==> r[k] == filters.value[k]
    ensures forall k :: k in settingsFilters && !(filters.Some? && k in filters.value) ==> r[k] == settingsFilters[k]
    ensures forall k :: k in DefaultFilters && k !in settingsFilters && !(filters.Some? && k in filters.value) ==>
              r[k] == DefaultFilters[k]
  {
    DefaultFilters + settingsFilters + filters.GetOr(map[])
  }

  // ---------------------------------------------------------- enrichment

  /** `_is_community_validated`: an accepted answer, or a positive question and answer score. */
  predicate IsCommunityValidated(m: Metadata)
  {
    BoolField(m, "is_accepted_answer") || (IntField(m, "question_score", 0) > 0 && IntField(m, "answer_score", 0) > 0)
  }

  function Min(a: real, b: real): real
  {
    if a <= b then a else b
  }

  /**
   * `_calculate_quality_score`: 0.3, plus up to 0.3 for the question score,
   * up to 0.2 for the answer score, 0.2 for an accepted answer and up to 0.1
   * for more than 100 views, capped at 1.0.
   */
  function QualityScore(m: Metadata): (s: real)
    ensures s <= 1.0
  {
    var score := 0.3;
    var score := score + Min(IntField(m, "question_score", 0) as real * 0.05, 0.3);
    var score := score + Min(IntField(m, "answer_score", 0) as real * 0.05, 0.2);
    var score := if BoolField(m, "is_accepted_answer") then score + 0.2 else score;
    var views := IntField(m, "view_count", 0);
    var score := if views > 100 then score + Min(views as real / 10000.0, 0.1) else score;
    Min(score, 1.0)
  }

  /** The score before the cap never exceeds 1.1, and with no negative scores it is at least 0.3. */
  lemma QualityScoreRange(m: Metadata)
    requires IntField(m, "question_score", 0) >= 0 && IntField(m, "answer_score", 0) >= 0
    ensures 0.3 <= QualityScore(m) <= 1.0
  {
  }

  /** The cap matters: a well-received, accepted, much-viewed pair scores exactly 1.0. */
  lemma QualityScoreCapped()
    ensures QualityScore(map["question_score" := Int(10), "answer_score" := Int(10),
                             "is_accepted_answer" := Bool(true), "view_count" := Int(5000)]) == 1.0
  {
    var m := map["question_score" := Int(10), "answer_score" := Int(10),
                 "is_accepted_answer" := Bool(true), "view_count" := Int(5000)];
    assert IntField(m, "question_score", 0) == 10 && IntField(m, "answer_score", 0) == 10;
    assert BoolField(m, "is_accepted_answer") && IntField(m, "view_count", 0) == 5000;
  }

  /** Raising a score, accepting the answer or adding views never lowers the quality score. */
  lemma QualityScoreMonotone(m: Metadata, m': Metadata)
    requires IntField(m, "question_score", 0) <= IntField(m', "question_score", 0)
    requires IntField(m, "answer_score", 0) <= IntField(m', "answer_score", 0)
    requires BoolField(m, "is_accepted_answer") ==> BoolField(m', "is_accepted_answer")
    requires IntField(m, "view_count", 0) <= IntField(m', "view_count", 0)
    ensures QualityScore(m) <= QualityScore(m')
  {
  }

  /** A combined question/answer document is validated by its best answer's acceptance or by both scores. */
  lemma PairValidation(q: StackOverflowConnector.QaPair, a: StackOverflowConnector.StoredAnswer)
    ensures IsCommunityValidated(StackOverflowConnector.PairMetadata(q, a)) <==> a.isAccepted || (q.score > 0 && a.score > 0)
  {
    var m := StackOverflowConnector.PairMetadata(q, a);
    assert BoolField(m, "is_accepted_answer") == a.isAccepted;
    assert IntField(m, "question_score", 0) == q.score && IntField(m, "answer_score", 0) == a.score;
  }

  /** A question-only document carries no answer fields and is never validated. */
  lemma QuestionNeverValidated(q: StackOverflowConnector.QaPair)
    ensures !IsCommunityValidated(StackOverflowConnector.QuestionMetadata(q))
  {
    var m := StackOverflowConnector.QuestionMetadata(q);
    assert "is_accepted_answer" !in m && "answer_score" !in m;
  }

  /** The keys enrichment always writes. */
  const EnrichedKeys: set<string> := {"document_type", "source_type", "is_community_validated", "quality_score"}

  /** `_process_stackoverflow_metadata` for one document. */
  function Enriched(d: Doc): Doc
  {
    var m := d.metadata;
    var m1 := m["document_type" := Str("stackoverflow_qa")]
               ["source_type" := Str("community_knowledge")]
               ["is_community_validated" := Bool(IsCommunityValidated(m))]
               ["quality_score" := Num(QualityScore(m))];
    if "tags" in m1 && m1["tags"].StrList? then
      var tags := m1["tags"].items;
      Doc(d.content, m1["primary_tag" := if tags != [] then Str(tags[0]) else Null]["tag_count" := Int(|tags|)])
    else Doc(d.content, m1)
  }

  /**
   * Enrichment keeps the content and every other entry, writes the document
   * type, source type, validation flag and quality score computed from the
   * original metadata, and adds a primary tag only for a tag list.
   */
  lemma EnrichedFacts(d: Doc)
    ensures Enriched(d).content == d.content
    ensures EnrichedKeys <= Enriched(d).metadata.Keys
    ensures Enriched(d).metadata["document_type"] == Str("stackoverflow_qa")
    ensures Enriched(d).metadata["source_type"] == Str("community_knowledge")
    ensures Enriched(d).metadata["is_community_validated"] == Bool(IsCommunityValidated(d.metadata))
    ensures Enriched(d).metadata["quality_score"] == Num(QualityScore(d.metadata))
    ensures forall k :: k in d.metadata && k !in EnrichedKeys && k != "primary_tag" && k != "tag_count" ==>
              k in Enriched(d).metadata && Enriched(d).metadata[k] == d.metadata[k]
    ensures ("primary_tag" in Enriched(d).metadata && "primary_tag" !in d.metadata) ==>
              "tags" in d.metadata && d.metadata["tags"].StrList?
  {
  }

  /** Every document enriched, in order. */
  function EnrichAll(docs: seq<Doc>): (r: seq<Doc>)
    ensures |r| == |docs|
  {
    seq(|docs|, i requires 0 <= i < |docs| => Enriched(docs[i]))
  }

  /** Enrichment keeps the number and order of the documents. */
  method ProcessMetadata(docs: seq<Doc>) returns (processed: seq<Doc>)
    ensures processed == EnrichAll(docs)
  {
    processed := [];
    var i := 0;
    while i < |docs|
      invariant 0 <= i <= |docs|
      invariant |processed| == i
      invariant forall j :: 0 <= j < i ==> processed[j] == Enriched(docs[j])
    {
      processed := processed + [Enriched(docs[i])];
      i := i + 1;
    }
    assert forall j :: 0 <= j < |docs| ==> EnrichAll(docs)[j] == Enriched(docs[j]);
  }

  // ------------------------------------------------------- tag and score

  /** A document's tags: a comma-separated string is split and stripped, a list taken as it is. */
  function DocTags(m: Metadata): seq<string>
  {
    if "tags" !in m then []
    else match m["tags"]
      case Str(s) =>
        var parts := Text.Split(s, ',');
        seq(|parts|, i requires 0 <= i < |parts| => Text.Strip(parts[i]))
      case StrList(items) => items
      case _ => []
  }

  /** Some requested tag equals some document tag, ignoring case. */
  predicate SharesTag(d: Doc, tags: seq<string>)
  {
    var docTags := DocTags(d.metadata);
    exists i, j :: 0 <= i < |tags| && 0 <= j < |docTags| && Text.Lower(tags[i]) == Text.Lower(docTags[j])
  }

  function TagFilter(tags: seq<string>): Doc -> bool
  {
    (d: Doc) => SharesTag(d, tags)
  }

  /**
   * `filter_by_tags`: without tags, the documents unchanged; otherwise the
   * documents sharing a tag, in order.
   */
  method FilterByTags(docs: seq<Doc>, tags: seq<string>) returns (filtered: seq<Doc>)
    ensures tags == [] ==> filtered == docs
    ensures tags != [] ==> filtered == Seqs.Filter(docs, TagFilter(tags))
  {
    if tags == [] {
      return docs;
    }
    filtered := [];
    var i := 0;
    while i < |docs|
      invariant 0 <= i <= |docs|
      invariant filtered == Seqs.Filter(docs[..i], TagFilter(tags))
    {
      Seqs.FilterSnoc(docs[..i], docs[i], TagFilter(tags));
      assert docs[..i + 1] == docs[..i] + [docs[i]];
      if SharesTag(docs[i], tags) {
        filtered := filtered + [docs[i]];
      }
      i := i + 1;
    }
    assert docs[..i] == docs;
  }

  /** A document is kept by the tag filter exactly when it shares a requested tag. */
  lemma TagFilterKeeps(docs: seq<Doc>, tags: seq<string>)
    ensures forall d :: d in Seqs.Filter(docs, TagFilter(tags)) <==> d in docs && SharesTag(d, tags)
  {
    Seqs.FilterComplete(docs, TagFilter(tags));
  }

  /**
   * The tags the connector stores as one string are read back as they were,
   * provided there is at least one, none holds a comma and none has
   * surrounding whitespace.
   */
  lemma StoredTagsReadBack(m: Metadata, tags: seq<string>)
    requires tags != [] && tags != [""]
    requires forall i :: 0 <= i < |tags| ==> ',' !in tags[i] && Text.Strip(tags[i]) == tags[i]
    requires "tags" in m && m["tags"] == Str(StackOverflowConnector.TagsField(tags))
    ensures DocTags(m) == tags
  {
    StackOverflowConnector.TagsRoundTrip(tags);
    var parts := Text.Split(StackOverflowConnector.TagsField(tags), ',');
    assert parts == tags;
  }

  /** A converted question/answer document passes the tag filter exactly when its question shares a tag. */
  lemma PairSharesTag(q: StackOverflowConnector.QaPair, a: StackOverflowConnector.StoredAnswer, tags: seq<string>)
    requires q.tags != [] && q.tags != [""]
    requires forall i :: 0 <= i < |q.tags| ==> ',' !in q.tags[i] && Text.Strip(q.tags[i]) == q.tags[i]
    ensures SharesTag(Doc(StackOverflowConnector.PairContent(q, a), StackOverflowConnector.PairMetadata(q, a)), tags) <==>
              exists i, j :: 0 <= i < |tags| && 0 <= j < |q.tags| && Text.Lower(tags[i]) == Text.Lower(q.tags[j])
  {
    StoredTagsReadBack(StackOverflowConnector.PairMetadata(q, a), q.tags);
  }

  /** `filter_by_score`: the question or the answer reaches the minimum; missing scores count as 0. */
  predicate MeetsScore(d: Doc, minScore: int)
  {
    IntField(d.metadata, "question_score", 0) >= minScore || IntField(d.metadata, "answer_score", 0) >= minScore
  }

  function ScoreFilter(minScore: int): Doc -> bool
  {
    (d: Doc) => MeetsScore(d, minScore)
  }

  /** `filter_by_score`: the documents meeting the minimum, in order. */
  method FilterByScore(docs: seq<Doc>, minScore: int) returns (filtered: seq<Doc>)
    ensures filtered == Seqs.Filter(docs, ScoreFilter(minScore))
  {
    filtered := [];
    var i := 0;
    while i < |docs|
      invariant 0 <= i <= |docs|
      invariant filtered == Seqs.Filter(docs[..i], ScoreFilter(minScore))
    {
      Seqs.FilterSnoc(docs[..i], docs[i], ScoreFilter(minScore));
      assert docs[..i + 1] == docs[..i] + [docs[i]];
      if MeetsScore(docs[i], minScore) {
        filtered := filtered + [docs[i]];
      }
      i := i + 1;
    }
    assert docs[..i] == docs;
  }

  /** A document is kept by the score filter exactly when it meets the minimum; a minimum of 0 or less keeps unscored documents. */
  lemma ScoreFilterKeeps(docs: seq<Doc>, minScore: int)
    ensures forall d :: d in Seqs.Filter(docs, ScoreFilter(minScore)) <==> d in docs && MeetsScore(d, minScore)
    ensures minScore <= 0 ==> forall d :: d in docs && "question_score" !in d.metadata ==> MeetsScore(d, minScore)
  {
    Seqs.FilterComplete(docs, ScoreFilter(minScore));
  }

  // --------------------------------------------------------------- loading

  /** What a load returns, given the connector's availability and the query's outcome. */
  function Loaded(connectorAvailable: bool, pairs: Result<seq<StackOverflowConnector.QaPair>>,
                  chunkSize: int, chunkOverlap: int,
                  splitter: (seq<Doc>, int, int) -> seq<Doc>, charSplit: Doc -> seq<Doc>): seq<Doc>
  {
    if !connectorAvailable || pairs.Err? || pairs.value == [] then []
    else
      var docs := BaseLoader.Validated(EnrichAll(StackOverflowConnector.Documents(pairs.value, true, true)));
      BaseLoader.Split(docs, chunkSize, chunkOverlap, splitter, charSplit)
  }

  /**
   * Every loaded document before splitting is a combined question/answer
   * document or a question without answers, enriched and validated.
   */
  lemma LoadedBeforeSplit(pairs: seq<StackOverflowConnector.QaPair>)
    requires forall i :: 0 <= i < |pairs| ==> pairs[i].answers != []
    ensures |EnrichAll(StackOverflowConnector.Documents(pairs, true, true))| == |pairs|
  {
    StackOverflowConnector.CombinedCount(pairs);
  }

  /**
   * `load_documents`: nothing without a connector, when the query fails or
   * finds nothing; otherwise the question/answer pairs are converted in
   * combine mode, enriched, validated and split. `fetch` is the database
   * query for the filters, `splitter` and `charSplit` the text splitters.
   */
  method LoadDocuments(connectorAvailable: bool, settingsFilters: Metadata, filters: Option<Metadata>,
                       fetch: Metadata -> Result<seq<StackOverflowConnector.QaPair>>,
                       chunkSize: int, chunkOverlap: int,
                       splitter: (seq<Doc>, int, int) -> seq<Doc>, charSplit: Doc -> seq<Doc>)
    returns (docs: seq<Doc>)
    ensures docs == Loaded(connectorAvailable, fetch(LoadFilters(settingsFilters, filters)), chunkSize, chunkOverlap, splitter, charSplit)
  {
    if !connectorAvailable {
      return [];
    }
    var pairs := fetch(LoadFilters(settingsFilters, filters));
    if pairs.Err? || pairs.value == [] {
      return [];
    }
    var converted := StackOverflowConnector.ConvertToDocuments(pairs.value, true, true);
    var enriched := ProcessMetadata(converted);
    var validated := BaseLoader.ValidateDocuments(enriched);
    var resplit;
    docs, resplit := BaseLoader.SplitDocuments(validated, chunkSize, chunkOverlap, splitter, charSplit);
  }
}
