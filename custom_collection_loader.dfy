/**
 * The loader for user-defined collections of Stack Overflow questions
 * (core/graph/tools/document_loaders/custom_collection_loader.py): the
 * collection metadata written into every document and the guards that end
 * a load early. The collection manager and the database are parameters.
 */
module CustomCollectionLoader {
  import opened Wrappers
  import opened GraphUtils
  import StackOverflowConnector
  import BaseLoader

  /** The metadata of one document after `_process_collection_metadata`. */
  function Tagged(m: Metadata, collectionId: int, collectionName: string): Metadata
  {
    var m1 := m["collection_id" := Int(collectionId)]
                ["collection_name" := Str(collectionName)]
                ["source_type" := Str("custom_collection")];
    if "document_type" in m1 then m1 else m1["document_type" := Str("stackoverflow_qa")]
  }

  /**
   * The collection entries are overwritten, `document_type` is added only
   * when missing, and every other entry is kept.
   */
  lemma TaggedFacts(m: Metadata, collectionId: int, collectionName: string)
    ensures var t := Tagged(m, collectionId, collectionName);
      && t.Keys == m.Keys + {"collection_id", "collection_name", "source_type", "document_type"}
      && t["collection_id"] == Int(collectionId)
      && t["collection_name"] == Str(collectionName)
      && t["source_type"] == Str("custom_collection")
      && t["document_type"] == (if "document_type" in m then m["document_type"] else Str("stackoverflow_qa"))
      && forall k :: k in m && k !in {"collection_id", "collection_name", "source_type"} ==> t[k] == m[k]
  {
  }

  /** Tagging a second time with the same collection changes nothing. */
  lemma TaggedIdempotent(m: Metadata, collectionId: int, collectionName: string)
    ensures Tagged(Tagged(m, collectionId, collectionName), collectionId, collectionName) == Tagged(m, collectionId, collectionName)
  {
    var t := Tagged(m, collectionId, collectionName);
    TaggedFacts(m, collectionId, collectionName);
    TaggedFacts(t, collectionId, collectionName);
  }

  function TaggedDocs(docs: seq<Doc>, collectionId: int, collectionName: string): (r: seq<Doc>)
    ensures |r| == |docs|
  {
    seq(|docs|, i requires 0 <= i < |docs| => Doc(docs[i].content, Tagged(docs[i].metadata, collectionId, collectionName)))
  }

  /**
   * `_process_collection_metadata`: writes the collection into each
   * document's metadata, keeping the number, order and content of the
   * documents.
   */
  method ProcessCollectionMetadata(docs: seq<Doc>, collectionId: int, collectionName: string) returns (processed: seq<Doc>)
    ensures processed == TaggedDocs(docs, collectionId, collectionName)
    ensures |processed| == |docs| && forall i :: 0 <= i < |docs| ==> processed[i].content == docs[i].content
  {
    processed := [];
    var i := 0;
    while i < |docs|
      invariant 0 <= i <= |docs|
      invariant |processed| == i
      invariant forall j :: 0 <= j < i ==> processed[j] == Doc(docs[j].content, Tagged(docs[j].metadata, collectionId, collectionName))
    {
      var m := docs[i].metadata;
      m := m["collection_id" := Int(collectionId)];
      m := m["collection_name" := Str(collectionName)];
      m := m["source_type" := Str("custom_collection")];
      if "document_type" !in m {
        m := m["document_type" := Str("stackoverflow_qa")];
      }
      processed := processed + [Doc(docs[i].content, m)];
      i := i + 1;
    }
  }

  /**
   * What a load returns: nothing when the collection is missing or the
   * manager fails, when it has no questions, when none of them is found, or
   * when anything raises; otherwise the questions converted in combine
   * mode, tagged, validated and split.
   */
  function Loaded(collectionId: int, collection: Result<Option<string>>, questionIds: Result<seq<int>>,
                  query: seq<int> -> Result<seq<StackOverflowConnector.QuestionRow>>,
                  chunkSize: int, chunkOverlap: int,
                  splitter: (seq<Doc>, int, int) -> seq<Doc>, charSplit: Doc -> seq<Doc>): seq<Doc>
  {
    if collection.Err? || collection.value.None? || questionIds.Err? || questionIds.value == [] then []
    else
      var pairs := StackOverflowConnector.GetQuestionsByIds(questionIds.value, query);
      if pairs == [] then []
      else
        var docs := StackOverflowConnector.Documents(pairs, true, true);
        var tagged := TaggedDocs(docs, collectionId, collection.value.value);
        BaseLoader.Split(BaseLoader.Validated(tagged), chunkSize, chunkOverlap, splitter, charSplit)
  }

  /** The early returns of `load_documents`: each guard yields no documents. */
  lemma EarlyReturns(collectionId: int, collection: Result<Option<string>>, questionIds: Result<seq<int>>,
                     query: seq<int> -> Result<seq<StackOverflowConnector.QuestionRow>>,
                     chunkSize: int, chunkOverlap: int,
                     splitter: (seq<Doc>, int, int) -> seq<Doc>, charSplit: Doc -> seq<Doc>)
    requires || collection.Err? || collection == Ok(None) || questionIds.Err? || questionIds == Ok([])
             || (collection.Ok? && questionIds.Ok? && query(questionIds.value).Err?)
             || (collection.Ok? && questionIds.Ok? && query(questionIds.value) == Ok([]))
    ensures Loaded(collectionId, collection, questionIds, query, chunkSize, chunkOverlap, splitter, charSplit) == []
  {
  }

  /** `load_documents`. */
  method LoadDocuments(collectionId: int, collection: Result<Option<string>>, questionIds: Result<seq<int>>,
                       query: seq<int> -> Result<seq<StackOverflowConnector.QuestionRow>>,
                       chunkSize: int, chunkOverlap: int,
                       splitter: (seq<Doc>, int, int) -> seq<Doc>, charSplit: Doc -> seq<Doc>)
    returns (docs: seq<Doc>)
    ensures docs == Loaded(collectionId, collection, questionIds, query, chunkSize, chunkOverlap, splitter, charSplit)
  {
    if collection.Err? || collection.value.None? {
      return [];
    }
    if questionIds.Err? || questionIds.value == [] {
      return [];
    }
    var pairs := StackOverflowConnector.GetQuestionsByIds(questionIds.value, query);
    if pairs == [] {
      return [];
    }
    var converted := StackOverflowConnector.ConvertToDocuments(pairs, true, true);
    var tagged := ProcessCollectionMetadata(converted, collectionId, collection.value.value);
    var validated := BaseLoader.ValidateDocuments(tagged);
    var resplit;
    docs, resplit := BaseLoader.SplitDocuments(validated, chunkSize, chunkOverlap, splitter, charSplit);
  }
}
