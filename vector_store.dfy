/**
 * The vector store service (core/graph/tools/vector_store.py): retrievers
 * over the "<type>_collection" stores of the two built-in sources and over
 * the "custom_collection_<id>" stores of configured collections, the
 * rebuilds of both, the count sync of a custom collection and the health
 * report.
 *
 * The embedding service's answers are those of `EmbeddingService`: a
 * collection is "present" with the documents of its cached store, or else
 * with `stored`, the documents Chroma holds under the name; `readable`
 * says whether `get_collection_info` could read them at all (it returns
 * `None` when it cannot). Loaders are functions from the source (or the
 * collection type) to the documents they load or the message they raise.
 */
module VectorStore {
  import opened Wrappers
  import opened GraphUtils
  import Text
  import Seqs
  import Schemas
  import EmbeddingService
  import CollectionManager
  import StackOverflowLoader

  // ------------------------------------------------------------ search config

  /** The search keyword arguments a caller may pass through. */
  const SupportedParams: set<string> := {"k", "filter", "fetch_k"}

  /**
   * `search_kwargs` of the retriever: `k` = 5 unless the caller gives `k`,
   * plus the caller's `filter` and `fetch_k`; every other key is dropped.
   */
  function SearchConfig(kwargs: Option<map<string, Value>>): (r: map<string, Value>)
    ensures "k" in r
    ensures r["k"] == if kwargs.Some? && "k" in kwargs.value then kwargs.value["k"] else Int(5)
    ensures forall key :: key in r <==> key == "k" || (kwargs.Some? && key in kwargs.value && key in SupportedParams)
    ensures forall key :: key in r && key != "k" ==> kwargs.Some? && r[key] == kwargs.value[key]
  {
    var base := map["k" := Int(5)];
    if kwargs.Some? && kwargs.value != map[] then
      base + (map key | key in kwargs.value && key in SupportedParams :: kwargs.value[key])
    else base
  }

  // ------------------------------------------------------------ names

  /** `_get_collection_name`. */
  function CollectionName(t: Schemas.RetrieverType): string
  {
    t.Value() + "_collection"
  }

  /** The store name of a custom collection. */
  function CustomCollectionName(id: int): string
  {
    "custom_collection_" + Text.IntToString(id)
  }

  /**
   * Distinct sources and distinct custom collections get distinct stores,
   * and no custom collection shares a store with a built-in source.
   */
  lemma NamesDistinct(t1: Schemas.RetrieverType, t2: Schemas.RetrieverType, a: int, b: int)
    ensures CollectionName(t1) == CollectionName(t2) <==> t1 == t2
    ensures CustomCollectionName(a) == CustomCollectionName(b) <==> a == b
    ensures CustomCollectionName(a) != CollectionName(t1)
  {
    var prefix := "custom_collection_";
    if CustomCollectionName(a) == CustomCollectionName(b) {
      assert Text.IntToString(a) == CustomCollectionName(a)[|prefix|..];
      assert Text.IntToString(b) == CustomCollectionName(b)[|prefix|..];
      Text.IntToStringInjective(a, b);
    }
    assert CustomCollectionName(a)[0] == 'c';
    assert CollectionName(t1)[0] != 'c';
  }

  // ------------------------------------------------------------ presence

  /** `get_collection_info`'s document count: of the cached store, else of the stored collection. */
  function Info(cache: map<string, seq<Doc>>, name: string, stored: seq<Doc>, readable: bool): (info: Option<int>)
    ensures info.Some? <==> readable
  {
    if !readable then None
    else if name in cache then Some(|cache[name]|)
    else Some(|stored|)
  }

  /** `_collection_exists`: the info is there and counts at least one document. */
  predicate CollectionExists(info: Option<int>)
  {
    info.Some? && info.value > 0
  }

  // ------------------------------------------------------------ retrievers

  type Loader = Schemas.RetrieverType -> Result<seq<Doc>>

  /** A retriever: the store it searches and its search parameters. */
  datatype Retriever = Retriever(store: seq<Doc>, searchKwargs: map<string, Value>)

  function AsRetriever(store: Result<seq<Doc>>, kwargs: Option<map<string, Value>>): Result<Retriever>
  {
    match store
    case Err(e) => Err(e)
    case Ok(s) => Ok(Retriever(s, SearchConfig(kwargs)))
  }

  /**
   * `get_retriever`: documents are loaded (and a loader error raised) only
   * when a rebuild is forced or the collection is absent or empty; the
   * store then comes from `get_or_create_vector_store` without a batch size.
   */
  function Retrieved(cache: map<string, seq<Doc>>, t: Schemas.RetrieverType, forceRebuild: bool,
                     kwargs: Option<map<string, Value>>, readable: bool, stored: seq<Doc>,
                     load: Loader, add: EmbeddingService.Adder): Result<Retriever>
  {
    var name := CollectionName(t);
    if forceRebuild || !CollectionExists(Info(cache, name, stored, readable)) then
      match load(t)
      case Err(e) => Err(e)
      case Ok(docs) => AsRetriever(EmbeddingService.Resolved(cache, name, Some(docs), forceRebuild, None, stored, add).result, kwargs)
    else
      AsRetriever(EmbeddingService.Resolved(cache, name, None, forceRebuild, None, stored, add).result, kwargs)
  }

  /** A new store built with the default batch size holds exactly the documents it was given. */
  lemma DefaultBatchStoresAll(docs: seq<Doc>, add: EmbeddingService.Adder)
    requires EmbeddingService.Created(docs, 50, add).result.Ok?
    ensures EmbeddingService.Created(docs, 50, add).result == Ok(docs)
  {
    if |docs| <= 50 {
      EmbeddingService.SingleBatch(docs, 50, add);
    } else {
      EmbeddingService.ProgressComplete(docs, 50, add);
    }
  }

  /** A present collection is reused without asking the loader, cached store first. */
  lemma ExistingStoreReused(cache: map<string, seq<Doc>>, t: Schemas.RetrieverType, kwargs: Option<map<string, Value>>,
                            readable: bool, stored: seq<Doc>, load: Loader, add: EmbeddingService.Adder)
    requires CollectionExists(Info(cache, CollectionName(t), stored, readable))
    ensures Retrieved(cache, t, false, kwargs, readable, stored, load, add) ==
              Ok(Retriever(if CollectionName(t) in cache then cache[CollectionName(t)] else stored, SearchConfig(kwargs)))
  {
  }

  /** When loading is needed, a loader error is what the caller gets. */
  lemma LoaderErrorRaised(cache: map<string, seq<Doc>>, t: Schemas.RetrieverType, forceRebuild: bool,
                          kwargs: Option<map<string, Value>>, readable: bool, stored: seq<Doc>,
                          load: Loader, add: EmbeddingService.Adder)
    requires forceRebuild || !CollectionExists(Info(cache, CollectionName(t), stored, readable))
    requires load(t).Err?
    ensures Retrieved(cache, t, forceRebuild, kwargs, readable, stored, load, add) == Err(load(t).error)
  {
  }

  /** A forced rebuild that succeeds searches exactly the documents the loader returned. */
  lemma RebuiltRetrieverHoldsLoaded(cache: map<string, seq<Doc>>, t: Schemas.RetrieverType,
                                    kwargs: Option<map<string, Value>>, readable: bool, stored: seq<Doc>,
                                    load: Loader, add: EmbeddingService.Adder)
    requires Retrieved(cache, t, true, kwargs, readable, stored, load, add).Ok?
    ensures load(t).Ok?
    ensures Retrieved(cache, t, true, kwargs, readable, stored, load, add) == Ok(Retriever(load(t).value, SearchConfig(kwargs)))
  {
    DefaultBatchStoresAll(load(t).value, add);
  }

  /** The result of a rebuild. `collectionId` is only reported for custom collections. */
  datatype RebuildStats = RebuildStats(collectionId: Option<int>, collectionName: string, documentCount: int,
                                       status: string, vectorStoreSize: int)

  /** `rebuild_collection`: always loads, then forces a new store. */
  function Rebuilt(cache: map<string, seq<Doc>>, t: Schemas.RetrieverType, stored: seq<Doc>,
                   load: Loader, add: EmbeddingService.Adder): Result<RebuildStats>
  {
    match load(t)
    case Err(e) => Err(e)
    case Ok(docs) =>
      match EmbeddingService.Resolved(cache, CollectionName(t), Some(docs), true, None, stored, add).result
      case Err(e) => Err(e)
      case Ok(store) => Ok(RebuildStats(None, CollectionName(t), |docs|, "rebuilt", |store|))
  }

  /** A successful rebuild stores every loaded document: the two counts it reports agree. */
  lemma RebuildCountsAgree(cache: map<string, seq<Doc>>, t: Schemas.RetrieverType, stored: seq<Doc>,
                           load: Loader, add: EmbeddingService.Adder)
    requires Rebuilt(cache, t, stored, load, add).Ok?
    ensures var s := Rebuilt(cache, t, stored, load, add).value;
      s.documentCount == s.vectorStoreSize && s.collectionName == CollectionName(t) && s.status == "rebuilt"
  {
    DefaultBatchStoresAll(load(t).value, add);
  }

  /** `VectorStoreService`: one embedding service, whose store cache outlives each call. */
  class VectorStoreService {
    const embedding: EmbeddingService.Service

    constructor()
      ensures fresh(embedding) && embedding.stores == map[]
    {
      embedding := new EmbeddingService.Service();
    }

    /** `get_retriever`; the store it returns is cached under the source's name. */
    method GetRetriever(t: Schemas.RetrieverType, forceRebuild: bool, kwargs: Option<map<string, Value>>,
                        readable: bool, stored: seq<Doc>, load: Loader, add: EmbeddingService.Adder)
      returns (r: Result<Retriever>)
      modifies embedding
      ensures r == Retrieved(old(embedding.stores), t, forceRebuild, kwargs, readable, stored, load, add)
      ensures embedding.stores == if r.Ok? then old(embedding.stores)[CollectionName(t) := r.value.store]
                                  else old(embedding.stores)
    {
      var name := CollectionName(t);
      var documents := None;
      var info := Info(embedding.stores, name, stored, readable);
      if forceRebuild || !CollectionExists(info) {
        var loaded := load(t);
        if loaded.Err? {
          return Err(loaded.error);
        }
        documents := Some(loaded.value);
      }
      var store, _ := embedding.GetOrCreateVectorStore(name, documents, forceRebuild, None, stored, add);
      r := AsRetriever(store, kwargs);
    }

    /** `rebuild_collection`. */
    method RebuildCollection(t: Schemas.RetrieverType, stored: seq<Doc>, load: Loader, add: EmbeddingService.Adder)
      returns (r: Result<RebuildStats>)
      modifies embedding
      ensures r == Rebuilt(old(embedding.stores), t, stored, load, add)
      ensures r.Ok? ==> embedding.stores == old(embedding.stores)[CollectionName(t) := load(t).value]
      ensures r.Err? ==> embedding.stores == old(embedding.stores)
    {
      var name := CollectionName(t);
      var loaded := load(t);
      if loaded.Err? {
        return Err(loaded.error);
      }
      var store, _ := embedding.GetOrCreateVectorStore(name, Some(loaded.value), true, None, stored, add);
      if store.Err? {
        return Err(store.error);
      }
      DefaultBatchStoresAll(loaded.value, add);
      r := Ok(RebuildStats(None, name, |loaded.value|, "rebuilt", |store.value|));
    }

    /**
     * `filter_stackoverflow_documents`: the tag filter when tags are given,
     * then the score filter when a minimum is given, each keeping order.
     */
    method FilterStackOverflowDocuments(docs: seq<Doc>, tags: seq<string>, minScore: Option<int>)
      returns (filtered: seq<Doc>)
      ensures var byTags := if tags != [] then Seqs.Filter(docs, StackOverflowLoader.TagFilter(tags)) else docs;
        filtered == if minScore.Some? then Seqs.Filter(byTags, StackOverflowLoader.ScoreFilter(minScore.value)) else byTags
      ensures forall d :: d in filtered <==>
                d in docs
                && (tags != [] ==> StackOverflowLoader.SharesTag(d, tags))
                && (minScore.Some? ==> StackOverflowLoader.MeetsScore(d, minScore.value))
    {
      filtered := docs;
      if tags != [] {
        filtered := StackOverflowLoader.FilterByTags(filtered, tags);
        StackOverflowLoader.TagFilterKeeps(docs, tags);
      }
      if minScore.Some? {
        var before := filtered;
        filtered := StackOverflowLoader.FilterByScore(filtered, minScore.value);
        StackOverflowLoader.ScoreFilterKeeps(before, minScore.value);
      }
    }
  }

  // ------------------------------------------------------------ custom collections

  /** Loaders of a custom collection, by its `collection_type`. */
  type CollectionLoader = string -> Result<seq<Doc>>

  predicate KnownType(collectionType: string)
  {
    collectionType == "stackoverflow" || collectionType == "pdf"
  }

  function UnknownType(collectionType: string): string
  {
    "Unknown collection type: " + collectionType
  }

  function NoDocuments(id: int, collectionType: string): string
  {
    "No documents loaded for collection " + Text.IntToString(id) + " (type: " + collectionType + ")"
  }

  /**
   * `get_custom_collection_retriever`, with a new embedding service (so an
   * empty store cache): the collection must exist; documents are loaded
   * only when a rebuild is forced or the store is absent or empty, by the
   * loader of the collection's type, and must not be empty.
   */
  function CustomRetrieved(collections: map<int, CollectionManager.Collection>, id: int, forceRebuild: bool,
                           kwargs: Option<map<string, Value>>, readable: bool, stored: seq<Doc>,
                           load: CollectionLoader, add: EmbeddingService.Adder): Result<Retriever>
  {
    if id !in collections then Err(CollectionManager.NotFound(id))
    else
      var c := collections[id];
      var name := CustomCollectionName(id);
      if forceRebuild || !CollectionExists(Info(map[], name, stored, readable)) then
        if !KnownType(c.collectionType) then Err(UnknownType(c.collectionType))
        else
          match load(c.collectionType)
          case Err(e) => Err(e)
          case Ok(docs) =>
            if |docs| == 0 then Err(NoDocuments(id, c.collectionType))
            else AsRetriever(EmbeddingService.Resolved(map[], name, Some(docs), forceRebuild, None, stored, add).result, kwargs)
      else
        AsRetriever(EmbeddingService.Resolved(map[], name, None, forceRebuild, None, stored, add).result, kwargs)
  }

  /** `get_custom_collection_retriever`. */
  method GetCustomCollectionRetriever(db: CollectionManager.Db, id: int, forceRebuild: bool,
                                      kwargs: Option<map<string, Value>>, readable: bool, stored: seq<Doc>,
                                      load: CollectionLoader, add: EmbeddingService.Adder)
    returns (r: Result<Retriever>)
    ensures r == CustomRetrieved(db.collections, id, forceRebuild, kwargs, readable, stored, load, add)
  {
    var collection := CollectionManager.GetCollection(db.collections, id);
    if collection.None? {
      return Err(CollectionManager.NotFound(id));
    }
    var c := collection.value;
    var embedding := new EmbeddingService.Service();
    var name := CustomCollectionName(id);
    var documents := None;
    if forceRebuild || !CollectionExists(Info(embedding.stores, name, stored, readable)) {
      if !KnownType(c.collectionType) {
        return Err(UnknownType(c.collectionType));
      }
      var loaded := load(c.collectionType);
      if loaded.Err? {
        return Err(loaded.error);
      }
      if |loaded.value| == 0 {
        return Err(NoDocuments(id, c.collectionType));
      }
      documents := Some(loaded.value);
    }
    var store, _ := embedding.GetOrCreateVectorStore(name, documents, forceRebuild, None, stored, add);
    r := AsRetriever(store, kwargs);
  }

  /** An unknown id is refused with a message that, lower-cased, ends in "not found". */
  lemma CustomNotFound(collections: map<int, CollectionManager.Collection>, id: int, forceRebuild: bool,
                       kwargs: Option<map<string, Value>>, readable: bool, stored: seq<Doc>,
                       load: CollectionLoader, add: EmbeddingService.Adder)
    requires id !in collections
    ensures var r := CustomRetrieved(collections, id, forceRebuild, kwargs, readable, stored, load, add);
      r.Err? && Text.EndsWith(Text.Lower(r.error), " not found")
  {
    var msg := CollectionManager.NotFound(id);
    assert Text.EndsWith(msg, " not found");
    assert Text.Lower(" not found") == " not found";
    Text.LowerKeepsSuffix(msg, " not found");
  }

  /**
   * The collection type decides only when documents must be loaded: an
   * unknown type is refused then, and a present store is reused without
   * any loader otherwise.
   */
  lemma CustomTypeOnlyWhenLoading(collections: map<int, CollectionManager.Collection>, id: int, forceRebuild: bool,
                                  kwargs: Option<map<string, Value>>, readable: bool, stored: seq<Doc>,
                                  load: CollectionLoader, add: EmbeddingService.Adder)
    requires id in collections
    ensures var r := CustomRetrieved(collections, id, forceRebuild, kwargs, readable, stored, load, add);
      var needed := forceRebuild || !(readable && |stored| > 0);
      && (needed && !KnownType(collections[id].collectionType) ==> r == Err(UnknownType(collections[id].collectionType)))
      && (!needed ==> r == Ok(Retriever(stored, SearchConfig(kwargs))))
  {
  }

  /** Loading no documents is an error. */
  lemma CustomEmptyLoadRefused(collections: map<int, CollectionManager.Collection>, id: int, forceRebuild: bool,
                               kwargs: Option<map<string, Value>>, readable: bool, stored: seq<Doc>,
                               load: CollectionLoader, add: EmbeddingService.Adder)
    requires id in collections && KnownType(collections[id].collectionType)
    requires forceRebuild || !(readable && |stored| > 0)
    requires load(collections[id].collectionType) == Ok([])
    ensures CustomRetrieved(collections, id, forceRebuild, kwargs, readable, stored, load, add) ==
              Err(NoDocuments(id, collections[id].collectionType))
  {
  }

  /**
   * When a new store is built (a forced rebuild, or nothing stored), a
   * successful call searches exactly the documents the collection's loader
   * returned, and there is at least one.
   */
  lemma CustomStoreHoldsLoaded(collections: map<int, CollectionManager.Collection>, id: int, forceRebuild: bool,
                               kwargs: Option<map<string, Value>>, readable: bool, stored: seq<Doc>,
                               load: CollectionLoader, add: EmbeddingService.Adder)
    requires forceRebuild || |stored| == 0
    requires CustomRetrieved(collections, id, forceRebuild, kwargs, readable, stored, load, add).Ok?
    ensures id in collections && KnownType(collections[id].collectionType)
    ensures var r := CustomRetrieved(collections, id, forceRebuild, kwargs, readable, stored, load, add);
      load(collections[id].collectionType) == Ok(r.value.store) && |r.value.store| > 0
  {
    DefaultBatchStoresAll(load(collections[id].collectionType).value, add);
  }

  // ------------------------------------------------------------ count sync

  /** The number of member rows a collection of its type actually has. */
  function ActualCount(c: CollectionManager.Collection, members: map<int, set<int>>,
                       documents: map<int, CollectionManager.DocumentRow>, id: int): nat
  {
    if c.collectionType == "stackoverflow" then |CollectionManager.Members(members, id)|
    else |CollectionManager.RowsOf(documents, id)|
  }

  /** The collections after `sync_collection_count(id)`. */
  function Synced(collections: map<int, CollectionManager.Collection>, members: map<int, set<int>>,
                  documents: map<int, CollectionManager.DocumentRow>, id: int): (r: map<int, CollectionManager.Collection>)
    ensures r.Keys == collections.Keys
    ensures forall j :: j in collections && j != id ==> r[j] == collections[j]
    ensures id in collections ==> r[id] == collections[id].(questionCount := ActualCount(collections[id], members, documents, id))
  {
    if id in collections then collections[id := collections[id].(questionCount := ActualCount(collections[id], members, documents, id))]
    else collections
  }

  /** Syncing twice is syncing once. */
  lemma SyncIdempotent(collections: map<int, CollectionManager.Collection>, members: map<int, set<int>>,
                       documents: map<int, CollectionManager.DocumentRow>, id: int)
    ensures Synced(Synced(collections, members, documents, id), members, documents, id) == Synced(collections, members, documents, id)
  {
  }

  /**
   * `sync_collection_count`: 0 for a missing collection; otherwise the
   * actual count, written to `question_count` only when it differs.
   */
  method SyncCollectionCount(db: CollectionManager.Db, id: int) returns (count: int)
    requires db.Valid()
    modifies db
    ensures db.Valid()
    ensures count == if id in old(db.collections)
                     then ActualCount(old(db.collections)[id], old(db.members), old(db.documents), id) else 0
    ensures db.collections == Synced(old(db.collections), old(db.members), old(db.documents), id)
    ensures id !in old(db.collections) || old(db.collections)[id].questionCount == count ==> unchanged(db)
    ensures db.nextId == old(db.nextId) && db.soQuestions == old(db.soQuestions) && db.members == old(db.members)
    ensures db.documents == old(db.documents) && db.nextDocumentId == old(db.nextDocumentId)
  {
    if id !in db.collections {
      return 0;
    }
    var c := db.collections[id];
    count := ActualCount(c, db.members, db.documents, id);
    if c.questionCount != count {
      CollectionManager.RecordUpdate(db.collections, db.nextId, id, c.(questionCount := count));
      db.collections := db.collections[id := c.(questionCount := count)];
    } else {
      assert db.collections[id := c.(questionCount := count)] == db.collections;
    }
  }

  // ------------------------------------------------------------ custom rebuild

  /** What a progress callback receives: the load, then the embedding progress. */
  datatype Event = DocumentsLoaded(total: int) | Embedded(report: EmbeddingService.Report)

  datatype Rebuild = Rebuild(result: Result<RebuildStats>, events: seq<Event>)

  function EmbeddedEvents(reports: seq<EmbeddingService.Report>): (r: seq<Event>)
    ensures |r| == |reports| && forall i :: 0 <= i < |r| ==> r[i] == Embedded(reports[i])
  {
    seq(|reports|, i requires 0 <= i < |reports| => Embedded(reports[i]))
  }

  /**
   * `rebuild_custom_collection`: the collection must exist and have a
   * known type; its documents are always loaded, reported, required to be
   * non-empty and stored in a new store.
   */
  function CustomRebuilt(collections: map<int, CollectionManager.Collection>, id: int,
                         load: CollectionLoader, add: EmbeddingService.Adder): Rebuild
  {
    if id !in collections then Rebuild(Err(CollectionManager.NotFound(id)), [])
    else
      var c := collections[id];
      if !KnownType(c.collectionType) then Rebuild(Err(UnknownType(c.collectionType)), [])
      else
        match load(c.collectionType)
        case Err(e) => Rebuild(Err(e), [])
        case Ok(docs) =>
          var loaded := [DocumentsLoaded(|docs|)];
          if |docs| == 0 then Rebuild(Err(NoDocuments(id, c.collectionType)), loaded)
          else
            var b := EmbeddingService.Resolved(map[], CustomCollectionName(id), Some(docs), true, None, [], add);
            var stats := match b.result
              case Err(e) => Err(e)
              case Ok(store) => Ok(RebuildStats(Some(id), c.name, |docs|, "rebuilt", |store|));
            Rebuild(stats, loaded + EmbeddedEvents(b.reports))
  }

  /**
   * The guards of a custom rebuild: an unknown id or type is refused before
   * anything is loaded, an empty load is refused after it is reported, and
   * a success stores every loaded document under the collection's name.
   */
  lemma CustomRebuildOutcomes(collections: map<int, CollectionManager.Collection>, id: int,
                              load: CollectionLoader, add: EmbeddingService.Adder)
    ensures var b := CustomRebuilt(collections, id, load, add);
      && (id !in collections ==> b.result == Err(CollectionManager.NotFound(id)) && b.events == [])
      && (id in collections && !KnownType(collections[id].collectionType) ==>
            b.result == Err(UnknownType(collections[id].collectionType)) && b.events == [])
      && (id in collections && KnownType(collections[id].collectionType) && load(collections[id].collectionType) == Ok([]) ==>
            b.result == Err(NoDocuments(id, collections[id].collectionType)) && b.events == [DocumentsLoaded(0)])
      && (b.result.Ok? ==>
            && id in collections && load(collections[id].collectionType).Ok?
            && b.result.value == RebuildStats(Some(id), collections[id].name, |load(collections[id].collectionType).value|,
                                              "rebuilt", |load(collections[id].collectionType).value|)
            && b.events[0] == DocumentsLoaded(|load(collections[id].collectionType).value|))
  {
    if CustomRebuilt(collections, id, load, add).result.Ok? {
      DefaultBatchStoresAll(load(collections[id].collectionType).value, add);
    }
  }

  /**
   * `rebuild_custom_collection`, on the tables of the collection manager: a
   * successful rebuild ends with `sync_collection_count`; a failed one
   * changes nothing.
   */
  method RebuildCustomCollection(db: CollectionManager.Db, id: int, load: CollectionLoader, add: EmbeddingService.Adder)
    returns (r: Result<RebuildStats>, events: seq<Event>)
    requires db.Valid()
    modifies db
    ensures db.Valid()
    ensures Rebuild(r, events) == CustomRebuilt(old(db.collections), id, load, add)
    ensures db.collections == if r.Ok? then Synced(old(db.collections), old(db.members), old(db.documents), id)
                              else old(db.collections)
    ensures db.nextId == old(db.nextId) && db.soQuestions == old(db.soQuestions) && db.members == old(db.members)
    ensures db.documents == old(db.documents) && db.nextDocumentId == old(db.nextDocumentId)
  {
    var collection := CollectionManager.GetCollection(db.collections, id);
    if collection.None? {
      return Err(CollectionManager.NotFound(id)), [];
    }
    var c := collection.value;
    if !KnownType(c.collectionType) {
      return Err(UnknownType(c.collectionType)), [];
    }
    var embedding := new EmbeddingService.Service();
    var loaded := load(c.collectionType);
    if loaded.Err? {
      return Err(loaded.error), [];
    }
    var docs := loaded.value;
    events := [DocumentsLoaded(|docs|)];
    if |docs| == 0 {
      return Err(NoDocuments(id, c.collectionType)), events;
    }
    var store, reports := embedding.GetOrCreateVectorStore(CustomCollectionName(id), Some(docs), true, None, [], add);
    events := events + EmbeddedEvents(reports);
    if store.Err? {
      return Err(store.error), events;
    }
    var _ := SyncCollectionCount(db, id);
    r := Ok(RebuildStats(Some(id), c.name, |docs|, "rebuilt", |store.value|));
  }

  // ------------------------------------------------------------ health

  /** Python truthiness of a health entry. */
  predicate Truthy(v: Value)
  {
    match v
    case Str(s) => s != []
    case Int(i) => i != 0
    case Num(x) => x != 0.0
    case Bool(b) => b
    case StrList(items) => items != []
    case Counts(counts) => counts != map[]
    case Null => false
  }

  /**
   * The `loaders` entries of `health_check`. `pdfPath` is whether the PDF
   * directory exists, `connector` whether the loader has a Stack Overflow
   * connector, `connection` the connector's `test_connection()`; an `Err`
   * is the message of the exception the probe raised.
   */
  function LoaderHealth(pdfPath: Result<bool>, connector: Result<bool>, connection: Result<bool>): (m: map<string, Value>)
    ensures "pdf" in m && "stackoverflow" in m
    ensures m.Keys <= {"pdf", "pdf_error", "stackoverflow", "stackoverflow_connection", "stackoverflow_error"}
    ensures m["pdf"] == Bool(pdfPath == Ok(true))
    ensures m["stackoverflow"] == Bool(connector == Ok(true) && connection.Ok?)
    ensures "stackoverflow_connection" in m <==> connector == Ok(true) && connection.Ok?
  {
    var pdf := match pdfPath
      case Ok(b) => map["pdf" := Bool(b)]
      case Err(e) => map["pdf" := Bool(false), "pdf_error" := Str(e)];
    var so := match connector
      case Err(e) => map["stackoverflow" := Bool(false), "stackoverflow_error" := Str(e)]
      case Ok(false) => map["stackoverflow" := Bool(false)]
      case Ok(true) =>
        match connection
        case Ok(c) => map["stackoverflow" := Bool(true), "stackoverflow_connection" := Bool(c)]
        case Err(e) => map["stackoverflow" := Bool(false), "stackoverflow_error" := Str(e)];
    pdf + so
  }

  /** `overall` as written: any truthy loader entry, error messages included. */
  predicate OverallAsWritten(embeddingUp: bool, loaders: map<string, Value>)
  {
    embeddingUp && exists key :: key in loaders && Truthy(loaders[key])
  }

  /**
   * `connector.test_connection()` as written: `StackOverflowConnector`
   * defines no such method, so the call raises `AttributeError` with this
   * message.
   */
  const NoTestConnection := "'StackOverflowConnector' object has no attribute 'test_connection'"

  /**
   * As written, the Stack Overflow entry is never true: once a connector
   * exists, the connection probe raises, so the entry is false with the
   * `AttributeError` message beside it and no connection entry.
   */
  lemma StackOverflowEntryAsWritten(pdfPath: Result<bool>, connector: Result<bool>)
    ensures var loaders := LoaderHealth(pdfPath, connector, Err(NoTestConnection));
      && loaders["stackoverflow"] == Bool(false)
      && "stackoverflow_connection" !in loaders
      && (connector == Ok(true) ==> "stackoverflow_error" in loaders && loaders["stackoverflow_error"] == Str(NoTestConnection))
  {
  }

  /**
   * With the PDF directory missing and the Stack Overflow connector created,
   * the probe raises `AttributeError`: no loader works, yet `overall` as
   * written is true because the error message is truthy.
   */
  lemma OverallCountsErrors()
    ensures var loaders := LoaderHealth(Ok(false), Ok(true), Err(NoTestConnection));
      && loaders["pdf"] == Bool(false) && loaders["stackoverflow"] == Bool(false)
      && OverallAsWritten(true, loaders)
  {
    var loaders := LoaderHealth(Ok(false), Ok(true), Err(NoTestConnection));
    assert "stackoverflow_error" in loaders && Truthy(loaders["stackoverflow_error"]);
  }

  /** A loader counts as up when its own entry is true and its connection test, if any, passed. */
  predicate LoaderUp(loaders: map<string, Value>, t: Schemas.RetrieverType)
  {
    && t.Value() in loaders && loaders[t.Value()] == Bool(true)
    && (t.Value() + "_connection" in loaders ==> loaders[t.Value() + "_connection"] == Bool(true))
  }

  /** `overall` as intended: the embedding service is up and so is some loader. */
  predicate Overall(embeddingUp: bool, loaders: map<string, Value>)
  {
    embeddingUp && exists t: Schemas.RetrieverType :: LoaderUp(loaders, t)
  }

  /**
   * The intended `overall` holds exactly when the embedding service is up
   * and either the PDF directory exists or the Stack Overflow connection
   * test passes; error messages never make it true.
   */
  lemma OverallMeansALoaderWorks(embeddingUp: bool, pdfPath: Result<bool>, connector: Result<bool>, connection: Result<bool>)
    ensures Overall(embeddingUp, LoaderHealth(pdfPath, connector, connection)) <==>
              embeddingUp && (pdfPath == Ok(true) || (connector == Ok(true) && connection == Ok(true)))
  {
    var loaders := LoaderHealth(pdfPath, connector, connection);
    var pdf := Schemas.PdfRetriever;
    var so := Schemas.StackOverflowRetriever;
    assert pdf.Value() + "_connection" == "pdf_connection";
    assert so.Value() + "_connection" == "stackoverflow_connection";
    assert "pdf_connection" !in loaders;
    if embeddingUp && pdfPath == Ok(true) {
      assert LoaderUp(loaders, pdf);
    }
    if embeddingUp && connector == Ok(true) && connection == Ok(true) {
      assert LoaderUp(loaders, so);
    }
    if Overall(embeddingUp, loaders) {
      var t :| LoaderUp(loaders, t);
      if t == pdf {
        assert pdfPath == Ok(true);
      } else {
        assert t == so;
      }
    }
  }

  /** The health report. `collections` is what `list_collections` returned, or the message it raised. */
  datatype Health = Health(embeddingService: bool, collectionsAvailable: Option<int>, embeddingError: Option<string>,
                           loaders: map<string, Value>, overall: bool)

  /** `health_check`, with the intended `overall`. */
  function HealthCheck(collections: Result<int>, pdfPath: Result<bool>, connector: Result<bool>, connection: Result<bool>): (h: Health)
    ensures h.embeddingService <==> collections.Ok?
    ensures h.overall <==> collections.Ok? && (pdfPath == Ok(true) || (connector == Ok(true) && connection == Ok(true)))
  {
    var loaders := LoaderHealth(pdfPath, connector, connection);
    OverallMeansALoaderWorks(collections.Ok?, pdfPath, connector, connection);
    match collections
    case Ok(n) => Health(true, Some(n), None, loaders, Overall(true, loaders))
    case Err(e) => Health(false, None, Some(e), loaders, Overall(false, loaders))
  }
}
