/**
 * The collection health service (services/collection_health_service.py):
 * whether the Chroma store of each configured collection holds documents,
 * and the startup pass that records the answer on every collection.
 *
 * `InfoProbe` stands for the embedding service's `get_collection_info`:
 * for a store name, the document count it reports (`None` when it reports
 * nothing), or the message of the exception it raised.
 */
module CollectionHealthService {
  import opened Wrappers
  import CollectionManager
  import VectorStore
  import GraphUtils

  type InfoProbe = string -> Result<Option<int>>

  /** The health of one collection; `error` is set when the probe raised. */
  datatype Health = Health(storeExists: bool, needsRebuild: bool, documentCount: int, error: Option<string>)

  /** The probe found the collection's store with at least one document. */
  predicate StorePresent(info: InfoProbe, id: int)
  {
    var probe := info(VectorStore.CustomCollectionName(id));
    probe.Ok? && probe.value.Some? && probe.value.value > 0
  }

  /**
   * `check_collection_health`: the store exists when the collection is
   * configured and its store reports documents; a rebuild is needed exactly
   * when it does not; a missing collection, an empty or absent store and a
   * failed probe all report 0 documents.
   */
  function CheckCollectionHealth(collections: map<int, CollectionManager.Collection>, id: int, info: InfoProbe): (h: Health)
    ensures h.storeExists <==> id in collections && StorePresent(info, id)
    ensures h.needsRebuild <==> !h.storeExists
    ensures h.documentCount == if h.storeExists then info(VectorStore.CustomCollectionName(id)).value.value else 0
    ensures h.error.Some? <==> id in collections && info(VectorStore.CustomCollectionName(id)).Err?
    ensures h.documentCount >= 0
  {
    if id !in collections then Health(false, true, 0, None)
    else
      match info(VectorStore.CustomCollectionName(id))
      case Err(e) => Health(false, true, 0, Some(e))
      case Ok(count) =>
        if count.Some? && count.value > 0 then Health(true, false, count.value, None)
        else Health(false, true, 0, None)
  }

  /** A store counts as present for the health check exactly when a retriever would reuse it. */
  lemma HealthAgreesWithRetriever(collections: map<int, CollectionManager.Collection>, id: int, info: InfoProbe,
                                  readable: bool, stored: seq<GraphUtils.Doc>)
    requires id in collections
    requires info(VectorStore.CustomCollectionName(id)) == (if readable then Ok(Some(|stored|)) else Ok(None))
    ensures CheckCollectionHealth(collections, id, info).storeExists <==>
              VectorStore.CollectionExists(VectorStore.Info(map[], VectorStore.CustomCollectionName(id), stored, readable))
  {
  }

  /** The summary of `check_all_collections`; `checkedAt` is the time the pass started. */
  datatype Summary = Summary(total: int, healthy: int, needsRebuild: int, checkedAt: int)

  /** A collection record after the pass has recorded its health at `now`. */
  function Checked(collections: map<int, CollectionManager.Collection>, id: int, info: InfoProbe, now: int): (c: CollectionManager.Collection)
    requires id in collections
    ensures c.name == collections[id].name
  {
    var h := CheckCollectionHealth(collections, id, info);
    collections[id].(chromaExists := h.storeExists, needsRebuild := h.needsRebuild, lastHealthCheck := Some(now))
  }

  /** The configured collections whose store is present. */
  function HealthyIds(collections: map<int, CollectionManager.Collection>, info: InfoProbe): (s: set<int>)
    ensures s <= collections.Keys
    ensures forall id :: id in s <==> id in collections && StorePresent(info, id)
  {
    set id | id in collections && StorePresent(info, id)
  }

  /** Taking one more element out of the pending set adds it to the counted part exactly when it belongs there. */
  lemma CountStep<T>(s: set<T>, rest: set<T>, x: T)
    requires x in rest
    ensures |s - (rest - {x})| == |s - rest| + (if x in s then 1 else 0)
  {
    if x in s {
      assert s - (rest - {x}) == (s - rest) + {x};
    } else {
      assert s - (rest - {x}) == s - rest;
    }
  }

  /** Every configured collection with its health recorded at `now`. */
  function CheckedAll(collections: map<int, CollectionManager.Collection>, info: InfoProbe, now: int): (r: map<int, CollectionManager.Collection>)
    ensures r.Keys == collections.Keys
  {
    map id | id in collections :: Checked(collections, id, info, now)
  }

  /** Recording health keeps every name, so the records stay valid. */
  lemma CheckedAllValid(collections: map<int, CollectionManager.Collection>, nextId: int, info: InfoProbe, now: int)
    requires CollectionManager.CollectionsValid(collections, nextId)
    ensures CollectionManager.CollectionsValid(CheckedAll(collections, info, now), nextId)
  {
    var r := CheckedAll(collections, info, now);
    forall i, j | i in r && j in r && r[i].name == r[j].name
      ensures i == j
    {
      assert r[i].name == collections[i].name && r[j].name == collections[j].name;
    }
  }

  /** A map that records every collection's health is the one `CheckedAll` describes. */
  lemma AllChecked(collections: map<int, CollectionManager.Collection>, checked: map<int, CollectionManager.Collection>,
                   info: InfoProbe, now: int)
    requires checked.Keys == collections.Keys
    requires forall id :: id in collections ==> checked[id] == Checked(collections, id, info, now)
    ensures checked == CheckedAll(collections, info, now)
  {
  }

  /** Recording one more collection's health keeps the rest of the map as it was. */
  lemma CheckOne(collections: map<int, CollectionManager.Collection>, checked: map<int, CollectionManager.Collection>,
                 rest: set<int>, id: int, info: InfoProbe, now: int)
    requires id in rest && rest <= collections.Keys && checked.Keys == collections.Keys
    requires forall j :: j in collections ==> checked[j] == if j in rest then collections[j] else Checked(collections, j, info, now)
    ensures var after := checked[id := Checked(collections, id, info, now)];
      && after.Keys == collections.Keys
      && forall j :: j in collections ==> after[j] == if j in rest - {id} then collections[j] else Checked(collections, j, info, now)
  {
  }

  /**
   * The loop of `check_all_collections`: each collection's health is
   * recorded, and counted as healthy or as needing a rebuild.
   */
  method CheckEach(collections: map<int, CollectionManager.Collection>, info: InfoProbe, now: int)
    returns (checked: map<int, CollectionManager.Collection>, healthy: int, needsRebuild: int)
    ensures checked == CheckedAll(collections, info, now)
    ensures healthy == |HealthyIds(collections, info)|
    ensures healthy + needsRebuild == |collections|
  {
    ghost var healthyIds := HealthyIds(collections, info);
    var all := collections.Keys;
    var rest := all;
    checked := collections;
    healthy, needsRebuild := 0, 0;
    while rest != {}
      invariant rest <= all && checked.Keys == all
      invariant healthy + needsRebuild + |rest| == |all|
      invariant healthy == |healthyIds - rest|
      invariant forall id :: id in all ==> checked[id] == if id in rest then collections[id] else Checked(collections, id, info, now)
      decreases |rest|
    {
      var id := CollectionManager.Pick(rest);
      var h := CheckCollectionHealth(collections, id, info);
      CheckOne(collections, checked, rest, id, info, now);
      checked := checked[id := collections[id].(chromaExists := h.storeExists, needsRebuild := h.needsRebuild, lastHealthCheck := Some(now))];
      CountStep(healthyIds, rest, id);
      if h.storeExists {
        healthy := healthy + 1;
      } else {
        needsRebuild := needsRebuild + 1;
      }
      rest := rest - {id};
    }
    assert healthyIds - rest == healthyIds;
    AllChecked(collections, checked, info, now);
  }

  /**
   * `check_all_collections`: every collection's `chroma_exists`,
   * `needs_rebuild` and `last_health_check` are set from its health in one
   * commit; the summary counts the healthy ones, and every other one needs
   * a rebuild.
   */
  method CheckAllCollections(db: CollectionManager.Db, info: InfoProbe, now: int) returns (summary: Summary)
    requires db.Valid()
    modifies db
    ensures db.Valid()
    ensures summary.total == |old(db.collections)| && summary.checkedAt == now
    ensures summary.healthy == |HealthyIds(old(db.collections), info)|
    ensures summary.healthy + summary.needsRebuild == summary.total
    ensures db.collections == CheckedAll(old(db.collections), info, now)
    ensures db.nextId == old(db.nextId) && db.soQuestions == old(db.soQuestions) && db.members == old(db.members)
    ensures db.documents == old(db.documents) && db.nextDocumentId == old(db.nextDocumentId)
  {
    var checked, healthy, needsRebuild := CheckEach(db.collections, info, now);
    CheckedAllValid(db.collections, db.nextId, info, now);
    db.collections := checked;
    summary := Summary(|checked|, healthy, needsRebuild, now);
  }
}
