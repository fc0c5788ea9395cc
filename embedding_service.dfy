/**
 * `EmbeddingService` (services/embedding_service.py): the cache of vector
 * stores by collection name, and the batched creation of a new store with
 * its progress reports. A vector store is modelled by the documents it holds;
 * the embedding model, Chroma and the database are left out, and the store's
 * `add_documents` (and `from_documents`) call is a parameter giving the
 * exception it raises for a batch, if any.
 */
module EmbeddingService {
  import opened Wrappers
  import opened GraphUtils
  import Batching
  import Config
  import Pagination
  import Seqs

  /** The exception `add_documents` raises for a batch, `None` when the batch is stored. */
  type Adder = seq<Doc> -> Option<string>

  /** One `progress_callback` report: the batch number and the documents processed so far. */
  datatype Report = Report(currentBatch: int, processed: int)

  /** `total_batches = max(1, (total_docs + batch_size - 1) // batch_size)`. */
  function TotalBatches(n: nat, batchSize: int): int
    requires batchSize != 0
  {
    Batching.Max(1, Pagination.FloorDiv(n + batchSize - 1, batchSize))
  }

  /** The first exception of the sub-batches, each added in turn. */
  function FirstFailure(subs: seq<seq<Doc>>, add: Adder): (e: Option<string>)
    ensures e.None? <==> forall i :: 0 <= i < |subs| ==> add(subs[i]).None?
    ensures e.Some? ==> exists i :: 0 <= i < |subs| && add(subs[i]) == e
  {
    if subs == [] then None
    else
      match add(subs[0])
      case Some(err) => Some(err)
      case None =>
        var e := FirstFailure(subs[1..], add);
        assert forall i :: 0 < i < |subs| ==> subs[1..][i - 1] == subs[i];
        e
  }

  /**
   * One batch after the first: stored at once, or, when that raises and the
   * batch is larger than the fallback size, in fallback-size sub-batches
   * where any failure raises; a smaller batch re-raises.
   */
  function Added(add: Adder, batch: seq<Doc>): Option<string>
  {
    match add(batch)
    case None => None
    case Some(e) =>
      if |batch| > Config.EmbeddingFallbackBatchSize then
        FirstFailure(Batching.Chunks(batch, Config.EmbeddingFallbackBatchSize), add)
      else Some(e)
  }

  /** The outcome of the loop over the remaining batches: the exception that ends it, and the reports made. */
  datatype Progress = Progress(error: Option<string>, reports: seq<Report>)

  /**
   * The loop over the batches after the first: batch `num + 1` onwards,
   * `done` documents stored before them; each stored batch reports its
   * number and the documents processed up to its end.
   */
  function Remaining(batches: seq<seq<Doc>>, num: int, done: int, add: Adder): Progress
  {
    if batches == [] then Progress(None, [])
    else
      var end := done + |batches[0]|;
      match Added(add, batches[0])
      case Some(e) => Progress(Some(e), [])
      case None =>
        var rest := Remaining(batches[1..], num + 1, end, add);
        Progress(rest.error, [Report(num + 1, end)] + rest.reports)
  }

  /**
   * The loop runs to the end exactly when every batch is stored (directly or
   * through its sub-batches), and then reports once per batch.
   */
  lemma {:induction false} RemainingSucceeds(batches: seq<seq<Doc>>, num: int, done: int, add: Adder)
    ensures Remaining(batches, num, done, add).error.None? <==> forall i :: 0 <= i < |batches| ==> Added(add, batches[i]).None?
    ensures Remaining(batches, num, done, add).error.None? ==> |Remaining(batches, num, done, add).reports| == |batches|
  {
    if batches != [] && Added(add, batches[0]).None? {
      RemainingSucceeds(batches[1..], num + 1, done + |batches[0]|, add);
      assert forall i :: 0 < i < |batches| ==> batches[1..][i - 1] == batches[i];
    }
  }

  /** What creating a store yields: the documents stored, or the exception raised, and the reports. */
  datatype Build = Build(result: Result<seq<Doc>>, reports: seq<Report>)

  /**
   * `_create_vector_store_batched`: the reports start at (0, 0); documents
   * that fit one batch are stored in one call, reported as (1, n); otherwise
   * the first `batch_size` documents are stored (with no fallback), reported
   * as (1, batch_size), and the loop stores the rest.
   */
  function Created(docs: seq<Doc>, batchSize: int, add: Adder): Build
  {
    if batchSize == 0 then Build(Err("integer division or modulo by zero"), [])
    else if |docs| <= batchSize then
      match add(docs)
      case Some(e) => Build(Err(e), [Report(0, 0)])
      case None => Build(Ok(docs), [Report(0, 0), Report(1, |docs|)])
    else
      match add(Seqs.SliceTo(docs, batchSize))
      case Some(e) => Build(Err(e), [Report(0, 0)])
      case None =>
        var rest := if batchSize > 0 then Remaining(Batching.Chunks(docs[batchSize..], batchSize), 1, batchSize, add)
                    else Progress(None, []);
        var stored := if batchSize > 0 then docs else Seqs.SliceTo(docs, batchSize);
        Build(if rest.error.Some? then Err(rest.error.value) else Ok(stored),
              [Report(0, 0), Report(1, batchSize)] + rest.reports)
  }

  /**
   * `get_or_create_vector_store`: the cached store unless a rebuild is
   * forced; a new store when a rebuild is forced or no stored collection
   * holds documents (which needs documents); else the stored collection.
   */
  function Resolved(cache: map<string, seq<Doc>>, name: string, documents: Option<seq<Doc>>, forceRebuild: bool,
                    batchSize: Option<int>, stored: seq<Doc>, add: Adder): Build
  {
    if name in cache && !forceRebuild then Build(Ok(cache[name]), [])
    else if forceRebuild || |stored| == 0 then
      if documents.None? then Build(Err("Documents required for new vector store creation"), [])
      else Created(documents.value, batchSize.GetOr(Config.EmbeddingBatchSize), add)
    else Build(Ok(stored), [])
  }

  // ------------------------------------------------------------ the loops

  /** The sub-batch retry of one failed batch. */
  method AddWithFallback(add: Adder, batch: seq<Doc>) returns (e: Option<string>)
    ensures e == Added(add, batch)
  {
    e := add(batch);
    if e.None? {
      return;
    }
    if |batch| <= Config.EmbeddingFallbackBatchSize {
      return;
    }
    var size := Config.EmbeddingFallbackBatchSize;
    ghost var subs := Batching.Chunks(batch, size);
    Batching.ChunksCount(batch, size);
    var j := 0;
    ghost var num := 0;
    while j < |batch|
      invariant j == num * size
      invariant num <= |subs|
      invariant FirstFailure(subs, add) == FirstFailure(subs[num..], add)
      decreases |batch| - j
    {
      Batching.BatchStartBelow(|batch|, size, num);
      Batching.ChunkAt(batch, size, num);
      var sub := batch[j..Batching.Min(j + size, |batch|)];
      assert sub == subs[num];
      assert subs[num..][1..] == subs[num + 1..];
      var failure := add(sub);
      if failure.Some? {
        return failure;
      }
      Batching.MulPred(num + 1, size);
      j := j + size;
      num := num + 1;
    }
    Batching.BatchStartBelow(|batch|, size, num);
    assert subs[num..] == [];
    return None;
  }

  /** The reports `reports` made before a loop that continues as `p`. */
  function Join(reports: seq<Report>, p: Progress): Progress
  {
    Progress(p.error, reports + p.reports)
  }

  lemma JoinJoin(a: seq<Report>, b: seq<Report>, p: Progress)
    ensures Join(a, Join(b, p)) == Join(a + b, p)
  {
    assert a + (b + p.reports) == (a + b) + p.reports;
  }

  /** One turn of the loop over the remaining batches. */
  lemma RemainingUnfold(batches: seq<seq<Doc>>, k: nat, num: int, done: int, add: Adder)
    requires k < |batches|
    ensures Added(add, batches[k]).Some? ==>
              Remaining(batches[k..], num, done, add) == Progress(Added(add, batches[k]), [])
    ensures Added(add, batches[k]).None? ==>
              Remaining(batches[k..], num, done, add) ==
                Join([Report(num + 1, done + |batches[k]|)], Remaining(batches[k + 1..], num + 1, done + |batches[k]|, add))
  {
    assert batches[k..][0] == batches[k];
    assert batches[k..][1..] == batches[k + 1..];
  }

  /** A stored batch adds its report, and the loop goes on from the next batch start. */
  lemma Advance(batches: seq<seq<Doc>>, k: nat, reports: seq<Report>, num: int, i: int, size: int, add: Adder, whole: Progress)
    requires k < |batches| && Added(add, batches[k]).None?
    requires k + 1 < |batches| ==> |batches[k]| == size
    requires whole == Join(reports, Remaining(batches[k..], num, i, add))
    ensures whole == Join(reports + [Report(num + 1, i + |batches[k]|)], Remaining(batches[k + 1..], num + 1, i + size, add))
  {
    RemainingUnfold(batches, k, num, i, add);
    var end := i + |batches[k]|;
    JoinJoin(reports, [Report(num + 1, end)], Remaining(batches[k + 1..], num + 1, end, add));
    if k + 1 == |batches| {
      assert batches[k + 1..] == [];
    }
  }

  /** The batch starting at `i`, the `num`-th after the first, is the `num`-th batch of the rest. */
  lemma BatchAt(docs: seq<Doc>, batchSize: nat, num: nat, i: int)
    requires 0 < batchSize < |docs| && i == batchSize + num * batchSize && i < |docs|
    ensures var batches := Batching.Chunks(docs[batchSize..], batchSize);
      && num < |batches|
      && docs[i..Batching.Min(i + batchSize, |docs|)] == batches[num]
      && (num + 1 < |batches| ==> |batches[num]| == batchSize)
      && i + batchSize == batchSize + (num + 1) * batchSize
  {
    var rest := docs[batchSize..];
    var batches := Batching.Chunks(rest, batchSize);
    Batching.ChunksCount(rest, batchSize);
    Batching.BatchStartBelow(|rest|, batchSize, num);
    Batching.ChunkAt(rest, batchSize, num);
    Batching.MulPred(num + 1, batchSize);
    Batching.BatchStartBelow(|rest|, batchSize, num + 1);
    var lo := num * batchSize;
    SliceOfSuffix(docs, batchSize, lo, Batching.Min(lo + batchSize, |rest|));
  }

  lemma SliceOfSuffix<T>(s: seq<T>, k: nat, lo: nat, hi: nat)
    requires k <= |s| && lo <= hi <= |s| - k
    ensures s[k..][lo..hi] == s[k + lo..k + hi]
  {
  }

  /** The loop `for i in range(batch_size, total_docs, batch_size)` over the batches after the first. */
  method AddRemaining(docs: seq<Doc>, batchSize: nat, add: Adder) returns (p: Progress)
    requires 0 < batchSize < |docs|
    ensures p == Remaining(Batching.Chunks(docs[batchSize..], batchSize), 1, batchSize, add)
  {
    ghost var rest := docs[batchSize..];
    ghost var batches := Batching.Chunks(rest, batchSize);
    Batching.ChunksCount(rest, batchSize);
    var reports: seq<Report> := [];
    var i := batchSize;
    var batchNum := 1;
    ghost var num := 0;
    ghost var whole := Remaining(batches, 1, batchSize, add);
    assert batches[0..] == batches;
    assert Join([], whole) == whole;
    while i < |docs|
      invariant i == batchSize + num * batchSize
      invariant batchNum == num + 1
      invariant num <= |batches|
      invariant whole == Join(reports, Remaining(batches[num..], batchNum, i, add))
      decreases |docs| - i
    {
      var batchEnd := Batching.Min(i + batchSize, |docs|);
      var batch := docs[i..batchEnd];
      BatchAt(docs, batchSize, num, i);
      var failure := AddWithFallback(add, batch);
      if failure.Some? {
        RemainingUnfold(batches, num, batchNum, i, add);
        return Progress(failure, reports);
      }
      assert batchEnd == i + |batches[num]|;
      Advance(batches, num, reports, batchNum, i, batchSize, add, whole);
      batchNum := batchNum + 1;
      reports := reports + [Report(batchNum, batchEnd)];
      Batching.MulPred(num + 1, batchSize);
      i := i + batchSize;
      num := num + 1;
    }
    Batching.BatchStartBelow(|rest|, batchSize, num);
    assert batches[num..] == [];
    assert reports + [] == reports;
    return Progress(None, reports);
  }

  /** `_create_vector_store_batched`. */
  method CreateVectorStoreBatched(docs: seq<Doc>, batchSize: int, add: Adder) returns (b: Build)
    ensures b == Created(docs, batchSize, add)
  {
    if batchSize == 0 {
      return Build(Err("integer division or modulo by zero"), []);
    }
    var reports := [Report(0, 0)];
    if |docs| <= batchSize {
      var failure := add(docs);
      if failure.Some? {
        return Build(Err(failure.value), reports);
      }
      return Build(Ok(docs), reports + [Report(1, |docs|)]);
    }
    var failure := add(Seqs.SliceTo(docs, batchSize));
    if failure.Some? {
      return Build(Err(failure.value), reports);
    }
    reports := reports + [Report(1, batchSize)];
    if batchSize < 0 {
      assert reports + [] == reports;
      return Build(Ok(Seqs.SliceTo(docs, batchSize)), reports);
    }
    var rest := AddRemaining(docs, batchSize, add);
    if rest.error.Some? {
      return Build(Err(rest.error.value), reports + rest.reports);
    }
    return Build(Ok(docs), reports + rest.reports);
  }

  // ----------------------------------------------------------- properties

  /** `total_batches` is the batch count of the loop: one, or the first batch and the rest. */
  lemma TotalBatchesCount(docs: seq<Doc>, batchSize: nat)
    requires batchSize > 0
    ensures |docs| <= batchSize ==> TotalBatches(|docs|, batchSize) == 1
    ensures batchSize < |docs| ==>
              TotalBatches(|docs|, batchSize) == Batching.NumBatches(|docs|, batchSize)
              == 1 + |Batching.Chunks(docs[batchSize..], batchSize)|
  {
    if |docs| == 0 {
      Batching.DivChar(batchSize - 1, batchSize, 0);
    } else if |docs| <= batchSize {
      Batching.NumBatchesOne(|docs|, batchSize);
    } else {
      Batching.NumBatchesStep(|docs|, batchSize);
      Batching.ChunksCount(docs[batchSize..], batchSize);
    }
  }

  /** A loop that runs to the end reports, for each batch, its number and the documents stored up to its end. */
  lemma {:induction false} RemainingReports(batches: seq<seq<Doc>>, num: int, done: int, add: Adder)
    requires Remaining(batches, num, done, add).error.None?
    ensures |Remaining(batches, num, done, add).reports| == |batches|
    ensures forall k :: 0 <= k < |batches| ==>
              Remaining(batches, num, done, add).reports[k] == Report(num + 1 + k, done + |Batching.Flatten(batches[..k + 1])|)
  {
    RemainingSucceeds(batches, num, done, add);
    if batches != [] {
      var end := done + |batches[0]|;
      RemainingReports(batches[1..], num + 1, end, add);
      forall k | 0 < k < |batches|
        ensures Batching.Flatten(batches[..k + 1]) == batches[0] + Batching.Flatten(batches[1..][..k])
      {
        assert batches[..k + 1][1..] == batches[1..][..k];
      }
      assert batches[..1] == [batches[0]];
      assert Batching.Flatten([batches[0]]) == batches[0] + Batching.Flatten([]);
    }
  }

  /**
   * A batched creation that succeeds stores every document and reports
   * batches 0, 1, ..., `total_batches`, each with `min(k * batch_size, n)`
   * documents processed, ending at (`total_batches`, n).
   */
  lemma ProgressComplete(docs: seq<Doc>, batchSize: nat, add: Adder)
    requires 0 < batchSize < |docs|
    requires Created(docs, batchSize, add).result.Ok?
    ensures Created(docs, batchSize, add).result == Ok(docs)
    ensures var reports := Created(docs, batchSize, add).reports;
      && |reports| == TotalBatches(|docs|, batchSize) + 1
      && (forall k :: 0 <= k < |reports| ==> reports[k] == Report(k, Batching.Min(k * batchSize, |docs|)))
      && reports[|reports| - 1] == Report(TotalBatches(|docs|, batchSize), |docs|)
  {
    var n := |docs|;
    var t := docs[batchSize..];
    var batches := Batching.Chunks(t, batchSize);
    var rest := Remaining(batches, 1, batchSize, add);
    var reports := Created(docs, batchSize, add).reports;
    assert reports == [Report(0, 0), Report(1, batchSize)] + rest.reports;
    RemainingReports(batches, 1, batchSize, add);
    TotalBatchesCount(docs, batchSize);
    forall k | 0 <= k < |reports|
      ensures reports[k] == Report(k, Batching.Min(k * batchSize, n))
    {
      if k >= 2 {
        Batching.ChunksPrefix(t, batchSize, k - 1);
        Batching.MulPred(k, batchSize);
      }
    }
    var total := TotalBatches(n, batchSize);
    Batching.BatchStartBelow(n, batchSize, total);
  }

  /** Every batch after the first is stored, directly or through its sub-batches. */
  predicate LaterBatchesStored(docs: seq<Doc>, batchSize: nat, add: Adder)
    requires 0 < batchSize < |docs|
  {
    var batches := Batching.Chunks(docs[batchSize..], batchSize);
    forall j :: 0 <= j < |batches| ==> Added(add, batches[j]).None?
  }

  /**
   * Beyond one batch, creation succeeds exactly when the first batch is
   * stored and every later batch is stored directly or through its
   * sub-batches.
   */
  lemma CreatedSucceeds(docs: seq<Doc>, batchSize: nat, add: Adder)
    requires 0 < batchSize < |docs|
    ensures Created(docs, batchSize, add).result.Ok? <==>
              add(docs[..batchSize]).None? && LaterBatchesStored(docs, batchSize, add)
  {
    assert Seqs.SliceTo(docs, batchSize) == docs[..batchSize];
    RemainingSucceeds(Batching.Chunks(docs[batchSize..], batchSize), 1, batchSize, add);
  }

  /**
   * A failed later batch is recovered exactly when it is larger than the
   * fallback size and each of its sub-batches is stored.
   */
  lemma FallbackRule(add: Adder, batch: seq<Doc>)
    requires add(batch).Some?
    ensures Added(add, batch).None? <==>
              |batch| > Config.EmbeddingFallbackBatchSize
              && forall j :: 0 <= j < |Batching.Chunks(batch, Config.EmbeddingFallbackBatchSize)| ==>
                   add(Batching.Chunks(batch, Config.EmbeddingFallbackBatchSize)[j]).None?
  {
  }

  /** Documents that fit one batch are stored in a single call, reported as (0, 0) and then (1, n). */
  lemma SingleBatch(docs: seq<Doc>, batchSize: int, add: Adder)
    requires 0 < batchSize && |docs| <= batchSize
    ensures add(docs).None? ==> Created(docs, batchSize, add) == Build(Ok(docs), [Report(0, 0), Report(1, |docs|)])
    ensures add(docs).Some? ==> Created(docs, batchSize, add) == Build(Err(add(docs).value), [Report(0, 0)])
  {
  }

  /** A new store cannot be made without documents. */
  lemma DocumentsRequired(cache: map<string, seq<Doc>>, name: string, forceRebuild: bool, batchSize: Option<int>,
                          stored: seq<Doc>, add: Adder)
    requires !(name in cache && !forceRebuild) && (forceRebuild || |stored| == 0)
    ensures Resolved(cache, name, None, forceRebuild, batchSize, stored, add).result.Err?
  {
  }

  /** Once a store is cached, asking again without a rebuild returns it, whatever else is passed. */
  lemma CachedStoreReused(cache: map<string, seq<Doc>>, name: string, documents: Option<seq<Doc>>, forceRebuild: bool,
                          batchSize: Option<int>, stored: seq<Doc>, add: Adder,
                          documents2: Option<seq<Doc>>, batchSize2: Option<int>, stored2: seq<Doc>, add2: Adder)
    requires Resolved(cache, name, documents, forceRebuild, batchSize, stored, add).result.Ok?
    ensures var r := Resolved(cache, name, documents, forceRebuild, batchSize, stored, add).result;
      Resolved(cache[name := r.value], name, documents2, false, batchSize2, stored2, add2) == Build(r, [])
  {
  }

  /** The service: the vector stores it has handed out, by collection name. */
  class Service {
    var stores: map<string, seq<Doc>>

    constructor()
      ensures stores == map[]
    {
      stores := map[];
    }

    /**
     * `get_or_create_vector_store`, given the documents of the collection
     * persisted under `name` (none when it is absent or cannot be read).
     * Every successful call caches the store it returns.
     */
    method GetOrCreateVectorStore(name: string, documents: Option<seq<Doc>>, forceRebuild: bool,
                                  batchSize: Option<int>, stored: seq<Doc>, add: Adder)
      returns (r: Result<seq<Doc>>, reports: seq<Report>)
      modifies this
      ensures Build(r, reports) == Resolved(old(stores), name, documents, forceRebuild, batchSize, stored, add)
      ensures stores == if r.Ok? then old(stores)[name := r.value] else old(stores)
    {
      if name in stores && !forceRebuild {
        return Ok(stores[name]), [];
      }
      if forceRebuild || |stored| == 0 {
        if documents.None? {
          return Err("Documents required for new vector store creation"), [];
        }
        var size := if batchSize.Some? then batchSize.value else Config.EmbeddingBatchSize;
        var b := CreateVectorStoreBatched(documents.value, size, add);
        r, reports := b.result, b.reports;
      } else {
        r, reports := Ok(stored), [];
      }
      if r.Ok? {
        stores := stores[name := r.value];
      }
    }
  }
}
