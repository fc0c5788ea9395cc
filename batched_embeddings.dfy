/**
 * `BatchedOllamaEmbeddings.embed_documents` (core/batched_embeddings.py):
 * texts are embedded in consecutive batches; a batch whose call raises is
 * retried in sub-batches of five, and a sub-batch (or a batch of five or
 * fewer) that raises is retried one text at a time, where a failure is
 * finally re-raised. The embedding model is a parameter: a function from
 * the texts of one call to its vectors or to the error it raises.
 */
module BatchedEmbeddings {
  import opened Wrappers
  import Batching

  type Vector = seq<real>

  /** The underlying `embed_documents` call of the embedding model. */
  type Embedder = seq<string> -> Result<seq<Vector>>

  /** The retry sub-batch size. */
  const SubBatchSize: nat := 5

  /**
   * What a run yields: the vectors (or the exception that escapes), and the
   * texts handed to the model, call by call, in order.
   */
  datatype Outcome = Outcome(result: Result<seq<Vector>>, requests: seq<seq<string>>)

  /** `all_embeddings.extend(...)` after `acc`, or the exception that ends the run. */
  function Then(acc: seq<Vector>, r: Result<seq<Vector>>): Result<seq<Vector>>
  {
    match r
    case Ok(v) => Ok(acc + v)
    case Err(e) => Err(e)
  }

  /** The rest of a run `o`, after vectors `acc` were gathered by the calls `reqs`. */
  function After(acc: seq<Vector>, reqs: seq<seq<string>>, o: Outcome): Outcome
  {
    Outcome(Then(acc, o.result), reqs + o.requests)
  }

  /**
   * A loop over `pieces` that hands each to `step`, extends the result with
   * its vectors, and stops at the first exception.
   */
  function Run(pieces: seq<seq<string>>, step: seq<string> -> Outcome): Outcome
  {
    if pieces == [] then Outcome(Ok([]), [])
    else
      var first := step(pieces[0]);
      if first.result.Err? then first
      else After(first.result.value, first.requests, Run(pieces[1..], step))
  }

  /** One call of the model. */
  function Call(embed: Embedder, texts: seq<string>): Outcome
  {
    Outcome(embed(texts), [texts])
  }

  function CallStep(embed: Embedder): seq<string> -> Outcome
  {
    (texts: seq<string>) => Call(embed, texts)
  }

  /** The last resort: one call per text, the first failure re-raised. */
  function Singles(embed: Embedder, texts: seq<string>): Outcome
  {
    Run(Batching.Chunks(texts, 1), CallStep(embed))
  }

  /** A sub-batch of five: one call, and on failure one call per text. */
  function SubBatch(embed: Embedder, sub: seq<string>): Outcome
  {
    var r := embed(sub);
    if r.Ok? then Outcome(r, [sub])
    else After([], [sub], Singles(embed, sub))
  }

  function SubStep(embed: Embedder): seq<string> -> Outcome
  {
    (sub: seq<string>) => SubBatch(embed, sub)
  }

  /**
   * One batch: one call, and on failure sub-batches of five when the batch
   * is larger than five, else one call per text.
   */
  function Batch(embed: Embedder, batch: seq<string>): Outcome
  {
    var r := embed(batch);
    if r.Ok? then Outcome(r, [batch])
    else if |batch| > SubBatchSize then After([], [batch], Run(Batching.Chunks(batch, SubBatchSize), SubStep(embed)))
    else After([], [batch], Singles(embed, batch))
  }

  function BatchStep(embed: Embedder): seq<string> -> Outcome
  {
    (batch: seq<string>) => Batch(embed, batch)
  }

  /**
   * `embed_documents`: nothing for no texts, one unguarded call when the
   * texts fit one batch, else the batch loop. A `batch_size` of zero makes
   * `range` raise; a negative one makes the loop empty.
   */
  function Embedded(embed: Embedder, texts: seq<string>, batchSize: int): Outcome
  {
    if |texts| == 0 then Outcome(Ok([]), [])
    else if |texts| <= batchSize then Call(embed, texts)
    else if batchSize == 0 then Outcome(Err("range() arg 3 must not be zero"), [])
    else if batchSize < 0 then Outcome(Ok([]), [])
    else Run(Batching.Chunks(texts, batchSize), BatchStep(embed))
  }

  // ------------------------------------------------------------ the loops

  lemma AfterAfter(a: seq<Vector>, r: seq<seq<string>>, b: seq<Vector>, s: seq<seq<string>>, o: Outcome)
    ensures After(a, r, After(b, s, o)) == After(a + b, r + s, o)
  {
    assert r + (s + o.requests) == (r + s) + o.requests;
    if o.result.Ok? {
      assert a + (b + o.result.value) == (a + b) + o.result.value;
    }
  }

  lemma AfterNothing(o: Outcome)
    ensures After([], [], o) == o
  {
    assert [] + o.requests == o.requests;
    if o.result.Ok? {
      assert [] + o.result.value == o.result.value;
    }
  }

  lemma AfterEnd(acc: seq<Vector>, reqs: seq<seq<string>>)
    ensures After(acc, reqs, Outcome(Ok([]), [])) == Outcome(Ok(acc), reqs)
  {
    assert acc + [] == acc;
    assert reqs + [] == reqs;
  }

  /** One step of a `Run` loop: the first piece, then the rest. */
  lemma RunUnfold(pieces: seq<seq<string>>, k: nat, step: seq<string> -> Outcome)
    requires k < |pieces|
    ensures var first := step(pieces[k]);
      Run(pieces[k..], step) == if first.result.Err? then first
                                else After(first.result.value, first.requests, Run(pieces[k + 1..], step))
  {
    assert pieces[k..][0] == pieces[k];
    assert pieces[k..][1..] == pieces[k + 1..];
  }

  /** The single-text loop. */
  method EmbedSingles(embed: Embedder, texts: seq<string>) returns (o: Outcome)
    ensures o == Singles(embed, texts)
  {
    ghost var pieces := Batching.Chunks(texts, 1);
    Batching.ChunksCount(texts, 1);
    var acc: seq<Vector> := [];
    var reqs: seq<seq<string>> := [];
    var k := 0;
    AfterNothing(Run(pieces, CallStep(embed)));
    while k < |texts|
      invariant 0 <= k <= |texts| == |pieces|
      invariant Run(pieces, CallStep(embed)) == After(acc, reqs, Run(pieces[k..], CallStep(embed)))
    {
      Batching.ChunkAt(texts, 1, k);
      assert pieces[k] == [texts[k]];
      RunUnfold(pieces, k, CallStep(embed));
      var r := embed([texts[k]]);
      if r.Err? {
        return Outcome(r, reqs + [[texts[k]]]);
      }
      AfterAfter(acc, reqs, r.value, [[texts[k]]], Run(pieces[k + 1..], CallStep(embed)));
      acc := acc + r.value;
      reqs := reqs + [[texts[k]]];
      k := k + 1;
    }
    assert pieces[k..] == [];
    AfterEnd(acc, reqs);
    return Outcome(Ok(acc), reqs);
  }

  /** A sub-batch: one call, else the single-text loop. */
  method EmbedSubBatch(embed: Embedder, sub: seq<string>) returns (o: Outcome)
    ensures o == SubBatch(embed, sub)
  {
    var r := embed(sub);
    if r.Ok? {
      return Outcome(r, [sub]);
    }
    var singles := EmbedSingles(embed, sub);
    return After([], [sub], singles);
  }

  /** The sub-batch loop over `range(0, len(batch), 5)`. */
  method EmbedSubBatches(embed: Embedder, batch: seq<string>) returns (o: Outcome)
    ensures o == Run(Batching.Chunks(batch, SubBatchSize), SubStep(embed))
  {
    ghost var pieces := Batching.Chunks(batch, SubBatchSize);
    Batching.ChunksCount(batch, SubBatchSize);
    var acc: seq<Vector> := [];
    var reqs: seq<seq<string>> := [];
    var start := 0;
    ghost var num := 0;
    AfterNothing(Run(pieces, SubStep(embed)));
    while start < |batch|
      invariant start == num * SubBatchSize
      invariant num <= |pieces|
      invariant Run(pieces, SubStep(embed)) == After(acc, reqs, Run(pieces[num..], SubStep(embed)))
      decreases |batch| - start
    {
      Batching.BatchStartBelow(|batch|, SubBatchSize, num);
      Batching.ChunkAt(batch, SubBatchSize, num);
      var sub := batch[start..Batching.Min(start + SubBatchSize, |batch|)];
      assert sub == pieces[num];
      RunUnfold(pieces, num, SubStep(embed));
      var s := EmbedSubBatch(embed, sub);
      if s.result.Err? {
        return After(acc, reqs, s);
      }
      AfterAfter(acc, reqs, s.result.value, s.requests, Run(pieces[num + 1..], SubStep(embed)));
      acc := acc + s.result.value;
      reqs := reqs + s.requests;
      Batching.MulPred(num + 1, SubBatchSize);
      start := start + SubBatchSize;
      num := num + 1;
    }
    Batching.BatchStartBelow(|batch|, SubBatchSize, num);
    assert pieces[num..] == [];
    AfterEnd(acc, reqs);
    return Outcome(Ok(acc), reqs);
  }

  /** A batch: one call, else the sub-batch loop or the single-text loop. */
  method EmbedBatch(embed: Embedder, batch: seq<string>) returns (o: Outcome)
    ensures o == Batch(embed, batch)
  {
    var r := embed(batch);
    if r.Ok? {
      return Outcome(r, [batch]);
    }
    var retried;
    if |batch| > SubBatchSize {
      retried := EmbedSubBatches(embed, batch);
    } else {
      retried := EmbedSingles(embed, batch);
    }
    return After([], [batch], retried);
  }

  /** `embed_documents`, with its loop over `range(0, total_docs, batch_size)`. */
  method EmbedDocuments(embed: Embedder, texts: seq<string>, batchSize: int) returns (o: Outcome)
    ensures o == Embedded(embed, texts, batchSize)
  {
    if |texts| == 0 {
      return Outcome(Ok([]), []);
    }
    if |texts| <= batchSize {
      return Call(embed, texts);
    }
    if batchSize == 0 {
      return Outcome(Err("range() arg 3 must not be zero"), []);
    }
    if batchSize < 0 {
      return Outcome(Ok([]), []);
    }
    o := EmbedBatches(embed, texts, batchSize);
  }

  /** The batch loop over `range(0, total_docs, batch_size)`. */
  method EmbedBatches(embed: Embedder, texts: seq<string>, batchSize: nat) returns (o: Outcome)
    requires batchSize > 0
    ensures o == Run(Batching.Chunks(texts, batchSize), BatchStep(embed))
  {
    ghost var pieces := Batching.Chunks(texts, batchSize);
    Batching.ChunksCount(texts, batchSize);
    var acc: seq<Vector> := [];
    var reqs: seq<seq<string>> := [];
    var start := 0;
    ghost var num := 0;
    AfterNothing(Run(pieces, BatchStep(embed)));
    while start < |texts|
      invariant start == num * batchSize
      invariant num <= |pieces|
      invariant Run(pieces, BatchStep(embed)) == After(acc, reqs, Run(pieces[num..], BatchStep(embed)))
      decreases |texts| - start
    {
      Batching.BatchStartBelow(|texts|, batchSize, num);
      Batching.ChunkAt(texts, batchSize, num);
      var batch := texts[start..Batching.Min(start + batchSize, |texts|)];
      assert batch == pieces[num];
      RunUnfold(pieces, num, BatchStep(embed));
      var b := EmbedBatch(embed, batch);
      if b.result.Err? {
        return After(acc, reqs, b);
      }
      AfterAfter(acc, reqs, b.result.value, b.requests, Run(pieces[num + 1..], BatchStep(embed)));
      acc := acc + b.result.value;
      reqs := reqs + b.requests;
      Batching.MulPred(num + 1, batchSize);
      start := start + batchSize;
      num := num + 1;
    }
    Batching.BatchStartBelow(|texts|, batchSize, num);
    assert pieces[num..] == [];
    AfterEnd(acc, reqs);
    return Outcome(Ok(acc), reqs);
  }

  // ----------------------------------------------------------- properties

  /** No texts make no call; texts that fit one batch make exactly one call, with no retry. */
  lemma SmallInputs(embed: Embedder, texts: seq<string>, batchSize: int)
    ensures |texts| == 0 ==> Embedded(embed, texts, batchSize) == Outcome(Ok([]), [])
    ensures 0 < |texts| <= batchSize ==>
              Embedded(embed, texts, batchSize).requests == [texts]
              && Embedded(embed, texts, batchSize).result == embed(texts)
  {
  }

  /** A loop whose every batch embeds at the first call sends exactly the batches. */
  lemma {:induction false} RunFirstTry(embed: Embedder, pieces: seq<seq<string>>)
    requires forall i :: 0 <= i < |pieces| ==> embed(pieces[i]).Ok?
    ensures Run(pieces, BatchStep(embed)).result.Ok?
    ensures Run(pieces, BatchStep(embed)).requests == pieces
  {
    if pieces != [] {
      RunFirstTry(embed, pieces[1..]);
      assert [pieces[0]] + pieces[1..] == pieces;
    }
  }

  /**
   * When every batch embeds at the first call, the calls are the consecutive
   * batches `texts[i:min(i + batch_size, n)]`, which together are the texts
   * in order.
   */
  lemma BatchesInOrder(embed: Embedder, texts: seq<string>, batchSize: nat)
    requires 0 < batchSize < |texts|
    requires forall i :: 0 <= i < |Batching.Chunks(texts, batchSize)| ==> embed(Batching.Chunks(texts, batchSize)[i]).Ok?
    ensures Embedded(embed, texts, batchSize).result.Ok?
    ensures Embedded(embed, texts, batchSize).requests == Batching.Chunks(texts, batchSize)
    ensures |Embedded(embed, texts, batchSize).requests| == Batching.NumBatches(|texts|, batchSize)
    ensures Batching.Flatten(Embedded(embed, texts, batchSize).requests) == texts
  {
    RunFirstTry(embed, Batching.Chunks(texts, batchSize));
    Batching.ChunksCount(texts, batchSize);
    Batching.ChunksCover(texts, batchSize);
  }

  /** One vector per text, in order. */
  function MapVec(vec: string -> Vector, texts: seq<string>): seq<Vector>
  {
    seq(|texts|, i requires 0 <= i < |texts| => vec(texts[i]))
  }

  /** The model answers every call it does not fail with the vectors of `vec`, one per text. */
  ghost predicate Faithful(embed: Embedder, vec: string -> Vector)
  {
    forall texts :: embed(texts).Ok? ==> embed(texts).value == MapVec(vec, texts)
  }

  lemma MapVecAppend(vec: string -> Vector, a: seq<string>, b: seq<string>)
    ensures MapVec(vec, a + b) == MapVec(vec, a) + MapVec(vec, b)
  {
  }

  lemma {:induction false} RunPointwise(pieces: seq<seq<string>>, step: seq<string> -> Outcome, vec: string -> Vector)
    requires forall i :: 0 <= i < |pieces| ==> step(pieces[i]).result == Ok(MapVec(vec, pieces[i]))
    ensures Run(pieces, step).result == Ok(MapVec(vec, Batching.Flatten(pieces)))
  {
    if pieces == [] {
      assert MapVec(vec, []) == [];
    } else {
      RunPointwise(pieces[1..], step, vec);
      MapVecAppend(vec, pieces[0], Batching.Flatten(pieces[1..]));
      assert [] + MapVec(vec, pieces[0]) == MapVec(vec, pieces[0]);
    }
  }

  lemma SinglesPointwise(embed: Embedder, vec: string -> Vector, texts: seq<string>)
    requires Faithful(embed, vec)
    requires forall t :: t in texts ==> embed([t]).Ok?
    ensures Singles(embed, texts).result == Ok(MapVec(vec, texts))
  {
    var pieces := Batching.Chunks(texts, 1);
    forall i | 0 <= i < |pieces|
      ensures CallStep(embed)(pieces[i]).result == Ok(MapVec(vec, pieces[i]))
    {
      Batching.ChunkAt(texts, 1, i);
      assert pieces[i] == [texts[i]];
    }
    RunPointwise(pieces, CallStep(embed), vec);
    Batching.ChunksCover(texts, 1);
  }

  lemma SubBatchPointwise(embed: Embedder, vec: string -> Vector, sub: seq<string>)
    requires Faithful(embed, vec)
    requires forall t :: t in sub ==> embed([t]).Ok?
    ensures SubBatch(embed, sub).result == Ok(MapVec(vec, sub))
  {
    if embed(sub).Err? {
      SinglesPointwise(embed, vec, sub);
      assert [] + MapVec(vec, sub) == MapVec(vec, sub);
    }
  }

  lemma BatchPointwise(embed: Embedder, vec: string -> Vector, batch: seq<string>)
    requires Faithful(embed, vec)
    requires forall t :: t in batch ==> embed([t]).Ok?
    ensures Batch(embed, batch).result == Ok(MapVec(vec, batch))
  {
    if embed(batch).Err? {
      if |batch| > SubBatchSize {
        var pieces := Batching.Chunks(batch, SubBatchSize);
        forall i | 0 <= i < |pieces|
          ensures SubStep(embed)(pieces[i]).result == Ok(MapVec(vec, pieces[i]))
        {
          Batching.ChunkWithin(batch, SubBatchSize, i);
          SubBatchPointwise(embed, vec, pieces[i]);
        }
        RunPointwise(pieces, SubStep(embed), vec);
        Batching.ChunksCover(batch, SubBatchSize);
      } else {
        SinglesPointwise(embed, vec, batch);
      }
      assert [] + MapVec(vec, batch) == MapVec(vec, batch);
    }
  }

  /**
   * The fallbacks recover every failed batch: when each text embeds on its
   * own, the result holds one vector per text, in the order of the texts.
   */
  lemma Recovers(embed: Embedder, vec: string -> Vector, texts: seq<string>, batchSize: nat)
    requires 0 < batchSize < |texts|
    requires Faithful(embed, vec)
    requires forall t :: t in texts ==> embed([t]).Ok?
    ensures Embedded(embed, texts, batchSize).result == Ok(MapVec(vec, texts))
    ensures |Embedded(embed, texts, batchSize).result.value| == |texts|
  {
    var pieces := Batching.Chunks(texts, batchSize);
    forall i | 0 <= i < |pieces|
      ensures BatchStep(embed)(pieces[i]).result == Ok(MapVec(vec, pieces[i]))
    {
      Batching.ChunkWithin(texts, batchSize, i);
      BatchPointwise(embed, vec, pieces[i]);
    }
    RunPointwise(pieces, BatchStep(embed), vec);
    Batching.ChunksCover(texts, batchSize);
  }

  /**
   * An escaping exception is the one raised by a call for a single text of
   * `texts`, and that call is the last one made.
   */
  predicate RaisedBySingle(o: Outcome, embed: Embedder, texts: seq<string>)
  {
    o.result.Err? ==>
      |o.requests| > 0
      && var last := o.requests[|o.requests| - 1];
         |last| == 1 && last[0] in texts && embed(last) == o.result
  }

  lemma AfterRaised(acc: seq<Vector>, reqs: seq<seq<string>>, o: Outcome, embed: Embedder, texts: seq<string>)
    requires RaisedBySingle(o, embed, texts)
    ensures RaisedBySingle(After(acc, reqs, o), embed, texts)
  {
  }

  lemma {:induction false} RunRaised(pieces: seq<seq<string>>, step: seq<string> -> Outcome, embed: Embedder, texts: seq<string>)
    requires forall i :: 0 <= i < |pieces| ==> RaisedBySingle(step(pieces[i]), embed, texts)
    ensures RaisedBySingle(Run(pieces, step), embed, texts)
  {
    if pieces != [] && step(pieces[0]).result.Ok? {
      RunRaised(pieces[1..], step, embed, texts);
      AfterRaised(step(pieces[0]).result.value, step(pieces[0]).requests, Run(pieces[1..], step), embed, texts);
    }
  }

  lemma SinglesRaised(embed: Embedder, sub: seq<string>, texts: seq<string>)
    requires forall t :: t in sub ==> t in texts
    ensures RaisedBySingle(Singles(embed, sub), embed, texts)
  {
    var pieces := Batching.Chunks(sub, 1);
    forall i | 0 <= i < |pieces|
      ensures RaisedBySingle(CallStep(embed)(pieces[i]), embed, texts)
    {
      Batching.ChunkAt(sub, 1, i);
      assert pieces[i] == [sub[i]];
    }
    RunRaised(pieces, CallStep(embed), embed, texts);
  }

  lemma BatchRaised(embed: Embedder, batch: seq<string>, texts: seq<string>)
    requires forall t :: t in batch ==> t in texts
    ensures RaisedBySingle(Batch(embed, batch), embed, texts)
  {
    if embed(batch).Err? {
      if |batch| > SubBatchSize {
        var pieces := Batching.Chunks(batch, SubBatchSize);
        forall i | 0 <= i < |pieces|
          ensures RaisedBySingle(SubStep(embed)(pieces[i]), embed, texts)
        {
          Batching.ChunkWithin(batch, SubBatchSize, i);
          if embed(pieces[i]).Err? {
            SinglesRaised(embed, pieces[i], texts);
            AfterRaised([], [pieces[i]], Singles(embed, pieces[i]), embed, texts);
          }
        }
        RunRaised(pieces, SubStep(embed), embed, texts);
        AfterRaised([], [batch], Run(pieces, SubStep(embed)), embed, texts);
      } else {
        SinglesRaised(embed, batch, texts);
        AfterRaised([], [batch], Singles(embed, batch), embed, texts);
      }
    }
  }

  /**
   * Once the texts span several batches, an exception escapes only when a
   * single text fails on its own: it is that call's exception, re-raised,
   * and no call follows it.
   */
  lemma OnlySingleFailuresRaise(embed: Embedder, texts: seq<string>, batchSize: nat)
    requires 0 < batchSize < |texts|
    ensures RaisedBySingle(Embedded(embed, texts, batchSize), embed, texts)
  {
    var pieces := Batching.Chunks(texts, batchSize);
    forall i | 0 <= i < |pieces|
      ensures RaisedBySingle(BatchStep(embed)(pieces[i]), embed, texts)
    {
      Batching.ChunkWithin(texts, batchSize, i);
      BatchRaised(embed, pieces[i], texts);
    }
    RunRaised(pieces, BatchStep(embed), embed, texts);
  }
}
