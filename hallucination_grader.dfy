/**
 * The hallucination check (core/graph/nodes/hallucination_grader.py): the
 * generation is checked against consecutive batches of documents, and the
 * first batch that confirms it ends the check.
 */
module HallucinationGrader {
  import opened Wrappers
  import opened GraphUtils
  import Text
  import Batching

  /**
   * One invocation of the grading model: the batch number, the formatted batch and
   * the generation. The model's answer is its `binary_score`, or `None` when
   * the call raises.
   */
  datatype Call = Call(batch: nat, documents: string, generation: string)

  /** Batch `j` confirms the generation: its verdict, lower-cased, is "yes". */
  predicate Confirms(verdict: Call -> Option<string>, batches: seq<seq<Doc>>, j: nat, generation: string)
    requires j < |batches|
  {
    var v := verdict(Call(j, FormatDocs(AsItems(batches[j])), generation));
    v.Some? && Text.Lower(v.value) == "yes"
  }

  /** The first batch from `j` on that confirms the generation, if any. */
  function FirstConfirming(verdict: Call -> Option<string>, batches: seq<seq<Doc>>, j: nat, generation: string): (r: Option<nat>)
    requires j <= |batches|
    ensures r.Some? ==> j <= r.value < |batches| && Confirms(verdict, batches, r.value, generation)
    ensures r.Some? ==> forall i :: j <= i < r.value ==> !Confirms(verdict, batches, i, generation)
    ensures r.None? ==> forall i :: j <= i < |batches| ==> !Confirms(verdict, batches, i, generation)
    decreases |batches| - j
  {
    if j == |batches| then None
    else if Confirms(verdict, batches, j, generation) then Some(j)
    else FirstConfirming(verdict, batches, j + 1, generation)
  }

  /**
   * `is_grounded`: some batch of `batch_size` documents confirms the
   * generation. With no documents the check returns before the batch loop; a
   * batch size of 0 makes `range` raise `ValueError`, and a negative one gives
   * no batches at all.
   */
  function Grounded(docs: seq<Doc>, generation: string, batchSize: int, verdict: Call -> Option<string>): (g: Result<bool>)
    ensures g.Err? <==> docs != [] && batchSize == 0
    ensures g.Err? ==> g.error == Batching.ZeroStep
    ensures g.Ok? ==> (g.value <==> batchSize > 0
                                    && exists j :: 0 <= j < |Batching.Chunks(docs, batchSize)|
                                         && Confirms(verdict, Batching.Chunks(docs, batchSize), j, generation))
    ensures docs == [] ==> g == Ok(false)
  {
    if docs == [] then Ok(false)
    else if batchSize == 0 then Err(Batching.ZeroStep)
    else if batchSize < 0 then Ok(false)
    else Ok(FirstConfirming(verdict, Batching.Chunks(docs, batchSize), 0, generation).Some?)
  }

  /** The number of grader calls: up to and including the first confirming batch, else every batch. */
  function Calls(docs: seq<Doc>, generation: string, batchSize: int, verdict: Call -> Option<string>): (n: nat)
    ensures batchSize > 0 ==> n <= Batching.NumBatches(|docs|, batchSize)
    ensures docs == [] || batchSize <= 0 ==> n == 0
  {
    if docs == [] || batchSize <= 0 then 0
    else
      Batching.ChunksCount(docs, batchSize);
      match FirstConfirming(verdict, Batching.Chunks(docs, batchSize), 0, generation)
      case Some(j) => j + 1
      case None => |Batching.Chunks(docs, batchSize)|
  }

  /**
   * `grade_hallucination`: a loop over the batch starts that returns as soon
   * as a batch confirms; a batch whose call raises is passed over.
   */
  method GradeHallucination(docs: seq<Doc>, generation: string, batchSize: int, verdict: Call -> Option<string>)
    returns (isGrounded: Result<bool>, calls: nat)
    ensures isGrounded == Grounded(docs, generation, batchSize, verdict)
    ensures calls == Calls(docs, generation, batchSize, verdict)
  {
    if |docs| == 0 {
      return Ok(false), 0;
    }
    if batchSize == 0 {
      return Err(Batching.ZeroStep), 0;
    }
    if batchSize < 0 {
      return Ok(false), 0;
    }
    ghost var batches := Batching.Chunks(docs, batchSize);
    Batching.ChunksCount(docs, batchSize);
    ghost var first := FirstConfirming(verdict, batches, 0, generation);
    assert Grounded(docs, generation, batchSize, verdict) == Ok(first.Some?);
    var batchStart := 0;
    var batchNum := 0;
    calls := 0;
    while batchStart < |docs|
      invariant batchStart == batchNum * batchSize
      invariant batchNum <= |batches|
      invariant calls == batchNum
      invariant first == FirstConfirming(verdict, batches, batchNum, generation)
      decreases |docs| - batchStart
    {
      Batching.BatchStartBelow(|docs|, batchSize, batchNum);
      Batching.ChunkAt(docs, batchSize, batchNum);
      var batchEnd := Batching.Min(batchStart + batchSize, |docs|);
      var batch := docs[batchStart..batchEnd];
      assert batch == batches[batchNum];
      var v := verdict(Call(batchNum, FormatDocs(AsItems(batch)), generation));
      ghost var confirms := Confirms(verdict, batches, batchNum, generation);
      assert confirms <==> v.Some? && Text.Lower(v.value) == "yes";
      Batching.MulPred(batchNum + 1, batchSize);
      batchNum := batchNum + 1;
      calls := calls + 1;
      if v.Some? && Text.Lower(v.value) == "yes" {
        assert first == Some(batchNum - 1);
        return Ok(true), calls;
      }
      batchStart := batchStart + batchSize;
    }
    Batching.BatchStartBelow(|docs|, batchSize, batchNum);
    assert first == None;
    return Ok(false), calls;
  }

  /** All batches failing, or answering anything but "yes", leaves the generation not grounded. */
  lemma NoConfirmationNotGrounded(docs: seq<Doc>, generation: string, batchSize: nat, verdict: Call -> Option<string>)
    requires batchSize > 0
    requires forall j :: 0 <= j < |Batching.Chunks(docs, batchSize)| ==>
               var v := verdict(Call(j, FormatDocs(AsItems(Batching.Chunks(docs, batchSize)[j])), generation));
               v.None? || Text.Lower(v.value) != "yes"
    ensures Grounded(docs, generation, batchSize, verdict) == Ok(false)
    ensures Calls(docs, generation, batchSize, verdict) == Batching.NumBatches(|docs|, batchSize)
  {
    Batching.ChunksCount(docs, batchSize);
  }

  /** A confirming first batch is the only call made. */
  lemma FirstBatchConfirms(docs: seq<Doc>, generation: string, batchSize: nat, verdict: Call -> Option<string>)
    requires batchSize > 0 && docs != []
    requires var v := verdict(Call(0, FormatDocs(AsItems(docs[..Batching.Min(batchSize, |docs|)])), generation));
             v.Some? && Text.Lower(v.value) == "yes"
    ensures Grounded(docs, generation, batchSize, verdict) == Ok(true)
    ensures Calls(docs, generation, batchSize, verdict) == 1
  {
    Batching.ChunkAt(docs, batchSize, 0);
  }
}
