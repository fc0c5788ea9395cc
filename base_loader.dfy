/**
 * What every document loader shares (core/graph/tools/document_loaders/
 * base_loader.py): the chunk parameters, the clean-up of loaded documents,
 * the splitting steps around the text splitter and the statistics.
 * The text splitters themselves are parameters.
 */
module BaseLoader {
  import opened GraphUtils
  import Text
  import Pagination

  /** The largest chunk size, in tokens, the embedding models are given. */
  const MaxSafeChunkSize: int := 800
  /** Chunks longer than this many characters are split again. */
  const MaxChunkChars: nat := 1600

  /**
   * `_calculate_chunk_params`: the configured chunk size capped at 800, and
   * an overlap of at most a quarter of it (200 at most for large documents).
   */
  function ChunkParams(chunkSize: int, chunkOverlap: int, avgCharsPerDoc: real): (r: (int, int))
    ensures r.0 <= MaxSafeChunkSize && (r.0 == chunkSize || r.0 == MaxSafeChunkSize)
    ensures r.0 == chunkSize <==> chunkSize <= MaxSafeChunkSize
    ensures r.1 <= Pagination.FloorDiv(r.0, 4)
    ensures avgCharsPerDoc > 5000.0 ==> r.1 <= 200 && (r.1 == 200 || r.1 == Pagination.FloorDiv(r.0, 4))
    ensures avgCharsPerDoc <= 5000.0 ==> r.1 <= chunkOverlap && (r.1 == chunkOverlap || r.1 == Pagination.FloorDiv(r.0, 4))
  {
    var size := if chunkSize <= MaxSafeChunkSize then chunkSize else MaxSafeChunkSize;
    var quarter := Pagination.FloorDiv(size, 4);
    var overlap := if chunkOverlap <= quarter then chunkOverlap else quarter;
    if avgCharsPerDoc > 5000.0 then (size, if 200 <= quarter then 200 else quarter)
    else (size, overlap)
  }

  /** With the default settings (800 and 100) the parameters are 800 and 100, or 800 and 200 for large documents. */
  lemma DefaultChunkParams(avgCharsPerDoc: real)
    ensures avgCharsPerDoc <= 5000.0 ==> ChunkParams(800, 100, avgCharsPerDoc) == (800, 100)
    ensures avgCharsPerDoc > 5000.0 ==> ChunkParams(800, 100, avgCharsPerDoc) == (800, 200)
  {
    assert Pagination.FloorDiv(800, 4) == 200;
  }

  // ---------------------------------------------------------- validation

  /** A kept document: stripped content, its input position and its new length recorded. */
  function Cleaned(d: Doc, index: nat): (c: Doc)
    ensures c.content == Text.Strip(d.content)
    ensures c.metadata.Keys == d.metadata.Keys + {"document_index", "content_length"}
    ensures c.metadata["document_index"] == Int(index) && c.metadata["content_length"] == Int(|c.content|)
    ensures forall k :: k in d.metadata && k != "document_index" && k != "content_length" ==> c.metadata[k] == d.metadata[k]
  {
    var content := Text.Strip(d.content);
    Doc(content, d.metadata["document_index" := Int(index)]["content_length" := Int(|content|)])
  }

  /** `validate_documents`: the non-blank documents, cleaned, in order. */
  function Validated(docs: seq<Doc>): seq<Doc>
  {
    if docs == [] then []
    else
      var n := |docs| - 1;
      Validated(docs[..n]) + (if Text.IsBlank(docs[n].content) then [] else [Cleaned(docs[n], n)])
  }

  /** The input positions `validate_documents` keeps: those of the non-blank documents. */
  function KeptPositions(docs: seq<Doc>): (pos: seq<nat>)
    ensures |pos| <= |docs|
  {
    if docs == [] then []
    else
      var n := |docs| - 1;
      KeptPositions(docs[..n]) + (if Text.IsBlank(docs[n].content) then [] else [n])
  }

  /** Every kept position names a non-blank input document, in increasing order. */
  lemma {:induction false} KeptPositionsValid(docs: seq<Doc>)
    ensures forall j :: 0 <= j < |KeptPositions(docs)| ==>
              KeptPositions(docs)[j] < |docs| && !Text.IsBlank(docs[KeptPositions(docs)[j]].content)
    ensures forall j, k :: 0 <= j < k < |KeptPositions(docs)| ==> KeptPositions(docs)[j] < KeptPositions(docs)[k]
  {
    if docs != [] {
      var n := |docs| - 1;
      KeptPositionsValid(docs[..n]);
      assert forall i :: 0 <= i < n ==> docs[..n][i] == docs[i];
    }
  }

  /** Every non-blank input document is kept. */
  lemma {:induction false} KeptPositionsComplete(docs: seq<Doc>)
    ensures forall i :: 0 <= i < |docs| && !Text.IsBlank(docs[i].content) ==> i in KeptPositions(docs)
  {
    if docs != [] {
      var n := |docs| - 1;
      var prefix := docs[..n];
      KeptPositionsComplete(prefix);
      forall i | 0 <= i < |docs| && !Text.IsBlank(docs[i].content)
        ensures i in KeptPositions(docs)
      {
        if i < n {
          assert prefix[i] == docs[i];
          assert KeptPositions(prefix) <= KeptPositions(docs);
        }
      }
    }
  }

  /**
   * The kept documents, position by position: the `j`-th output is the
   * `j`-th non-blank input, stripped and tagged with its input position.
   */
  lemma {:induction false} ValidatedAt(docs: seq<Doc>)
    ensures |Validated(docs)| == |KeptPositions(docs)|
    ensures forall j :: 0 <= j < |Validated(docs)| ==>
              KeptPositions(docs)[j] < |docs| &&
              Validated(docs)[j] == Cleaned(docs[KeptPositions(docs)[j]], KeptPositions(docs)[j])
  {
    if docs != [] {
      var n := |docs| - 1;
      var prefix := docs[..n];
      ValidatedAt(prefix);
      KeptPositionsValid(prefix);
      forall j | 0 <= j < |Validated(docs)|
        ensures KeptPositions(docs)[j] < |docs|
        ensures Validated(docs)[j] == Cleaned(docs[KeptPositions(docs)[j]], KeptPositions(docs)[j])
      {
        if j < |Validated(prefix)| {
          assert Validated(docs)[j] == Validated(prefix)[j];
          assert KeptPositions(docs)[j] == KeptPositions(prefix)[j];
          assert prefix[KeptPositions(prefix)[j]] == docs[KeptPositions(prefix)[j]];
        }
      }
    }
  }

  /** A kept document is never empty. */
  lemma ValidatedNonEmpty(docs: seq<Doc>)
    ensures forall d :: d in Validated(docs) ==> d.content != []
  {
    ValidatedAt(docs);
    KeptPositionsValid(docs);
    forall d | d in Validated(docs)
      ensures d.content != []
    {
      var j :| 0 <= j < |Validated(docs)| && Validated(docs)[j] == d;
      Text.StripEmptyIffBlank(docs[KeptPositions(docs)[j]].content);
    }
  }

  /** `validate_documents`, as the loop that appends the cleaned documents. */
  method ValidateDocuments(docs: seq<Doc>) returns (valid: seq<Doc>)
    ensures valid == Validated(docs)
  {
    valid := [];
    var i := 0;
    while i < |docs|
      invariant 0 <= i <= |docs|
      invariant valid == Validated(docs[..i])
    {
      assert docs[..i + 1][..i] == docs[..i];
      if !Text.IsBlank(docs[i].content) {
        var content := Text.Strip(docs[i].content);
        valid := valid + [Doc(content, docs[i].metadata["document_index" := Int(i)]["content_length" := Int(|content|)])];
      }
      i := i + 1;
    }
    assert docs[..i] == docs;
  }

  // ------------------------------------------------------------ splitting

  /** A chunk after the size check: kept, or split again by the character splitter. */
  function Resplit(chunk: Doc, charSplit: Doc -> seq<Doc>): seq<Doc>
  {
    if |chunk.content| > MaxChunkChars then charSplit(chunk) else [chunk]
  }

  /** All chunks after the size check, in order. */
  function ResplitAll(chunks: seq<Doc>, charSplit: Doc -> seq<Doc>): seq<Doc>
  {
    if chunks == [] then []
    else ResplitAll(chunks[..|chunks| - 1], charSplit) + Resplit(chunks[|chunks| - 1], charSplit)
  }

  /** How many chunks were over the limit. */
  function Oversized(chunks: seq<Doc>): nat
  {
    if chunks == [] then 0
    else Oversized(chunks[..|chunks| - 1]) + (if |chunks[|chunks| - 1].content| > MaxChunkChars then 1 else 0)
  }

  /**
   * When the character splitter keeps to the limit, no final chunk is over
   * 1600 characters; chunks already within the limit are kept as they are.
   */
  lemma {:induction false} ResplitBounded(chunks: seq<Doc>, charSplit: Doc -> seq<Doc>)
    requires forall c: Doc, d: Doc :: d in charSplit(c) ==> |d.content| <= MaxChunkChars
    ensures forall d :: d in ResplitAll(chunks, charSplit) ==> |d.content| <= MaxChunkChars
  {
    if chunks != [] {
      ResplitBounded(chunks[..|chunks| - 1], charSplit);
    }
  }

  /** Without oversized chunks the size check changes nothing. */
  lemma {:induction false} ResplitIdentity(chunks: seq<Doc>, charSplit: Doc -> seq<Doc>)
    requires forall i :: 0 <= i < |chunks| ==> |chunks[i].content| <= MaxChunkChars
    ensures ResplitAll(chunks, charSplit) == chunks
    ensures Oversized(chunks) == 0
  {
    if chunks != [] {
      ResplitIdentity(chunks[..|chunks| - 1], charSplit);
      assert chunks == chunks[..|chunks| - 1] + [chunks[|chunks| - 1]];
    }
  }

  /** Total number of characters in the documents. */
  function TotalChars(docs: seq<Doc>): nat
  {
    if docs == [] then 0 else TotalChars(docs[..|docs| - 1]) + |docs[|docs| - 1].content|
  }

  /** The chunks `split_documents` returns. */
  function Split(docs: seq<Doc>, chunkSize: int, chunkOverlap: int,
                 splitter: (seq<Doc>, int, int) -> seq<Doc>, charSplit: Doc -> seq<Doc>): seq<Doc>
  {
    if docs == [] then docs
    else
      var params := ChunkParams(chunkSize, chunkOverlap, TotalChars(docs) as real / |docs| as real);
      ResplitAll(splitter(docs, params.0, params.1), charSplit)
  }

  /**
   * `split_documents`: an empty input is returned as it is; otherwise the
   * splitter runs with the chunk parameters and every chunk over 1600
   * characters is split again, counting those. `splitter` is the text
   * splitter for the given size and overlap, `charSplit` the character
   * splitter used for oversized chunks.
   */
  method SplitDocuments(docs: seq<Doc>, chunkSize: int, chunkOverlap: int,
                        splitter: (seq<Doc>, int, int) -> seq<Doc>, charSplit: Doc -> seq<Doc>)
    returns (chunks: seq<Doc>, resplit: nat)
    ensures chunks == Split(docs, chunkSize, chunkOverlap, splitter, charSplit)
    ensures docs == [] ==> chunks == [] && resplit == 0
    ensures docs != [] ==>
              var params := ChunkParams(chunkSize, chunkOverlap, TotalChars(docs) as real / |docs| as real);
              resplit == Oversized(splitter(docs, params.0, params.1))
  {
    if docs == [] {
      return docs, 0;
    }
    var params := ChunkParams(chunkSize, chunkOverlap, TotalChars(docs) as real / |docs| as real);
    var split := splitter(docs, params.0, params.1);
    chunks := [];
    resplit := 0;
    var i := 0;
    while i < |split|
      invariant 0 <= i <= |split|
      invariant chunks == ResplitAll(split[..i], charSplit)
      invariant resplit == Oversized(split[..i])
    {
      assert split[..i + 1][..i] == split[..i];
      if |split[i].content| > MaxChunkChars {
        resplit := resplit + 1;
        chunks := chunks + charSplit(split[i]);
      } else {
        chunks := chunks + [split[i]];
      }
      i := i + 1;
    }
    assert split[..i] == split;
  }

  // ------------------------------------------------------------ statistics

  /** The figures `get_stats` reports; only the count for no documents. */
  datatype Stats =
    | NoDocuments
    | Stats(totalDocuments: nat, totalCharacters: nat, avgDocumentSize: real,
            minDocumentSize: nat, maxDocumentSize: nat, sources: set<Value>)

  /** `doc.metadata.get("source", "unknown")`. */
  function Source(d: Doc): Value
  {
    if "source" in d.metadata then d.metadata["source"] else Str("unknown")
  }

  function MinLength(docs: seq<Doc>): (r: nat)
    requires docs != []
    ensures exists i :: 0 <= i < |docs| && r == |docs[i].content|
    ensures forall i :: 0 <= i < |docs| ==> r <= |docs[i].content|
  {
    if |docs| == 1 then |docs[0].content|
    else
      var m := MinLength(docs[..|docs| - 1]);
      var last := |docs[|docs| - 1].content|;
      if last < m then last else m
  }

  function MaxLength(docs: seq<Doc>): (r: nat)
    requires docs != []
    ensures exists i :: 0 <= i < |docs| && r == |docs[i].content|
    ensures forall i :: 0 <= i < |docs| ==> |docs[i].content| <= r
  {
    if |docs| == 1 then |docs[0].content|
    else
      var m := MaxLength(docs[..|docs| - 1]);
      var last := |docs[|docs| - 1].content|;
      if last > m then last else m
  }

  /** The total lies between `n` times the shortest and `n` times the longest length. */
  lemma {:induction false} TotalBetween(docs: seq<Doc>, lo: nat, hi: nat)
    requires forall i :: 0 <= i < |docs| ==> lo <= |docs[i].content| <= hi
    ensures |docs| * lo <= TotalChars(docs) <= |docs| * hi
  {
    if docs != [] {
      var n := |docs| - 1;
      TotalBetween(docs[..n], lo, hi);
      assert |docs| * lo == n * lo + lo;
      assert |docs| * hi == n * hi + hi;
    }
  }

  /** A mean of `n` values between `lo` and `hi` lies between them. */
  lemma AverageBetween(total: nat, n: nat, lo: nat, hi: nat)
    requires n > 0 && n * lo <= total <= n * hi
    ensures (lo as real) <= total as real / n as real <= (hi as real)
  {
    var avg := total as real / n as real;
    assert avg * (n as real) == total as real;
    assert (n * lo) as real == (n as real) * (lo as real);
    assert (n * hi) as real == (n as real) * (hi as real);
  }

  /** The sources of the documents, each once. */
  function Sources(docs: seq<Doc>): (r: set<Value>)
    ensures forall i :: 0 <= i < |docs| ==> Source(docs[i]) in r
    ensures forall v :: v in r ==> exists i :: 0 <= i < |docs| && Source(docs[i]) == v
  {
    set i | 0 <= i < |docs| :: Source(docs[i])
  }

  /**
   * `get_stats`: nothing but the count for no documents; otherwise the
   * total is the sum of the lengths, the average is the total over the
   * count and lies between the smallest and the largest, and the sources
   * are those of the documents, each once.
   */
  function GetStats(docs: seq<Doc>): (r: Stats)
    ensures docs == [] <==> r == NoDocuments
    ensures r.Stats? ==>
              && r.totalDocuments == |docs|
              && r.totalCharacters == TotalChars(docs)
              && (r.minDocumentSize as real) <= r.avgDocumentSize <= (r.maxDocumentSize as real)
              && (forall i :: 0 <= i < |docs| ==> r.minDocumentSize <= |docs[i].content| <= r.maxDocumentSize)
              && (exists i :: 0 <= i < |docs| && r.minDocumentSize == |docs[i].content|)
              && (exists i :: 0 <= i < |docs| && r.maxDocumentSize == |docs[i].content|)
              && r.avgDocumentSize == r.totalCharacters as real / r.totalDocuments as real
              && (forall v :: v in r.sources <==> exists i :: 0 <= i < |docs| && Source(docs[i]) == v)
  {
    if docs == [] then NoDocuments
    else
      var total := TotalChars(docs);
      var lo := MinLength(docs);
      var hi := MaxLength(docs);
      TotalBetween(docs, lo, hi);
      var n := |docs|;
      var avg := total as real / n as real;
      AverageBetween(total, n, lo, hi);
      Stats(n, total, avg, lo, hi, Sources(docs))
  }
}
