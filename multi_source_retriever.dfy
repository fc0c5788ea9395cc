/**
 * Retrieval over several sources (core/graph/tools/multi_source_retriever.py):
 * documents are gathered source by source, Stack Overflow vector hits are
 * completed by a direct database search without repeating a question, and
 * the whole is scored, ranked, cut to `total_k` and summarised by source.
 * The vector stores and the database search are parameters.
 */
module MultiSourceRetriever {
  import opened Wrappers
  import opened GraphUtils
  import opened Fields
  import Text
  import Schemas
  import StackOverflowConnector
  import Seqs

  /** The sources searched when the caller names none. */
  const DefaultSources: seq<Schemas.RetrieverType> := [Schemas.PdfRetriever, Schemas.StackOverflowRetriever]

  /** `sources`, or the default when it is `None` (an empty list stays empty). */
  function SourcesOrDefault(sources: Option<seq<Schemas.RetrieverType>>): (r: seq<Schemas.RetrieverType>)
    ensures sources.None? ==> r == DefaultSources
    ensures sources.Some? ==> r == sources.value
  {
    sources.GetOr(DefaultSources)
  }

  // ---------------------------------------------------- standard retrieval

  /** The documents among what a retriever returned. */
  function DocsOf(items: seq<Item>): (r: seq<Doc>)
    ensures |r| <= |items|
    ensures forall d :: d in r ==> IDoc(d) in items
  {
    if items == [] then []
    else DocsOf(items[..|items| - 1]) + (match items[|items| - 1] case IDoc(d) => [d] case _ => [])
  }

  /** What a retriever's `invoke` returns: a list, or a single object. */
  datatype Returned = Many(items: seq<Item>) | One(item: Item)

  /**
   * `_retrieve_standard`: the documents returned, a single document counting
   * as a list of one; none when the search fails.
   */
  function StandardDocs(result: Result<Returned>): (r: seq<Doc>)
    ensures result.Err? ==> r == []
    ensures result.Ok? && result.value.Many? ==> r == DocsOf(result.value.items)
    ensures result.Ok? && result.value.One? ==> r == DocsOf([result.value.item])
    ensures result.Ok? && result.value.One? ==> |r| <= 1 && (|r| == 1 <==> result.value.item.IDoc?)
    ensures result.Ok? && result.value.One? && result.value.item.IDoc? ==> r == [result.value.item.doc]
  {
    match result
    case Err(_) => []
    case Ok(Many(items)) => DocsOf(items)
    case Ok(One(item)) => match item case IDoc(d) => [d] case _ => []
  }

  // -------------------------------------------------------- deduplication

  /** The question ids present among the documents. */
  function QuestionIds(docs: seq<Doc>): (r: set<Value>)
    ensures forall d :: d in docs && "question_id" in d.metadata ==> d.metadata["question_id"] in r
  {
    set i | 0 <= i < |docs| && "question_id" in docs[i].metadata :: docs[i].metadata["question_id"]
  }

  /** A document with a question id not yet seen. */
  predicate IsNew(d: Doc, seen: set<Value>)
  {
    "question_id" in d.metadata && d.metadata["question_id"] !in seen
  }

  /** The document's question id, `Null` when it has none. */
  function QidOf(d: Doc): Value
  {
    if "question_id" in d.metadata then d.metadata["question_id"] else Null
  }

  /**
   * The direct-search documents that are added: those carrying a question id
   * not seen before, where each added document's id counts as seen.
   */
  function Fresh(direct: seq<Doc>, seen: set<Value>): (r: seq<Doc>)
    ensures forall d :: d in r ==> d in direct && IsNew(d, seen)
    ensures forall i, j :: 0 <= i < j < |r| ==> QidOf(r[i]) != QidOf(r[j])
  {
    if direct == [] then []
    else if IsNew(direct[0], seen) then
      var rest := Fresh(direct[1..], seen + {direct[0].metadata["question_id"]});
      assert forall e :: e in rest ==> QidOf(e) != QidOf(direct[0]) by {
        forall e | e in rest
          ensures QidOf(e) != QidOf(direct[0])
        {
          assert IsNew(e, seen + {direct[0].metadata["question_id"]});
        }
      }
      [direct[0]] + rest
    else Fresh(direct[1..], seen)
  }

  /** A question id new to `seen` in the direct results is represented among the added documents. */
  lemma {:induction false} FreshComplete(direct: seq<Doc>, seen: set<Value>, d: Doc)
    requires d in direct && IsNew(d, seen)
    ensures exists e :: e in Fresh(direct, seen) && QidOf(e) == QidOf(d)
  {
    if IsNew(direct[0], seen) {
      var q := direct[0].metadata["question_id"];
      if QidOf(d) == q {
        assert direct[0] in Fresh(direct, seen);
      } else {
        assert d in direct[1..];
        FreshComplete(direct[1..], seen + {q}, d);
      }
    } else {
      assert d in direct[1..];
      FreshComplete(direct[1..], seen, d);
    }
  }

  /** The loops of `_retrieve_stackoverflow` that collect the seen ids and add the new direct documents. */
  method Deduplicate(existing: seq<Doc>, direct: seq<Doc>) returns (added: seq<Doc>)
    ensures added == Fresh(direct, QuestionIds(existing))
  {
    var seen: set<Value> := {};
    var i := 0;
    while i < |existing|
      invariant 0 <= i <= |existing|
      invariant seen == QuestionIds(existing[..i])
    {
      assert existing[..i + 1] == existing[..i] + [existing[i]];
      if "question_id" in existing[i].metadata {
        seen := seen + {existing[i].metadata["question_id"]};
      }
      i := i + 1;
    }
    assert existing[..i] == existing;
    added := [];
    var j := 0;
    while j < |direct|
      invariant 0 <= j <= |direct|
      invariant added + Fresh(direct[j..], seen) == Fresh(direct, QuestionIds(existing))
    {
      assert direct[j..][1..] == direct[j + 1..];
      if "question_id" in direct[j].metadata && direct[j].metadata["question_id"] !in seen {
        added := added + [direct[j]];
        seen := seen + {direct[j].metadata["question_id"]};
      }
      j := j + 1;
    }
  }

  /** `documents[:k]` for a non-negative `k`. */
  function Take(docs: seq<Doc>, k: nat): (r: seq<Doc>)
    ensures |r| == if k <= |docs| then k else |docs|
    ensures r <= docs
  {
    if k <= |docs| then docs[..k] else docs
  }

  /**
   * `_retrieve_stackoverflow`: the vector hits for `k // 2`, then, with a
   * connector, the direct-search documents for `k // 2` questions whose
   * question is new; at most `k` in all. A failing direct search leaves the
   * vector hits.
   */
  function StackOverflowDocs(vector: Result<Returned>, connectorAvailable: bool,
                             direct: Result<seq<StackOverflowConnector.QaPair>>, k: nat): seq<Doc>
  {
    var hits := StandardDocs(vector);
    if !connectorAvailable || direct.Err? then Take(hits, k)
    else
      var directDocs := StackOverflowConnector.Documents(direct.value, true, true);
      Take(hits + Fresh(directDocs, QuestionIds(hits)), k)
  }

  /**
   * The Stack Overflow documents never exceed `k`, never repeat a question
   * already among the vector hits, and start with the vector hits.
   */
  lemma StackOverflowDocsShape(vector: Result<Returned>, connectorAvailable: bool,
                               direct: Result<seq<StackOverflowConnector.QaPair>>, k: nat)
    ensures var r := StackOverflowDocs(vector, connectorAvailable, direct, k);
      && |r| <= k
      && (forall i :: 0 <= i < |r| && i >= |StandardDocs(vector)| ==> IsNew(r[i], QuestionIds(StandardDocs(vector))))
      && (forall i :: 0 <= i < |r| && i < |StandardDocs(vector)| ==> r[i] == StandardDocs(vector)[i])
  {
    var hits := StandardDocs(vector);
    var r := StackOverflowDocs(vector, connectorAvailable, direct, k);
    if connectorAvailable && direct.Ok? {
      var added := Fresh(StackOverflowConnector.Documents(direct.value, true, true), QuestionIds(hits));
      forall i | 0 <= i < |r| && i >= |hits|
        ensures IsNew(r[i], QuestionIds(hits))
      {
        var all, j := hits + added, i - |hits|;
        assert r[i] == all[i];
        assert all[i] == added[j];
        assert added[j] in added;
      }
    }
  }

  /** `_retrieve_stackoverflow`, with the deduplication loops. */
  method RetrieveStackOverflow(vector: Result<Returned>, connectorAvailable: bool,
                               direct: Result<seq<StackOverflowConnector.QaPair>>, k: nat)
    returns (docs: seq<Doc>)
    ensures docs == StackOverflowDocs(vector, connectorAvailable, direct, k)
  {
    docs := StandardDocs(vector);
    if connectorAvailable && direct.Ok? {
      var directDocs := StackOverflowConnector.ConvertToDocuments(direct.value, true, true);
      var added := Deduplicate(docs, directDocs);
      docs := docs + added;
    }
    docs := Take(docs, k);
  }

  // -------------------------------------------------------------- scoring

  function Min(a: real, b: real): real
  {
    if a <= b then a else b
  }

  /** `metadata.get("source", "unknown")`. */
  function SourceOf(d: Doc): string
  {
    StrField(d.metadata, "source", "unknown")
  }

  predicate IsPdfSource(source: string)
  {
    source == "pdf" || Text.Contains(Text.Lower(source), "pdf")
  }

  /** The score bonus for the content's length: 0.1 above 500 characters and 0.1 more above 1500. */
  function LengthBonus(d: Doc): real
  {
    (if |d.content| > 500 then 0.1 else 0.0) + (if |d.content| > 1500 then 0.1 else 0.0)
  }

  /**
   * `calculate_score`: 0.5, plus for Stack Overflow up to 0.3 for the
   * question score, up to 0.2 for the answer score and 0.3 for an accepted
   * answer; 0.2 for a PDF; 0.1 otherwise; plus the length bonus; capped at 1.0.
   */
  function Score(d: Doc): (s: real)
    ensures s <= 1.0
  {
    var m := d.metadata;
    var source := SourceOf(d);
    var base := if source == "stackoverflow" then
        0.5 + Min(IntField(m, "question_score", 0) as real * 0.1, 0.3)
            + Min(IntField(m, "answer_score", 0) as real * 0.1, 0.2)
            + (if BoolField(m, "is_accepted_answer") then 0.3 else 0.0)
      else if IsPdfSource(source) then 0.7
      else 0.6;
    Min(base + LengthBonus(d), 1.0)
  }

  /** Documents of other sources are never capped: a PDF scores 0.7 and anything else 0.6, plus the length bonus. */
  lemma NonStackOverflowScore(d: Doc)
    requires SourceOf(d) != "stackoverflow"
    ensures Score(d) == (if IsPdfSource(SourceOf(d)) then 0.7 else 0.6) + LengthBonus(d)
    ensures Score(d) <= 0.9
  {
  }

  /** An accepted Stack Overflow answer with non-negative scores outranks any PDF no longer than it. */
  lemma AcceptedOutranksPdf(so: Doc, pdf: Doc)
    requires SourceOf(so) == "stackoverflow" && BoolField(so.metadata, "is_accepted_answer")
    requires IntField(so.metadata, "question_score", 0) >= 0 && IntField(so.metadata, "answer_score", 0) >= 0
    requires SourceOf(pdf) != "stackoverflow" && IsPdfSource(SourceOf(pdf))
    requires |pdf.content| <= |so.content|
    ensures Score(pdf) < Score(so)
  {
  }

  // -------------------------------------------------------------- ranking

  /** A document with its score. */
  datatype Scored = Scored(doc: Doc, score: real)

  function ScoredAll(docs: seq<Doc>): (r: seq<Scored>)
    ensures |r| == |docs|
    ensures forall i :: 0 <= i < |docs| ==> r[i] == Scored(docs[i], Score(docs[i]))
  {
    seq(|docs|, i requires 0 <= i < |docs| => Scored(docs[i], Score(docs[i])))
  }

  predicate Descending(s: seq<Scored>)
  {
    forall i, j :: 0 <= i < j < |s| ==> s[i].score >= s[j].score
  }

  /** Inserts `x` after every element scoring at least as much, so equal scores keep their order. */
  function Insert(sorted: seq<Scored>, x: Scored): (r: seq<Scored>)
    ensures |r| == |sorted| + 1
    ensures multiset(r) == multiset(sorted) + multiset{x}
    ensures forall y :: y in r ==> y in sorted || y == x
  {
    if sorted == [] then [x]
    else if sorted[0].score < x.score then [x] + sorted
    else
      assert sorted == [sorted[0]] + sorted[1..];
      [sorted[0]] + Insert(sorted[1..], x)
  }

  lemma {:induction false} InsertDescending(sorted: seq<Scored>, x: Scored)
    requires Descending(sorted)
    ensures Descending(Insert(sorted, x))
  {
    if sorted != [] && sorted[0].score >= x.score {
      InsertDescending(sorted[1..], x);
      var r := Insert(sorted, x);
      forall j | 0 < j < |r|
        ensures r[0].score >= r[j].score
      {
        assert r[j] in Insert(sorted[1..], x);
      }
    }
  }

  /** The stable sort by descending score (`sort(key=score, reverse=True)`). */
  function SortDescending(s: seq<Scored>): (r: seq<Scored>)
    ensures |r| == |s|
    ensures multiset(r) == multiset(s)
  {
    if s == [] then []
    else
      assert s == s[..|s| - 1] + [s[|s| - 1]];
      Insert(SortDescending(s[..|s| - 1]), s[|s| - 1])
  }

  lemma {:induction false} SortDescendingSorted(s: seq<Scored>)
    ensures Descending(SortDescending(s))
  {
    if s != [] {
      SortDescendingSorted(s[..|s| - 1]);
      InsertDescending(SortDescending(s[..|s| - 1]), s[|s| - 1]);
    }
  }

  /** The elements of `s` scoring exactly `v`, in order. */
  function ScoredAt(s: seq<Scored>, v: real): seq<Scored>
  {
    if s == [] then [] else (if s[0].score == v then [s[0]] else []) + ScoredAt(s[1..], v)
  }

  lemma {:induction false} ScoredAtAppend(a: seq<Scored>, b: seq<Scored>, v: real)
    ensures ScoredAt(a + b, v) == ScoredAt(a, v) + ScoredAt(b, v)
    decreases |a|
  {
    if a == [] {
      assert a + b == b;
    } else {
      assert a == [a[0]] + a[1..] && a + b == [a[0]] + (a[1..] + b);
      ScoredAtCons(a[0], a[1..], v);
      ScoredAtCons(a[0], a[1..] + b, v);
      ScoredAtAppend(a[1..], b, v);
    }
  }

  lemma {:induction false} NoneScoredAt(s: seq<Scored>, v: real)
    requires forall i :: 0 <= i < |s| ==> s[i].score < v
    ensures ScoredAt(s, v) == []
    decreases |s|
  {
    if s != [] {
      NoneScoredAt(s[1..], v);
    }
  }

  /** Inserting `x` into a descending list puts it after the elements with the same score. */
  lemma ScoredAtCons(h: Scored, rest: seq<Scored>, v: real)
    ensures ScoredAt([h] + rest, v) == (if h.score == v then [h] else []) + ScoredAt(rest, v)
  {
    assert ([h] + rest)[1..] == rest;
  }

  /** An element that outscores a descending list goes in front of it, ahead of nothing with its score. */
  lemma InsertFrontStable(sorted: seq<Scored>, x: Scored, v: real)
    requires Descending(sorted)
    requires sorted == [] || sorted[0].score < x.score
    ensures ScoredAt([x] + sorted, v) == ScoredAt(sorted, v) + (if x.score == v then [x] else [])
  {
    ScoredAtCons(x, sorted, v);
    if x.score == v {
      NoneScoredAt(sorted, v);
    }
  }

  lemma {:induction false} InsertStable(sorted: seq<Scored>, x: Scored, v: real)
    requires Descending(sorted)
    ensures ScoredAt(Insert(sorted, x), v) == ScoredAt(sorted, v) + (if x.score == v then [x] else [])
    decreases |sorted|
  {
    if sorted == [] || sorted[0].score < x.score {
      assert Insert(sorted, x) == [x] + sorted;
      InsertFrontStable(sorted, x, v);
    } else {
      var rest := Insert(sorted[1..], x);
      assert Insert(sorted, x) == [sorted[0]] + rest;
      ScoredAtCons(sorted[0], rest, v);
      assert sorted == [sorted[0]] + sorted[1..];
      ScoredAtCons(sorted[0], sorted[1..], v);
      InsertStable(sorted[1..], x, v);
    }
  }

  /** Documents with equal scores keep their input order, as Python's sort does also with `reverse=True`. */
  lemma {:induction false} SortDescendingStable(s: seq<Scored>, v: real)
    ensures ScoredAt(SortDescending(s), v) == ScoredAt(s, v)
    decreases |s|
  {
    if s != [] {
      var front, last := s[..|s| - 1], s[|s| - 1];
      assert s == front + [last];
      ScoredAtAppend(front, [last], v);
      assert ScoredAt([last], v) == (if last.score == v then [last] else []) + ScoredAt([], v);
      var sortedFront := SortDescending(front);
      assert SortDescending(s) == Insert(sortedFront, last);
      SortDescendingStable(front, v);
      SortDescendingSorted(front);
      InsertStable(sortedFront, last, v);
    }
  }

  /** A kept document with its score written into `retrieval_score`. */
  function WithScore(x: Scored): Doc
  {
    Doc(x.doc.content, x.doc.metadata["retrieval_score" := Num(x.score)])
  }

  /** The scored documents `_rank_documents` keeps, best first. */
  function Kept(docs: seq<Doc>, totalK: int): seq<Scored>
  {
    Seqs.SliceTo(SortDescending(ScoredAll(docs)), totalK)
  }

  /** The documents `_rank_documents` returns. */
  function Ranked(docs: seq<Doc>, totalK: int): (r: seq<Doc>)
    ensures |r| == |Kept(docs, totalK)|
    ensures forall i :: 0 <= i < |r| ==> r[i] == WithScore(Kept(docs, totalK)[i])
  {
    var kept := Kept(docs, totalK);
    seq(|kept|, i requires 0 <= i < |kept| => WithScore(kept[i]))
  }

  /** Ranking keeps `total_k` documents, or all of them when there are fewer. */
  lemma RankedLength(docs: seq<Doc>, totalK: int)
    requires totalK >= 0
    ensures |Ranked(docs, totalK)| == if totalK <= |docs| then totalK else |docs|
  {
    assert |SortDescending(ScoredAll(docs))| == |docs| by {
      assert |multiset(SortDescending(ScoredAll(docs)))| == |multiset(ScoredAll(docs))|;
    }
  }

  /** The kept documents are in order of descending score, each recorded as its `retrieval_score`. */
  lemma RankedDescending(docs: seq<Doc>, totalK: int)
    ensures Descending(Kept(docs, totalK))
    ensures forall i :: 0 <= i < |Ranked(docs, totalK)| ==>
              Ranked(docs, totalK)[i].metadata["retrieval_score"] == Num(Kept(docs, totalK)[i].score)
  {
    SortDescendingSorted(ScoredAll(docs));
  }

  /**
   * The kept documents and the dropped ones together are the scored input,
   * and no dropped document scores higher than a kept one.
   */
  lemma RankedTop(docs: seq<Doc>, totalK: int)
    ensures var sorted := SortDescending(ScoredAll(docs));
      var kept := Kept(docs, totalK);
      && multiset(kept) + multiset(sorted[|kept|..]) == multiset(ScoredAll(docs))
      && forall i, j :: 0 <= i < |kept| && |kept| <= j < |sorted| ==> sorted[j].score <= kept[i].score
  {
    var sorted := SortDescending(ScoredAll(docs));
    var kept := Kept(docs, totalK);
    SortDescendingSorted(ScoredAll(docs));
    assert sorted == kept + sorted[|kept|..];
  }

  /** Every kept document is an input document with its own score. */
  lemma RankedFromInput(docs: seq<Doc>, totalK: int)
    ensures forall x :: x in Kept(docs, totalK) ==> x.doc in docs && x.score == Score(x.doc)
  {
    var sorted := SortDescending(ScoredAll(docs));
    forall x | x in Kept(docs, totalK)
      ensures x.doc in docs && x.score == Score(x.doc)
    {
      assert x in multiset(sorted);
      assert x in ScoredAll(docs);
      var j :| 0 <= j < |docs| && ScoredAll(docs)[j] == x;
    }
  }

  /** `_rank_documents`: sorts, keeps the first `total_k` and records their scores. */
  method RankDocuments(docs: seq<Doc>, totalK: int) returns (top: seq<Doc>)
    ensures top == Ranked(docs, totalK)
  {
    var kept := Kept(docs, totalK);
    top := [];
    var i := 0;
    while i < |kept|
      invariant 0 <= i <= |kept|
      invariant |top| == i
      invariant forall j :: 0 <= j < i ==> top[j] == WithScore(kept[j])
    {
      top := top + [Doc(kept[i].doc.content, kept[i].doc.metadata["retrieval_score" := Num(kept[i].score)])];
      i := i + 1;
    }
  }

  // ------------------------------------------------------------ breakdown

  /** The normalised source of a document: "stackoverflow", "pdf", or the source as it is. */
  function SourceKey(d: Doc): string
  {
    var source := SourceOf(d);
    if Text.Contains(Text.Lower(source), "stackoverflow") then "stackoverflow"
    else if Text.Contains(Text.Lower(source), "pdf") || Text.EndsWith(source, ".pdf") then "pdf"
    else source
  }

  /** `_calculate_final_breakdown`: the number of documents per normalised source. */
  function Breakdown(docs: seq<Doc>): (r: map<string, int>)
    ensures forall k :: k in r ==> r[k] >= 1
  {
    if docs == [] then map[]
    else
      var b := Breakdown(docs[..|docs| - 1]);
      var key := SourceKey(docs[|docs| - 1]);
      b[key := (if key in b then b[key] else 0) + 1]
  }

  /** The count of the documents whose normalised source is `key`. */
  function CountKey(docs: seq<Doc>, key: string): nat
  {
    if docs == [] then 0
    else CountKey(docs[..|docs| - 1], key) + (if SourceKey(docs[|docs| - 1]) == key then 1 else 0)
  }

  /** Each source present is counted with its number of documents, and only present sources appear. */
  lemma {:induction false} BreakdownCounts(docs: seq<Doc>)
    ensures forall k :: k in Breakdown(docs) <==> CountKey(docs, k) > 0
    ensures forall k :: k in Breakdown(docs) ==> Breakdown(docs)[k] == CountKey(docs, k)
  {
    if docs != [] {
      BreakdownCounts(docs[..|docs| - 1]);
    }
  }

  /** Some key of a non-empty map. */
  ghost function PickKey(m: map<string, int>): string
    requires m != map[]
  {
    var k :| k in m; k
  }

  /** The sum of the counts. */
  ghost function Total(m: map<string, int>): int
    decreases |m.Keys|
  {
    if m == map[] then 0
    else
      var k := PickKey(m);
      m[k] + Total(m - {k})
  }

  /** The sum does not depend on which key is taken first. */
  lemma {:induction false} TotalRemove(m: map<string, int>, k: string)
    requires k in m
    ensures Total(m) == m[k] + Total(m - {k})
    decreases |m.Keys|
  {
    var p := PickKey(m);
    if p != k {
      var mp := m - {p};
      var mk := m - {k};
      TotalRemove(mp, k);
      TotalRemove(mk, p);
      assert mp - {k} == mk - {p};
    }
  }

  /** Counting one more document of a source raises the sum by one. */
  lemma TotalIncrement(m: map<string, int>, key: string)
    ensures Total(m[key := (if key in m then m[key] else 0) + 1]) == Total(m) + 1
  {
    var m' := m[key := (if key in m then m[key] else 0) + 1];
    TotalRemove(m', key);
    if key in m {
      TotalRemove(m, key);
      assert m' - {key} == m - {key};
    } else {
      assert m' - {key} == m;
    }
  }

  /** The counts of the breakdown add up to the number of documents. */
  lemma {:induction false} BreakdownTotal(docs: seq<Doc>)
    ensures Total(Breakdown(docs)) == |docs|
  {
    if docs != [] {
      BreakdownTotal(docs[..|docs| - 1]);
      TotalIncrement(Breakdown(docs[..|docs| - 1]), SourceKey(docs[|docs| - 1]));
    }
  }

  /** Counting document `i` into the breakdown of the documents before it gives the breakdown up to `i`. */
  lemma BreakdownStep(docs: seq<Doc>, i: nat, b: map<string, int>, key: string)
    requires i < |docs| && b == Breakdown(docs[..i]) && key == SourceKey(docs[i])
    ensures b[key := (if key in b then b[key] else 0) + 1] == Breakdown(docs[..i + 1])
  {
    var next := docs[..i + 1];
    assert next[..|next| - 1] == docs[..i] && next[|next| - 1] == docs[i];
  }

  /** `_calculate_final_breakdown`, as the counting loop. */
  method CalculateFinalBreakdown(docs: seq<Doc>) returns (breakdown: map<string, int>)
    ensures breakdown == Breakdown(docs)
  {
    breakdown := map[];
    var i := 0;
    while i < |docs|
      invariant 0 <= i <= |docs|
      invariant breakdown == Breakdown(docs[..i])
    {
      var key := SourceKey(docs[i]);
      BreakdownStep(docs, i, breakdown, key);
      breakdown := breakdown[key := (if key in breakdown then breakdown[key] else 0) + 1];
      i := i + 1;
    }
    assert docs[..i] == docs;
  }

  // ------------------------------------------------------ multi-source run

  /**
   * What the retrievers answer: `vector(source, k)` is a vector search,
   * `direct(limit)` the database search, `connectorAvailable` whether the
   * database can be reached.
   */
  datatype Backends = Backends(
    vector: (Schemas.RetrieverType, nat) -> Result<Returned>,
    connectorAvailable: bool,
    direct: nat -> Result<seq<StackOverflowConnector.QaPair>>)

  /** The documents one source contributes; both retrieval paths catch their own errors. */
  function SourceDocs(b: Backends, source: Schemas.RetrieverType, k: nat): seq<Doc>
  {
    if source == Schemas.StackOverflowRetriever then
      StackOverflowDocs(b.vector(source, k / 2), b.connectorAvailable, b.direct(k / 2), k)
    else StandardDocs(b.vector(source, k))
  }

  /** The documents of all sources, in source order. */
  function Gathered(b: Backends, sources: seq<Schemas.RetrieverType>, k: nat): seq<Doc>
  {
    if sources == [] then []
    else Gathered(b, sources[..|sources| - 1], k) + SourceDocs(b, sources[|sources| - 1], k)
  }

  /** The per-source counts (`source_breakdown`), the later entry winning for a repeated source. */
  function PerSource(b: Backends, sources: seq<Schemas.RetrieverType>, k: nat): map<string, int>
  {
    if sources == [] then map[]
    else
      var s := sources[|sources| - 1];
      PerSource(b, sources[..|sources| - 1], k)[s.Value() := |SourceDocs(b, s, k)|]
  }

  /** Every source searched has a count. */
  lemma {:induction false} PerSourceKeys(b: Backends, sources: seq<Schemas.RetrieverType>, k: nat)
    ensures forall i :: 0 <= i < |sources| ==> sources[i].Value() in PerSource(b, sources, k)
  {
    if sources != [] {
      var n := |sources| - 1;
      PerSourceKeys(b, sources[..n], k);
      var before := PerSource(b, sources[..n], k);
      assert PerSource(b, sources, k) == before[sources[n].Value() := |SourceDocs(b, sources[n], k)|];
      forall i | 0 <= i < n ensures sources[i].Value() in before {
        assert sources[..n][i] == sources[i];
      }
    }
  }

  /** A source's count is the number of documents of its last search. */
  lemma {:induction false} PerSourceLast(b: Backends, sources: seq<Schemas.RetrieverType>, k: nat, i: nat)
    requires i < |sources| && forall j :: i < j < |sources| ==> sources[j] != sources[i]
    ensures sources[i].Value() in PerSource(b, sources, k)
    ensures PerSource(b, sources, k)[sources[i].Value()] == |SourceDocs(b, sources[i], k)|
  {
    var n := |sources| - 1;
    var prefix := sources[..n];
    assert PerSource(b, sources, k) == PerSource(b, prefix, k)[sources[n].Value() := |SourceDocs(b, sources[n], k)|];
    if i < n {
      assert prefix[i] == sources[i];
      assert forall j :: i < j < |prefix| ==> prefix[j] == sources[j];
      PerSourceLast(b, prefix, k, i);
      Schemas.ValuesDistinct(Schemas.AdaptiveRag, Schemas.AdaptiveRag, sources[n], sources[i]);
    }
  }

  /** The ranked documents with the breakdown attached to the first, unless it already has one. */
  function WithBreakdown(ranked: seq<Doc>, breakdown: map<string, int>): (r: seq<Doc>)
    ensures |r| == |ranked|
    ensures forall i :: 0 < i < |r| ==> r[i] == ranked[i]
    ensures r != [] ==> r[0].content == ranked[0].content && "multi_source_breakdown" in r[0].metadata
  {
    if ranked == [] || "multi_source_breakdown" in ranked[0].metadata then ranked
    else [Doc(ranked[0].content, ranked[0].metadata["multi_source_breakdown" := Counts(breakdown)])] + ranked[1..]
  }

  /** One turn of the source loop: the Stack Overflow path or the standard one. */
  method RetrieveSource(b: Backends, source: Schemas.RetrieverType, k: nat) returns (docs: seq<Doc>)
    ensures docs == SourceDocs(b, source, k)
  {
    if source == Schemas.StackOverflowRetriever {
      docs := RetrieveStackOverflow(b.vector(source, k / 2), b.connectorAvailable, b.direct(k / 2), k);
    } else {
      docs := StandardDocs(b.vector(source, k));
    }
  }

  /**
   * `retrieve_multi_source`: gathers every source (default PDF then Stack
   * Overflow) with `k_per_source` each, ranks the lot keeping `total_k`,
   * and attaches the breakdown of the kept documents to the first.
   */
  method RetrieveMultiSource(b: Backends, sources: Option<seq<Schemas.RetrieverType>>, kPerSource: nat, totalK: int)
    returns (ranked: seq<Doc>, perSource: map<string, int>)
    ensures var srcs := SourcesOrDefault(sources);
      && perSource == PerSource(b, srcs, kPerSource)
      && ranked == WithBreakdown(Ranked(Gathered(b, srcs, kPerSource), totalK),
                                 Breakdown(Ranked(Gathered(b, srcs, kPerSource), totalK)))
  {
    var srcs := SourcesOrDefault(sources);
    var all;
    all, perSource := GatherSources(b, srcs, kPerSource);
    var top := RankDocuments(all, totalK);
    var breakdown := CalculateFinalBreakdown(top);
    ranked := WithBreakdown(top, breakdown);
  }

  /** The loop over the sources: their documents in source order and the count each returned. */
  method GatherSources(b: Backends, srcs: seq<Schemas.RetrieverType>, kPerSource: nat)
    returns (all: seq<Doc>, perSource: map<string, int>)
    ensures all == Gathered(b, srcs, kPerSource)
    ensures perSource == PerSource(b, srcs, kPerSource)
  {
    all := [];
    perSource := map[];
    var i := 0;
    while i < |srcs|
      invariant 0 <= i <= |srcs|
      invariant all == Gathered(b, srcs[..i], kPerSource)
      invariant perSource == PerSource(b, srcs[..i], kPerSource)
    {
      assert srcs[..i + 1][..i] == srcs[..i];
      var docs := RetrieveSource(b, srcs[i], kPerSource);
      all := all + docs;
      perSource := perSource[srcs[i].Value() := |docs|];
      i := i + 1;
    }
    assert srcs[..i] == srcs;
  }
}
