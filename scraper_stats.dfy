/**
 * The statistics of the scraped data (`get_scraping_stats` in
 * services/stackoverflow_scrapper.py): the row counts and the ten most
 * frequent tags.
 *
 * The tags column values arrive in the order the database returns the
 * rows, which the query leaves unspecified, so that order is an input; the
 * counts do not depend on it, only the order among equally frequent tags
 * does.
 */
module ScraperStats {
  import opened Wrappers
  import Text
  import Seqs
  import ScraperStore

  // ------------------------------------------------------------ tags of the rows

  /** The comma-separated pieces that are non-empty once stripped, stripped, in order. */
  function KeptPieces(pieces: seq<string>): seq<string>
  {
    if pieces == [] then []
    else
      var tag := Text.Strip(pieces[|pieces| - 1]);
      KeptPieces(pieces[..|pieces| - 1]) + (if tag != "" then [tag] else [])
  }

  /** The tags one column value contributes: none for a null or empty value. */
  function ColumnTags(column: Option<string>): seq<string>
  {
    if column.None? || column.value == "" then [] else KeptPieces(Text.Split(column.value, ','))
  }

  /** Every tag counted, row after row, in order. */
  function AllTags(columns: seq<Option<string>>): seq<string>
  {
    if columns == [] then [] else AllTags(columns[..|columns| - 1]) + ColumnTags(columns[|columns| - 1])
  }

  /** A non-empty string without surrounding whitespace, as `strip()` leaves it. */
  predicate IsStrippedTag(t: string)
  {
    t != "" && !Text.IsSpace(t[0]) && !Text.IsSpace(t[|t| - 1])
  }

  /** A counted tag is a stripped piece: non-empty, without surrounding whitespace. */
  lemma {:induction false} KeptPiecesShape(pieces: seq<string>)
    ensures forall t :: t in KeptPieces(pieces) ==>
      IsStrippedTag(t) && exists i :: 0 <= i < |pieces| && Text.Strip(pieces[i]) == t
  {
    if pieces != [] {
      var front := pieces[..|pieces| - 1];
      KeptPiecesShape(front);
      var last := Text.Strip(pieces[|pieces| - 1]);
      var _, _ := Text.StripShape(pieces[|pieces| - 1]);
      assert KeptPieces(pieces) == KeptPieces(front) + (if last != "" then [last] else []);
      forall t | t in KeptPieces(pieces)
        ensures IsStrippedTag(t) && exists i :: 0 <= i < |pieces| && Text.Strip(pieces[i]) == t
      {
        if t in KeptPieces(front) {
          var i :| 0 <= i < |front| && Text.Strip(front[i]) == t;
          assert pieces[i] == front[i];
        } else {
          assert t == last;
          assert Text.Strip(pieces[|pieces| - 1]) == t;
        }
      }
    }
  }

  /** How often `t` occurs in `s`. */
  function Occurrences(s: seq<string>, t: string): nat
  {
    if s == [] then 0 else Occurrences(s[..|s| - 1], t) + (if s[|s| - 1] == t then 1 else 0)
  }

  /** The distinct elements of `s` in the order of their first occurrence. */
  function Distinct(s: seq<string>): seq<string>
  {
    if s == [] then []
    else
      var front := s[..|s| - 1];
      Distinct(front) + (if s[|s| - 1] in front then [] else [s[|s| - 1]])
  }

  /** The count of every tag of `s`: what the `top_tags_dict` of the source holds. */
  function CountMap(s: seq<string>): map<string, int>
  {
    map t | t in s :: Occurrences(s, t)
  }

  /** `Distinct` lists each element of `s` once and nothing else. */
  lemma {:induction false} DistinctSpec(s: seq<string>)
    ensures forall t :: t in Distinct(s) <==> t in s
    ensures forall i, j :: 0 <= i < j < |Distinct(s)| ==> Distinct(s)[i] != Distinct(s)[j]
  {
    if s != [] {
      DistinctSpec(s[..|s| - 1]);
      assert s == s[..|s| - 1] + [s[|s| - 1]];
    }
  }

  /** A tag occurs in `s` exactly when it is counted at least once. */
  lemma {:induction false} OccursIffCounted(s: seq<string>, t: string)
    ensures Occurrences(s, t) > 0 <==> t in s
  {
    if s != [] {
      OccursIffCounted(s[..|s| - 1], t);
      assert s == s[..|s| - 1] + [s[|s| - 1]];
    }
  }

  /** One more tag is appended to the first-occurrence order exactly when it is new. */
  lemma DistinctSnoc(seen: seq<string>, x: string)
    ensures Distinct(seen + [x]) == Distinct(seen) + (if x in seen then [] else [x])
  {
    assert (seen + [x])[..|seen|] == seen;
  }

  lemma OccurrencesSnoc(seen: seq<string>, x: string, t: string)
    ensures Occurrences(seen + [x], t) == Occurrences(seen, t) + (if x == t then 1 else 0)
  {
    assert (seen + [x])[..|seen|] == seen;
  }

  /** One more tag raises its count by one and leaves the other counts alone. */
  lemma CountMapSnoc(seen: seq<string>, x: string)
    ensures x !in seen ==> Occurrences(seen, x) == 0
    ensures CountMap(seen + [x]) == CountMap(seen)[x := Occurrences(seen, x) + 1]
  {
    var s := seen + [x];
    OccursIffCounted(seen, x);
    var m := CountMap(seen)[x := Occurrences(seen, x) + 1];
    var c := CountMap(s);
    forall t ensures t in c <==> t in m {
      assert t in s <==> t in seen || t == x;
    }
    forall t | t in m ensures c[t] == m[t] {
      OccurrencesSnoc(seen, x, t);
    }
    assert c == m;
  }

  /** One more row appends the tags of its column value. */
  lemma AllTagsSnoc(columns: seq<Option<string>>, i: nat)
    requires i < |columns|
    ensures AllTags(columns[..i + 1]) == AllTags(columns[..i]) + ColumnTags(columns[i])
  {
    assert columns[..i + 1][..i] == columns[..i];
  }

  /** One more piece of a column value appends it, stripped, unless it strips to nothing. */
  lemma KeptPiecesSnoc(pieces: seq<string>, j: nat)
    requires j < |pieces|
    ensures var tag := Text.Strip(pieces[j]);
      KeptPieces(pieces[..j + 1]) == KeptPieces(pieces[..j]) + (if tag != "" then [tag] else [])
  {
    assert pieces[..j + 1][..j] == pieces[..j];
  }

  /** `top_tags_dict`: its keys in insertion order and its values. */
  datatype TagDict = TagDict(order: seq<string>, counts: map<string, int>)

  /** `top_tags_dict[tag] = top_tags_dict.get(tag, 0) + 1`: a new key goes last. */
  function AddTo(d: TagDict, tag: string): TagDict
  {
    TagDict(if tag in d.counts then d.order else d.order + [tag],
            d.counts[tag := (if tag in d.counts then d.counts[tag] else 0) + 1])
  }

  /** The dict after counting `tags` in order. */
  function AddAll(d: TagDict, tags: seq<string>): TagDict
  {
    if tags == [] then d else AddTo(AddAll(d, tags[..|tags| - 1]), tags[|tags| - 1])
  }

  lemma {:induction false} AddAllAppend(d: TagDict, a: seq<string>, b: seq<string>)
    ensures AddAll(d, a + b) == AddAll(AddAll(d, a), b)
    decreases |b|
  {
    if b != [] {
      AddAllAppend(d, a, b[..|b| - 1]);
      assert (a + b)[..|a + b| - 1] == a + b[..|b| - 1];
      assert (a + b)[|a + b| - 1] == b[|b| - 1];
    } else {
      assert a + b == a;
    }
  }

  /**
   * Counting from the empty dict gives every tag once, in the order of its
   * first occurrence, with the number of its occurrences.
   */
  lemma {:induction false} AddAllCounts(s: seq<string>)
    ensures AddAll(TagDict([], map[]), s) == TagDict(Distinct(s), CountMap(s))
    decreases |s|
  {
    if s != [] {
      var front := s[..|s| - 1];
      var x := s[|s| - 1];
      AddAllCounts(front);
      assert s == front + [x];
      DistinctSnoc(front, x);
      CountMapSnoc(front, x);
    }
  }

  /** The inner loop of the counting: the stripped non-empty pieces of one column value go into the dict. */
  method CountPieces(pieces: seq<string>, order: seq<string>, counts: map<string, int>)
    returns (order': seq<string>, counts': map<string, int>)
    ensures TagDict(order', counts') == AddAll(TagDict(order, counts), KeptPieces(pieces))
  {
    order', counts' := order, counts;
    var j := 0;
    assert pieces[..0] == [];
    while j < |pieces|
      invariant 0 <= j <= |pieces|
      invariant TagDict(order', counts') == AddAll(TagDict(order, counts), KeptPieces(pieces[..j]))
    {
      var tag := Text.Strip(pieces[j]);
      KeptPiecesSnoc(pieces, j);
      if tag != "" {
        ghost var k := KeptPieces(pieces[..j]);
        assert (k + [tag])[..|k|] == k;
        ghost var after := AddTo(TagDict(order', counts'), tag);
        assert AddAll(TagDict(order, counts), k + [tag]) == after;
        if tag !in counts' {
          order' := order' + [tag];
        }
        counts' := counts'[tag := (if tag in counts' then counts'[tag] else 0) + 1];
        assert TagDict(order', counts') == after;
      } else {
        assert KeptPieces(pieces[..j + 1]) == KeptPieces(pieces[..j]);
      }
      j := j + 1;
    }
    assert pieces[..|pieces|] == pieces;
  }

  /**
   * The counting loop of `get_scraping_stats`: `order` is the key order of
   * the dict (first occurrence) and `counts` its values.
   */
  method CountTags(columns: seq<Option<string>>) returns (order: seq<string>, counts: map<string, int>)
    ensures order == Distinct(AllTags(columns))
    ensures counts == CountMap(AllTags(columns))
  {
    order, counts := [], map[];
    var i := 0;
    while i < |columns|
      invariant 0 <= i <= |columns|
      invariant TagDict(order, counts) == AddAll(TagDict([], map[]), AllTags(columns[..i]))
    {
      AllTagsSnoc(columns, i);
      AddAllAppend(TagDict([], map[]), AllTags(columns[..i]), ColumnTags(columns[i]));
      if columns[i].Some? && columns[i].value != "" {
        order, counts := CountPieces(Text.Split(columns[i].value, ','), order, counts);
      } else {
        assert AllTags(columns[..i + 1]) == AllTags(columns[..i]) + [];
      }
      i := i + 1;
    }
    assert columns[..|columns|] == columns;
    AddAllCounts(AllTags(columns));
  }

  // ------------------------------------------------------------ sorting by count

  /** One `{"tag": tag, "count": count}` entry. */
  datatype TagCount = TagCount(tag: string, count: int)

  /** The dict's items, in its key order. */
  function Items(order: seq<string>, counts: map<string, int>): (r: seq<TagCount>)
    requires forall t :: t in order ==> t in counts
    ensures |r| == |order|
  {
    seq(|order|, i requires 0 <= i < |order| => TagCount(order[i], counts[order[i]]))
  }

  /** Puts `x` before the first entry whose count is not larger, so it precedes its equals. */
  function Insert(x: TagCount, s: seq<TagCount>): seq<TagCount>
  {
    if s == [] || s[0].count <= x.count then [x] + s else [s[0]] + Insert(x, s[1..])
  }

  /**
   * `sorted(items, key=count, reverse=True)`: a stable sort by count,
   * largest first. A stable sort's output is determined by its input, so
   * this insertion sort gives what Python's sort gives.
   */
  function SortByCount(s: seq<TagCount>): seq<TagCount>
  {
    if s == [] then [] else Insert(s[0], SortByCount(s[1..]))
  }

  predicate SortedByCount(s: seq<TagCount>)
  {
    forall i, j :: 0 <= i < j < |s| ==> s[i].count >= s[j].count
  }

  /** The entries with count `c`, in order. */
  function WithCount(s: seq<TagCount>, c: int): seq<TagCount>
  {
    if s == [] then [] else (if s[0].count == c then [s[0]] else []) + WithCount(s[1..], c)
  }

  /** Every entry of `s` has a count of at most `c`. */
  predicate AllAtMost(s: seq<TagCount>, c: int)
  {
    forall k :: 0 <= k < |s| ==> s[k].count <= c
  }

  predicate DistinctTags(s: seq<TagCount>)
  {
    forall i, j :: 0 <= i < j < |s| ==> s[i].tag != s[j].tag
  }

  lemma {:induction false} InsertMembers(x: TagCount, s: seq<TagCount>)
    ensures |Insert(x, s)| == |s| + 1
    ensures forall y :: y in Insert(x, s) <==> y == x || y in s
    decreases |s|
  {
    if s != [] && s[0].count > x.count {
      InsertMembers(x, s[1..]);
      assert s == [s[0]] + s[1..];
    }
  }

  lemma {:induction false} InsertPermutes(x: TagCount, s: seq<TagCount>)
    ensures multiset(Insert(x, s)) == multiset([x] + s)
    decreases |s|
  {
    if s != [] && s[0].count > x.count {
      InsertPermutes(x, s[1..]);
      assert s == [s[0]] + s[1..];
      assert [x] + s == [x] + [s[0]] + s[1..];
    }
  }

  lemma {:induction false} InsertBounded(x: TagCount, s: seq<TagCount>, c: int)
    requires AllAtMost(s, c) && x.count <= c
    ensures AllAtMost(Insert(x, s), c)
    decreases |s|
  {
    if s != [] && s[0].count > x.count {
      InsertBounded(x, s[1..], c);
      var r := Insert(x, s);
      forall k | 0 < k < |r| ensures r[k].count <= c {
        assert r[k] == Insert(x, s[1..])[k - 1];
      }
    }
  }

  lemma {:induction false} InsertSorted(x: TagCount, s: seq<TagCount>)
    requires SortedByCount(s)
    ensures SortedByCount(Insert(x, s))
    decreases |s|
  {
    var r := Insert(x, s);
    if s != [] && s[0].count > x.count {
      var rest := Insert(x, s[1..]);
      InsertSorted(x, s[1..]);
      InsertBounded(x, s[1..], s[0].count);
      InsertMembers(x, s[1..]);
      forall i, j | 0 <= i < j < |r| ensures r[i].count >= r[j].count {
        assert r[j] == rest[j - 1];
        if i > 0 {
          assert r[i] == rest[i - 1];
        }
      }
    } else {
      forall i, j | 0 <= i < j < |r| ensures r[i].count >= r[j].count {
        assert r[j] == s[j - 1];
        if i > 0 {
          assert r[i] == s[i - 1];
        } else {
          assert s[0].count >= s[j - 1].count;
        }
      }
    }
  }

  lemma {:induction false} InsertStable(x: TagCount, s: seq<TagCount>)
    ensures forall c :: WithCount(Insert(x, s), c) == (if x.count == c then [x] else []) + WithCount(s, c)
    decreases |s|
  {
    if s != [] && s[0].count > x.count {
      InsertStable(x, s[1..]);
      var r := Insert(x, s);
      forall c ensures WithCount(r, c) == (if x.count == c then [x] else []) + WithCount(s, c) {
        assert r == [s[0]] + Insert(x, s[1..]);
        assert WithCount(r, c) == (if s[0].count == c then [s[0]] else []) + WithCount(Insert(x, s[1..]), c);
      }
    } else {
      forall c ensures WithCount(Insert(x, s), c) == (if x.count == c then [x] else []) + WithCount(s, c) {
        assert ([x] + s)[1..] == s;
      }
    }
  }

  lemma {:induction false} InsertDistinct(x: TagCount, s: seq<TagCount>)
    requires DistinctTags(s) && forall k :: 0 <= k < |s| ==> s[k].tag != x.tag
    ensures DistinctTags(Insert(x, s))
    decreases |s|
  {
    var r := Insert(x, s);
    if s != [] && s[0].count > x.count {
      var rest := Insert(x, s[1..]);
      InsertDistinct(x, s[1..]);
      InsertMembers(x, s[1..]);
      forall j | 0 < j < |r| ensures r[0].tag != r[j].tag {
        assert r[j] == rest[j - 1] && rest[j - 1] in rest;
        if r[j] != x {
          var m :| 0 <= m < |s[1..]| && s[1..][m] == r[j];
          assert s[m + 1] == r[j];
        }
      }
      forall i, j | 0 < i < j < |r| ensures r[i].tag != r[j].tag {
        assert r[i] == rest[i - 1] && r[j] == rest[j - 1];
      }
    } else {
      forall i, j | 0 <= i < j < |r| ensures r[i].tag != r[j].tag {
        assert r[j] == s[j - 1];
        if i > 0 {
          assert r[i] == s[i - 1];
        }
      }
    }
  }

  /** Sorting keeps the length and the entries. */
  lemma {:induction false} SortMembers(s: seq<TagCount>)
    ensures |SortByCount(s)| == |s|
    ensures forall y :: y in SortByCount(s) <==> y in s
    decreases |s|
  {
    if s != [] {
      SortMembers(s[1..]);
      InsertMembers(s[0], SortByCount(s[1..]));
      assert s == [s[0]] + s[1..];
    }
  }

  /** The sorted entries are the input entries rearranged. */
  lemma {:induction false} SortPermutes(s: seq<TagCount>)
    ensures multiset(SortByCount(s)) == multiset(s)
    decreases |s|
  {
    if s != [] {
      SortPermutes(s[1..]);
      InsertPermutes(s[0], SortByCount(s[1..]));
      assert s == [s[0]] + s[1..];
    }
  }

  /** The sorted entries are in non-increasing order of count. */
  lemma {:induction false} SortSorted(s: seq<TagCount>)
    ensures SortedByCount(SortByCount(s))
    decreases |s|
  {
    if s != [] {
      SortSorted(s[1..]);
      InsertSorted(s[0], SortByCount(s[1..]));
    }
  }

  /** Entries with equal counts keep their input order: the sort is stable. */
  lemma {:induction false} SortStable(s: seq<TagCount>)
    ensures forall c :: WithCount(SortByCount(s), c) == WithCount(s, c)
    decreases |s|
  {
    if s != [] {
      SortStable(s[1..]);
      InsertStable(s[0], SortByCount(s[1..]));
    }
  }

  /** Entries with distinct tags stay so. */
  lemma {:induction false} SortDistinct(s: seq<TagCount>)
    requires DistinctTags(s)
    ensures DistinctTags(SortByCount(s))
    decreases |s|
  {
    if s != [] {
      var rest := SortByCount(s[1..]);
      SortDistinct(s[1..]);
      SortMembers(s[1..]);
      forall k | 0 <= k < |rest| ensures rest[k].tag != s[0].tag {
        assert rest[k] in rest;
        var m :| 0 <= m < |s[1..]| && s[1..][m] == rest[k];
        assert s[m + 1] == rest[k];
      }
      InsertDistinct(s[0], rest);
    }
  }

  // ------------------------------------------------------------ the top ten

  const TopTagLimit := 10

  /** The items of the counting dict once every row is counted. */
  function TagItems(columns: seq<Option<string>>): seq<TagCount>
  {
    var tags := AllTags(columns);
    DistinctSpec(tags);
    Items(Distinct(tags), CountMap(tags))
  }

  /** The dict's items: one per distinct tag, with its count. */
  lemma TagItemsSpec(columns: seq<Option<string>>)
    ensures var items := TagItems(columns); var tags := AllTags(columns);
      && DistinctTags(items)
      && (forall y :: y in items ==> y.tag in tags && y.count == Occurrences(tags, y.tag))
      && (forall t :: t in tags ==> TagCount(t, Occurrences(tags, t)) in items)
      && |items| == |Distinct(tags)|
  {
    var tags := AllTags(columns);
    DistinctSpec(tags);
    var items := TagItems(columns);
    forall t | t in tags ensures TagCount(t, Occurrences(tags, t)) in items {
      var k :| 0 <= k < |Distinct(tags)| && Distinct(tags)[k] == t;
      assert items[k] == TagCount(t, Occurrences(tags, t));
    }
  }

  /** The `top_tags` list: the counted tags by count, largest first, at most ten. */
  function TopTags(columns: seq<Option<string>>): seq<TagCount>
  {
    Seqs.SliceTo(SortByCount(TagItems(columns)), TopTagLimit)
  }

  /** The tags part of `get_scraping_stats`: count the tags, sort the dict's items, keep ten. */
  method GetTopTags(columns: seq<Option<string>>) returns (top: seq<TagCount>)
    ensures top == TopTags(columns)
  {
    var order, counts := CountTags(columns);
    DistinctSpec(AllTags(columns));
    top := Seqs.SliceTo(SortByCount(Items(order, counts)), TopTagLimit);
  }

  /**
   * The top tags: at most ten, one entry per distinct tag, each with its
   * true count, largest count first; when fewer than ten tags exist, all of
   * them are listed.
   */
  lemma TopTagsSpec(columns: seq<Option<string>>)
    ensures var top := TopTags(columns); var tags := AllTags(columns);
      && |top| == (if |Distinct(tags)| < TopTagLimit then |Distinct(tags)| else TopTagLimit)
      && SortedByCount(top)
      && DistinctTags(top)
      && (forall y :: y in top ==> y.tag in tags && y.count == Occurrences(tags, y.tag))
  {
    var items := TagItems(columns);
    var sorted := SortByCount(items);
    TagItemsSpec(columns);
    SortMembers(items);
    SortSorted(items);
    SortDistinct(items);
    var top := TopTags(columns);
    assert top == sorted[..|top|];
    forall y | y in top ensures y in items {
      assert y in sorted;
    }
  }

  /** A tag left out of the top ten is counted no more often than any tag listed. */
  lemma TopTagsCut(columns: seq<Option<string>>, t: string)
    requires t in AllTags(columns)
    requires forall y :: y in TopTags(columns) ==> y.tag != t
    ensures forall y :: y in TopTags(columns) ==> y.count >= Occurrences(AllTags(columns), t)
  {
    var items := TagItems(columns);
    var sorted := SortByCount(items);
    TagItemsSpec(columns);
    SortMembers(items);
    SortSorted(items);
    var top := TopTags(columns);
    var entry := TagCount(t, Occurrences(AllTags(columns), t));
    assert entry in sorted;
    var p :| 0 <= p < |sorted| && sorted[p] == entry;
    assert top == sorted[..|top|];
    assert p >= |top|;
    forall y | y in top ensures y.count >= entry.count {
      var i :| 0 <= i < |top| && top[i] == y;
      assert sorted[i] == y;
    }
  }

  /**
   * The sort of the dict's items is a permutation, and equally frequent
   * tags keep the dict's key order, the order of the rows they first
   * appeared in.
   */
  lemma TopTagsOrder(columns: seq<Option<string>>, c: int)
    ensures multiset(SortByCount(TagItems(columns))) == multiset(TagItems(columns))
    ensures WithCount(SortByCount(TagItems(columns)), c) == WithCount(TagItems(columns), c)
  {
    SortPermutes(TagItems(columns));
    SortStable(TagItems(columns));
  }

  // ------------------------------------------------------------ row counts

  /** The row counts of `get_scraping_stats`. */
  datatype Totals = Totals(totalQuestions: int, totalAnswers: int, acceptedAnswers: int)

  function AcceptedIds(answers: map<int, ScraperStore.Answer>): set<int>
  {
    set a | a in answers && answers[a].data.isAccepted
  }

  /** The counts of questions, of answers and of accepted answers. */
  function ScrapingTotals(questions: map<int, ScraperStore.Question>, answers: map<int, ScraperStore.Answer>): Totals
  {
    Totals(|questions|, |answers|, |AcceptedIds(answers)|)
  }

  /** A subset is no larger, and a proper subset is smaller. */
  lemma SubsetSmaller(a: set<int>, b: set<int>)
    requires a <= b
    ensures |a| <= |b|
    ensures a != b ==> |a| < |b|
  {
    var rest := b - a;
    assert b == a + rest && a * rest == {};
    assert |b| == |a| + |rest|;
    if rest == {} {
      assert b == a;
    }
  }

  /** No more answers are accepted than stored, and as many only when every answer is accepted. */
  lemma AcceptedBounded(questions: map<int, ScraperStore.Question>, answers: map<int, ScraperStore.Answer>)
    ensures var r := ScrapingTotals(questions, answers);
      && 0 <= r.acceptedAnswers <= r.totalAnswers
      && (r.acceptedAnswers == r.totalAnswers <==> forall a :: a in answers ==> answers[a].data.isAccepted)
  {
    var accepted := AcceptedIds(answers);
    SubsetSmaller(accepted, answers.Keys);
    assert |answers.Keys| == |answers|;
    if forall a :: a in answers ==> answers[a].data.isAccepted {
      assert accepted == answers.Keys;
    }
    if accepted == answers.Keys {
      forall a | a in answers ensures answers[a].data.isAccepted {
        assert a in accepted;
      }
    }
  }
}
