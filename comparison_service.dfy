/**
 * Comparing graph types on the same question (services/comparison_service.py):
 * the evaluations of a question grouped by graph type, the metrics of each
 * group, the accepted answer, and the filtered, paginated listing of the
 * evaluated questions.
 *
 * The database's answers arrive as sequences in the order the queries return
 * them: the evaluations of a question newest first, the listed questions in
 * the order of the chosen sort key. Dates are integers.
 */
module ComparisonService {
  import opened Wrappers
  import Text
  import Pagination
  import Answers
  import StackOverflowConnector
  import ScraperStats
  import EvaluationService

  type Evaluation = EvaluationService.Evaluation

  /** The group of an evaluation: `graph_type or "adaptive_rag"`, for old rows without one. */
  function GroupKey(e: Evaluation): string
  {
    EvaluationService.GraphTypeOr(e.graphType)
  }

  // ------------------------------------------------------------ grouping

  /** A `defaultdict(list)`: its keys in insertion order and the list under each key. */
  datatype Groups = Groups(order: seq<string>, members: map<string, seq<Evaluation>>)

  /** `groups[key(e)].append(e)`. */
  function Add(g: Groups, e: Evaluation): Groups
  {
    var k := GroupKey(e);
    if k in g.members then Groups(g.order, g.members[k := g.members[k] + [e]])
    else Groups(g.order + [k], g.members[k := [e]])
  }

  /** The groups after the evaluations were appended one by one. */
  function Grouped(evals: seq<Evaluation>): Groups
  {
    if evals == [] then Groups([], map[]) else Add(Grouped(evals[..|evals| - 1]), evals[|evals| - 1])
  }

  /** The grouping loop of `get_comparisons_by_question_id`. */
  method GroupByGraphType(evals: seq<Evaluation>) returns (groups: Groups)
    ensures groups == Grouped(evals)
  {
    groups := Groups([], map[]);
    var i := 0;
    while i < |evals|
      invariant 0 <= i <= |evals|
      invariant groups == Grouped(evals[..i])
    {
      assert evals[..i + 1][..i] == evals[..i];
      groups := Add(groups, evals[i]);
      i := i + 1;
    }
    assert evals[..i] == evals;
  }

  /** The evaluations of group `k`, in their order. */
  function InGroup(evals: seq<Evaluation>, k: string): seq<Evaluation>
  {
    if evals == [] then []
    else InGroup(evals[..|evals| - 1], k) + (if GroupKey(evals[|evals| - 1]) == k then [evals[|evals| - 1]] else [])
  }

  predicate NoDuplicates(s: seq<string>)
  {
    forall i, j :: 0 <= i < j < |s| ==> s[i] != s[j]
  }

  /** The number of evaluations held by the groups listed in `order`. */
  function Size(order: seq<string>, members: map<string, seq<Evaluation>>): nat
  {
    if order == [] then 0
    else Size(order[..|order| - 1], members)
         + (if order[|order| - 1] in members then |members[order[|order| - 1]]| else 0)
  }

  /** Changing a group the order does not list does not change the size. */
  lemma {:induction false} SizeOther(order: seq<string>, members: map<string, seq<Evaluation>>, k: string, v: seq<Evaluation>)
    requires k !in order
    ensures Size(order, members[k := v]) == Size(order, members)
  {
    if order != [] {
      SizeOther(order[..|order| - 1], members, k, v);
    }
  }

  /** Growing one listed group by one element grows the size by one. */
  lemma {:induction false} SizeGrow(order: seq<string>, members: map<string, seq<Evaluation>>, k: string, e: Evaluation)
    requires k in members && NoDuplicates(order)
    requires k in order
    ensures Size(order, members[k := members[k] + [e]]) == Size(order, members) + 1
  {
    var front, last := order[..|order| - 1], order[|order| - 1];
    assert NoDuplicates(front);
    if last == k {
      assert k !in front;
      SizeOther(front, members, k, members[k] + [e]);
    } else {
      assert k in front;
      SizeGrow(front, members, k, e);
    }
  }

  /** One more evaluation joins the group of its key and no other. */
  lemma InGroupSnoc(evals: seq<Evaluation>, e: Evaluation, k: string)
    ensures InGroup(evals + [e], k) == InGroup(evals, k) + (if GroupKey(e) == k then [e] else [])
  {
    assert (evals + [e])[..|evals|] == evals;
  }

  /** Each key is listed once, and the listed keys are the keys of the map. */
  ghost predicate KeysListed(g: Groups)
  {
    NoDuplicates(g.order) && forall k :: k in g.order <==> k in g.members
  }

  /** There is a group for each key that occurs, holding exactly the evaluations of that key. */
  ghost predicate GroupsFilter(evals: seq<Evaluation>, g: Groups)
  {
    && (forall k :: k in g.members <==> InGroup(evals, k) != [])
    && (forall k :: k in g.members ==> g.members[k] == InGroup(evals, k))
  }

  /** The shape the groups keep as evaluations are added. */
  ghost predicate WellGrouped(evals: seq<Evaluation>, g: Groups)
  {
    KeysListed(g) && GroupsFilter(evals, g) && Size(g.order, g.members) == |evals|
  }

  lemma AddKeysListed(g: Groups, e: Evaluation)
    requires KeysListed(g)
    ensures KeysListed(Add(g, e))
  {
    var k := GroupKey(e);
    if k !in g.members {
      var o := g.order + [k];
      forall i, j | 0 <= i < j < |o| ensures o[i] != o[j] {
        if j == |g.order| {
          assert o[i] == g.order[i];
        }
      }
    }
  }

  lemma AddGroupsFilter(evals: seq<Evaluation>, g: Groups, e: Evaluation)
    requires GroupsFilter(evals, g)
    ensures GroupsFilter(evals + [e], Add(g, e))
  {
    var s := evals + [e];
    var g' := Add(g, e);
    forall t
      ensures InGroup(s, t) == InGroup(evals, t) + (if GroupKey(e) == t then [e] else [])
    {
      InGroupSnoc(evals, e, t);
    }
  }

  lemma AddSize(evals: seq<Evaluation>, g: Groups, e: Evaluation)
    requires KeysListed(g) && Size(g.order, g.members) == |evals|
    ensures Size(Add(g, e).order, Add(g, e).members) == |evals| + 1
  {
    var k := GroupKey(e);
    if k in g.members {
      SizeGrow(g.order, g.members, k, e);
    } else {
      SizeOther(g.order, g.members, k, [e]);
      var o := g.order + [k];
      assert o[..|o| - 1] == g.order;
    }
  }

  lemma AddKeepsShape(evals: seq<Evaluation>, g: Groups, e: Evaluation, s: seq<Evaluation>)
    requires WellGrouped(evals, g) && s == evals + [e]
    ensures WellGrouped(s, Add(g, e))
  {
    AddKeysListed(g, e);
    AddGroupsFilter(evals, g, e);
    AddSize(evals, g, e);
  }

  lemma {:induction false} GroupedShape(evals: seq<Evaluation>)
    ensures WellGrouped(evals, Grouped(evals))
  {
    if evals != [] {
      var front := evals[..|evals| - 1];
      assert front + [evals[|evals| - 1]] == evals;
      GroupedShape(front);
      AddKeepsShape(front, Grouped(front), evals[|evals| - 1], evals);
    }
  }

  /**
   * Every evaluation lands in exactly one group, the one of its graph type
   * with the default applied: each group holds exactly the evaluations of
   * its key in their order, there is a group for every key that occurs and
   * for no other, and the group sizes add up to the number of evaluations.
   */
  lemma GroupingPartitions(evals: seq<Evaluation>)
    ensures var g := Grouped(evals);
            && (forall k :: k in g.members <==> exists i :: 0 <= i < |evals| && GroupKey(evals[i]) == k)
            && (forall k :: k in g.members ==> g.members[k] == InGroup(evals, k))
            && (forall i :: 0 <= i < |evals| ==> evals[i] in g.members[GroupKey(evals[i])])
            && NoDuplicates(g.order) && (forall k :: k in g.order <==> k in g.members)
            && Size(g.order, g.members) == |evals|
  {
    var g := Grouped(evals);
    GroupedShape(evals);
    assert KeysListed(g) && GroupsFilter(evals, g);
    GroupKeysOccur(evals);
    forall i | 0 <= i < |evals|
      ensures evals[i] in g.members[GroupKey(evals[i])]
    {
      InGroupComplete(evals, i);
    }
  }

  /** There is a group for exactly the keys that occur among the evaluations. */
  lemma GroupKeysOccur(evals: seq<Evaluation>)
    ensures forall k :: k in Grouped(evals).members <==> exists i :: 0 <= i < |evals| && GroupKey(evals[i]) == k
  {
    var g := Grouped(evals);
    GroupedShape(evals);
    assert GroupsFilter(evals, g);
    forall k | k in g.members
      ensures exists i :: 0 <= i < |evals| && GroupKey(evals[i]) == k
    {
      var e := InGroup(evals, k)[0];
      InGroupSound(evals, k);
      assert e in InGroup(evals, k);
      var i :| 0 <= i < |evals| && evals[i] == e;
    }
    forall i | 0 <= i < |evals|
      ensures GroupKey(evals[i]) in g.members
    {
      InGroupComplete(evals, i);
    }
  }

  lemma {:induction false} InGroupSound(evals: seq<Evaluation>, k: string)
    ensures forall e :: e in InGroup(evals, k) ==> e in evals && GroupKey(e) == k
  {
    if evals != [] {
      var front := evals[..|evals| - 1];
      InGroupSound(front, k);
      assert forall e :: e in front ==> e in evals;
    }
  }

  lemma {:induction false} InGroupComplete(evals: seq<Evaluation>, i: nat)
    requires i < |evals|
    ensures evals[i] in InGroup(evals, GroupKey(evals[i]))
  {
    var front := evals[..|evals| - 1];
    if i < |front| {
      InGroupComplete(front, i);
      assert front[i] == evals[i];
    }
  }

  // ------------------------------------------------------------ metrics of a group

  /** The values that are present, in order. */
  function Present(xs: seq<Option<real>>): (r: seq<real>)
    ensures |r| <= |xs|
  {
    if xs == [] then []
    else Present(xs[..|xs| - 1]) + (if xs[|xs| - 1].Some? then [xs[|xs| - 1].value] else [])
  }

  function Sum(xs: seq<real>): real
  {
    if xs == [] then 0.0 else Sum(xs[..|xs| - 1]) + xs[|xs| - 1]
  }

  /** `sum(vs) / len(vs) if vs else None` over the present values `vs`. */
  function Average(xs: seq<Option<real>>): (r: Option<real>)
  {
    var vs := Present(xs);
    if vs == [] then None else Some(Sum(vs) / (|vs| as real))
  }

  lemma {:induction false} PresentEmpty(xs: seq<Option<real>>)
    ensures Present(xs) == [] <==> forall i :: 0 <= i < |xs| ==> xs[i].None?
  {
    if xs != [] {
      var front := xs[..|xs| - 1];
      PresentEmpty(front);
      assert forall i :: 0 <= i < |front| ==> front[i] == xs[i];
    }
  }

  lemma {:induction false} PresentWithin(xs: seq<Option<real>>, lo: real, hi: real)
    requires forall i :: 0 <= i < |xs| && xs[i].Some? ==> lo <= xs[i].value <= hi
    ensures forall v :: v in Present(xs) ==> lo <= v <= hi
  {
    if xs != [] {
      var front := xs[..|xs| - 1];
      assert forall i :: 0 <= i < |front| ==> front[i] == xs[i];
      PresentWithin(front, lo, hi);
    }
  }

  lemma {:induction false} SumWithin(vs: seq<real>, lo: real, hi: real)
    requires forall v :: v in vs ==> lo <= v <= hi
    ensures (|vs| as real) * lo <= Sum(vs) <= (|vs| as real) * hi
  {
    if vs != [] {
      var front, last := vs[..|vs| - 1], vs[|vs| - 1];
      assert forall v :: v in front ==> v in vs;
      assert last in vs;
      assert Sum(vs) == Sum(front) + last;
      SumWithin(front, lo, hi);
      var n := |front| as real;
      ScaleSucc(n, lo);
      ScaleSucc(n, hi);
    }
  }

  lemma ScaleSucc(n: real, x: real)
    ensures (n + 1.0) * x == n * x + x
  {
  }

  /** A quotient by a positive count lies within bounds the dividend respects times the count. */
  lemma DivWithin(x: real, n: real, lo: real, hi: real)
    requires n > 0.0 && n * lo <= x <= n * hi
    ensures lo <= x / n <= hi
  {
    var q := x / n;
    assert q * n == x;
  }

  /** The average is `None` exactly when no value is present. */
  lemma AverageNone(xs: seq<Option<real>>)
    ensures Average(xs).None? <==> forall i :: 0 <= i < |xs| ==> xs[i].None?
  {
    PresentEmpty(xs);
  }

  /**
   * The average lies within any bounds all present values respect: it is
   * taken over the present values only, whatever the missing ones.
   */
  lemma AverageWithin(xs: seq<Option<real>>, lo: real, hi: real)
    requires forall i :: 0 <= i < |xs| && xs[i].Some? ==> lo <= xs[i].value <= hi
    ensures Average(xs).Some? ==> lo <= Average(xs).value <= hi
  {
    var vs := Present(xs);
    if vs != [] {
      PresentWithin(xs, lo, hi);
      SumWithin(vs, lo, hi);
      var n := |vs| as real;
      var sum := Sum(vs);
      assert n > 0.0 && n * lo <= sum <= n * hi;
      DivWithin(sum, n, lo, hi);
      assert Average(xs) == Some(sum / n);
    }
  }

  /** `max(evaluations, key=created_at)`: the first of the newest evaluations. */
  function Latest(g: seq<Evaluation>): (r: nat)
    requires g != []
    ensures r < |g|
    ensures forall j :: 0 <= j < |g| ==> g[j].createdAt <= g[r].createdAt
    ensures forall j :: 0 <= j < r ==> g[j].createdAt < g[r].createdAt
  {
    if |g| == 1 then 0
    else
      var t := Latest(g[1..]) + 1;
      if g[0].createdAt >= g[t].createdAt then 0 else t
  }

  datatype Summary = Summary(
    evaluationCount: nat,
    avgBertF1: Option<real>,
    avgBertPrecision: Option<real>,
    avgBertRecall: Option<real>,
    avgProcessingTimeMs: Option<real>,
    avgConfidenceScore: Option<real>,
    latest: Evaluation,
    latestDate: int)

  function F1s(g: seq<Evaluation>): seq<Option<real>>
  {
    seq(|g|, i requires 0 <= i < |g| => g[i].bertF1)
  }

  function Precisions(g: seq<Evaluation>): seq<Option<real>>
  {
    seq(|g|, i requires 0 <= i < |g| => g[i].bertPrecision)
  }

  function Recalls(g: seq<Evaluation>): seq<Option<real>>
  {
    seq(|g|, i requires 0 <= i < |g| => g[i].bertRecall)
  }

  function Times(g: seq<Evaluation>): seq<Option<real>>
  {
    seq(|g|, i requires 0 <= i < |g| =>
      if g[i].processingTimeMs.Some? then Some(g[i].processingTimeMs.value as real) else None)
  }

  function Confidences(g: seq<Evaluation>): seq<Option<real>>
  {
    seq(|g|, i requires 0 <= i < |g| => g[i].confidenceScore)
  }

  /** The metrics of one non-empty group. */
  function Summarize(g: seq<Evaluation>): (s: Summary)
    requires g != []
    ensures s.evaluationCount == |g|
    ensures s.latest in g && s.latestDate == s.latest.createdAt
    ensures forall e :: e in g ==> e.createdAt <= s.latestDate
    ensures s.avgBertF1 == Average(F1s(g)) && s.avgBertPrecision == Average(Precisions(g))
    ensures s.avgBertRecall == Average(Recalls(g)) && s.avgConfidenceScore == Average(Confidences(g))
    ensures s.avgProcessingTimeMs == Average(Times(g))
  {
    var l := g[Latest(g)];
    assert forall e :: e in g ==> e.createdAt <= l.createdAt;
    Summary(|g|, Average(F1s(g)), Average(Precisions(g)), Average(Recalls(g)),
            Average(Times(g)), Average(Confidences(g)), l, l.createdAt)
  }

  /** `_calculate_metrics_summary`: one summary per non-empty group, in the groups' order. */
  method MetricsSummary(groups: Groups) returns (summary: map<string, Summary>)
    ensures forall k :: k in summary <==> k in groups.order && k in groups.members && groups.members[k] != []
    ensures forall k :: k in summary ==> summary[k] == Summarize(groups.members[k])
  {
    summary := map[];
    var i := 0;
    while i < |groups.order|
      invariant 0 <= i <= |groups.order|
      invariant forall k :: k in summary <==> k in groups.order[..i] && k in groups.members && groups.members[k] != []
      invariant forall k :: k in summary ==> summary[k] == Summarize(groups.members[k])
    {
      var k := groups.order[i];
      assert groups.order[..i + 1] == groups.order[..i] + [k];
      if k in groups.members && groups.members[k] != [] {
        summary := summary[k := Summarize(groups.members[k])];
      }
      i := i + 1;
    }
    assert groups.order[..i] == groups.order;
  }

  // ------------------------------------------------------------ one question

  /** The first accepted answer, if any. */
  function AcceptedAnswer(answers: seq<Answers.Answer>): (r: Option<Answers.Answer>)
    ensures r.None? <==> forall j :: 0 <= j < |answers| ==> !answers[j].isAccepted
    ensures r.Some? ==> exists i :: 0 <= i < |answers| && answers[i] == r.value && r.value.isAccepted
                                    && forall j :: 0 <= j < i ==> !answers[j].isAccepted
  {
    match Answers.FirstAccepted(answers)
    case None => None
    case Some(i) => Some(answers[i])
  }

  /** The question row `get_comparisons_by_question_id` reads, with its answers. */
  datatype QuestionRecord = QuestionRecord(stackOverflowId: int, title: string, answers: seq<Answers.Answer>)

  datatype Comparison = Comparison(
    question: QuestionRecord,
    byGraphType: Groups,
    metrics: map<string, Summary>,
    acceptedAnswer: Option<Answers.Answer>)

  function NotFound(id: int): string
  {
    "Question with id " + Text.IntToString(id) + " not found"
  }

  /**
   * `get_comparisons_by_question_id`: `question` is the row found for the
   * id, `evals` the question's evaluations newest first.
   */
  method ComparisonsByQuestion(id: int, question: Option<QuestionRecord>, evals: seq<Evaluation>)
    returns (r: Result<Comparison>)
    ensures question.None? ==> r == Err(NotFound(id))
    ensures question.Some? ==>
              && r.Ok? && r.value.question == question.value
              && r.value.byGraphType == Grouped(evals)
              && r.value.acceptedAnswer == AcceptedAnswer(question.value.answers)
              && (forall k :: k in r.value.metrics <==> exists i :: 0 <= i < |evals| && GroupKey(evals[i]) == k)
              && (forall k :: k in r.value.metrics ==> InGroup(evals, k) != [] && r.value.metrics[k] == Summarize(InGroup(evals, k)))
  {
    if question.None? {
      return Err(NotFound(id));
    }
    var groups := GroupByGraphType(evals);
    GroupingPartitions(evals);
    GroupedShape(evals);
    var metrics := MetricsSummary(groups);
    return Ok(Comparison(question.value, groups, metrics, AcceptedAnswer(question.value.answers)));
  }

  // ------------------------------------------------------------ the listing

  /** `[t.strip().lower() for t in tags.split(',') if t.strip()]`, or none for no tags. */
  function TagFilters(tags: Option<string>): (r: seq<string>)
  {
    if tags.None? || tags.value == "" then []
    else
      var kept := ScraperStats.KeptPieces(Text.Split(tags.value, ','));
      seq(|kept|, i requires 0 <= i < |kept| => Text.Lower(kept[i]))
  }

  /** Every tag filter is non-empty, without surrounding whitespace and in lower case. */
  lemma TagFiltersShape(tags: Option<string>)
    ensures forall f :: f in TagFilters(tags) ==> ScraperStats.IsStrippedTag(f) && Text.Lower(f) == f
  {
    if tags.Some? && tags.value != "" {
      var kept := ScraperStats.KeptPieces(Text.Split(tags.value, ','));
      ScraperStats.KeptPiecesShape(Text.Split(tags.value, ','));
      forall i | 0 <= i < |kept|
        ensures ScraperStats.IsStrippedTag(Text.Lower(kept[i])) && Text.Lower(Text.Lower(kept[i])) == Text.Lower(kept[i])
      {
        var t := kept[i];
        assert t in kept;
        assert Text.Lower(t)[0] == Text.LowerChar(t[0]);
        assert Text.Lower(t)[|t| - 1] == Text.LowerChar(t[|t| - 1]);
      }
    }
  }

  /** A question row of the listing query, joined with its evaluation counts. */
  datatype ListedRow = ListedRow(
    questionId: int,
    title: string,
    tags: Option<string>,
    score: int,
    graphTypes: seq<Option<string>>,
    totalEvaluations: nat,
    graphTypeCount: nat)

  /** `lower(tags) LIKE '%' || f || '%'`: a null tags column matches nothing. */
  predicate HasTag(row: ListedRow, f: string)
  {
    row.tags.Some? && Text.Contains(Text.Lower(row.tags.value), f)
  }

  /** The rows that match the one tag filter `f`, in order. */
  function WithTag(rows: seq<ListedRow>, f: string): (r: seq<ListedRow>)
    ensures |r| <= |rows|
  {
    if rows == [] then []
    else WithTag(rows[..|rows| - 1], f) + (if HasTag(rows[|rows| - 1], f) then [rows[|rows| - 1]] else [])
  }

  predicate HasAllTags(row: ListedRow, fs: seq<string>)
  {
    forall i :: 0 <= i < |fs| ==> HasTag(row, fs[i])
  }

  /** The rows that match every filter in `fs`, in order. */
  function WithAllTags(rows: seq<ListedRow>, fs: seq<string>): seq<ListedRow>
  {
    if rows == [] then []
    else WithAllTags(rows[..|rows| - 1], fs) + (if HasAllTags(rows[|rows| - 1], fs) then [rows[|rows| - 1]] else [])
  }

  lemma HasAllTagsSnoc(row: ListedRow, fs: seq<string>, f: string)
    ensures HasAllTags(row, fs + [f]) <==> HasAllTags(row, fs) && HasTag(row, f)
  {
    assert forall i :: 0 <= i < |fs| ==> (fs + [f])[i] == fs[i];
    assert (fs + [f])[|fs|] == f;
  }

  lemma WithTagSnoc(rows: seq<ListedRow>, x: ListedRow, f: string)
    ensures WithTag(rows + [x], f) == WithTag(rows, f) + (if HasTag(x, f) then [x] else [])
  {
    assert (rows + [x])[..|rows|] == rows;
  }

  /** One more filter narrows the conjunction by that filter. */
  lemma {:induction false} WithAllTagsSnoc(rows: seq<ListedRow>, fs: seq<string>, f: string)
    ensures WithAllTags(rows, fs + [f]) == WithTag(WithAllTags(rows, fs), f)
  {
    if rows != [] {
      var front, last := rows[..|rows| - 1], rows[|rows| - 1];
      WithAllTagsSnoc(front, fs, f);
      HasAllTagsSnoc(last, fs, f);
      var base := WithAllTags(front, fs);
      assert WithAllTags(rows, fs + [f]) == WithAllTags(front, fs + [f]) + (if HasAllTags(last, fs + [f]) then [last] else []);
      if HasAllTags(last, fs) {
        assert WithAllTags(rows, fs) == base + [last];
        WithTagSnoc(base, last, f);
      } else {
        assert WithAllTags(rows, fs) == base + [] == base;
        assert WithAllTags(rows, fs + [f]) == WithAllTags(front, fs + [f]) + [];
      }
    }
  }

  /**
   * The `for tag in tag_list: query = query.filter(...)` loop: the rows
   * left are those, in order, that match every filter (the filters are
   * combined with AND).
   */
  method ApplyTagFilters(rows: seq<ListedRow>, fs: seq<string>) returns (left: seq<ListedRow>)
    ensures left == WithAllTags(rows, fs)
    ensures forall x :: x in left <==> x in rows && HasAllTags(x, fs)
  {
    left := rows;
    WithAllTagsNone(rows);
    var i := 0;
    while i < |fs|
      invariant 0 <= i <= |fs|
      invariant left == WithAllTags(rows, fs[..i])
    {
      WithAllTagsSnoc(rows, fs[..i], fs[i]);
      assert fs[..i + 1] == fs[..i] + [fs[i]];
      left := WithTag(left, fs[i]);
      i := i + 1;
    }
    assert fs[..i] == fs;
    WithAllTagsComplete(rows, fs);
  }

  lemma {:induction false} WithAllTagsNone(rows: seq<ListedRow>)
    ensures WithAllTags(rows, []) == rows
  {
    if rows != [] {
      WithAllTagsNone(rows[..|rows| - 1]);
    }
  }

  lemma {:induction false} WithAllTagsComplete(rows: seq<ListedRow>, fs: seq<string>)
    ensures forall x :: x in WithAllTags(rows, fs) <==> x in rows && HasAllTags(x, fs)
  {
    if rows != [] {
      var front := rows[..|rows| - 1];
      WithAllTagsComplete(front, fs);
      assert rows == front + [rows[|rows| - 1]];
    }
  }

  /** The listing's parameters, as the route passes them. */
  datatype ListParams = ListParams(
    page: int,
    pageSize: int,
    multipleOnly: bool,
    tags: Option<string>,
    minScore: Option<int>,
    titleSearch: Option<string>)

  /** The filters other than the tags: graph-type count, minimum score, title search. */
  predicate OtherFilters(row: ListedRow, p: ListParams)
  {
    && (p.multipleOnly ==> row.graphTypeCount > 1)
    && (p.minScore.Some? ==> row.score >= p.minScore.value)
    && (p.titleSearch.Some? && p.titleSearch.value != "" ==>
          Text.Contains(Text.Lower(row.title), Text.Lower(p.titleSearch.value)))
  }

  function WithOthers(rows: seq<ListedRow>, p: ListParams): seq<ListedRow>
  {
    if rows == [] then []
    else WithOthers(rows[..|rows| - 1], p) + (if OtherFilters(rows[|rows| - 1], p) then [rows[|rows| - 1]] else [])
  }

  /** One listed question. */
  datatype ListItem = ListItem(
    questionId: int,
    title: string,
    availableGraphTypes: seq<string>,
    totalEvaluations: nat,
    hasMultipleGraphTypes: bool,
    tags: seq<string>,
    score: int)

  /** `[gt for gt in graph_types if gt]`. */
  function Named(graphTypes: seq<Option<string>>): (r: seq<string>)
    ensures forall t :: t in r ==> t != "" && Some(t) in graphTypes
  {
    if graphTypes == [] then []
    else
      var last := graphTypes[|graphTypes| - 1];
      Named(graphTypes[..|graphTypes| - 1]) + (if last.Some? && last.value != "" then [last.value] else [])
  }

  function Item(row: ListedRow): ListItem
  {
    ListItem(row.questionId, row.title, Named(row.graphTypes), row.totalEvaluations, row.graphTypeCount > 1,
             StackOverflowConnector.ParseTags(row.tags), row.score)
  }

  /** `math.ceil(total / page_size) if page_size > 0 else 0`. */
  function TotalPages(total: nat, pageSize: int): (n: nat)
    ensures pageSize <= 0 ==> n == 0
    ensures pageSize > 0 ==> total <= n * pageSize && (n > 0 ==> (n - 1) * pageSize < total)
  {
    if pageSize > 0 then Pagination.Pages(total, pageSize) else 0
  }

  datatype Listing = Listing(
    items: seq<ListItem>,
    total: nat,
    page: int,
    pageSize: int,
    totalPages: nat,
    hasNext: bool,
    hasPrev: bool)

  /** The rows of a page: `OFFSET (page - 1) * page_size LIMIT page_size`. */
  function PageRows(rows: seq<ListedRow>, page: int, pageSize: int): (r: seq<ListedRow>)
    requires page >= 1 && pageSize >= 1
    ensures |r| <= pageSize
  {
    var offset := Pagination.Offset(page, pageSize);
    assert offset >= 0 by { Pagination.MulMonotone(0, page - 1, pageSize); }
    if offset >= |rows| then []
    else if offset + pageSize >= |rows| then rows[offset..]
    else rows[offset..offset + pageSize]
  }

  /** The rows every filter of the listing keeps, in order. */
  function Selected(rows: seq<ListedRow>, p: ListParams): seq<ListedRow>
  {
    WithOthers(WithAllTags(rows, TagFilters(p.tags)), p)
  }

  lemma {:induction false} WithOthersComplete(rows: seq<ListedRow>, p: ListParams)
    ensures forall x :: x in WithOthers(rows, p) <==> x in rows && OtherFilters(x, p)
  {
    if rows != [] {
      var front := rows[..|rows| - 1];
      WithOthersComplete(front, p);
      assert rows == front + [rows[|rows| - 1]];
    }
  }

  /** A row is listed exactly when it matches every tag filter and every other filter. */
  lemma SelectedSpec(rows: seq<ListedRow>, p: ListParams)
    ensures forall x :: x in Selected(rows, p) <==> x in rows && HasAllTags(x, TagFilters(p.tags)) && OtherFilters(x, p)
  {
    var tagged := WithAllTags(rows, TagFilters(p.tags));
    WithAllTagsComplete(rows, TagFilters(p.tags));
    WithOthersComplete(tagged, p);
  }

  function Items(rows: seq<ListedRow>): (r: seq<ListItem>)
    ensures |r| == |rows|
  {
    seq(|rows|, i requires 0 <= i < |rows| => Item(rows[i]))
  }

  /** Every page before the last is full. */
  lemma PageFullBeforeLast(rows: seq<ListedRow>, page: int, pageSize: int)
    requires page >= 1 && pageSize >= 1
    requires page < TotalPages(|rows|, pageSize)
    ensures |PageRows(rows, page, pageSize)| == pageSize
  {
    Pagination.MorePagesIffMoreItems(|rows|, pageSize, page);
    assert Pagination.Offset(page, pageSize) + pageSize == page * pageSize;
  }

  /**
   * `get_all_evaluated_questions` over the joined rows in the order of the
   * chosen sort key; the route admits only `page >= 1` and
   * `1 <= page_size <= 100`.
   */
  method EvaluatedQuestions(rows: seq<ListedRow>, p: ListParams) returns (r: Listing)
    requires p.page >= 1 && 1 <= p.pageSize <= 100
    ensures r.total == |Selected(rows, p)|
    ensures r.items == Items(PageRows(Selected(rows, p), p.page, p.pageSize)) && |r.items| <= p.pageSize
    ensures r.page == p.page && r.pageSize == p.pageSize
    ensures r.totalPages == TotalPages(r.total, p.pageSize)
    ensures r.hasNext <==> p.page * p.pageSize < r.total
    ensures r.hasPrev <==> p.page > 1
  {
    var tagged := ApplyTagFilters(rows, TagFilters(p.tags));
    var selected := WithOthers(tagged, p);
    var pageRows := PageRows(selected, p.page, p.pageSize);
    var items: seq<ListItem> := [];
    var i := 0;
    while i < |pageRows|
      invariant 0 <= i <= |pageRows|
      invariant items == Items(pageRows[..i])
    {
      assert pageRows[..i + 1] == pageRows[..i] + [pageRows[i]];
      items := items + [Item(pageRows[i])];
      i := i + 1;
    }
    assert pageRows[..i] == pageRows;
    var total := |selected|;
    var pages := TotalPages(total, p.pageSize);
    Pagination.MorePagesIffMoreItems(total, p.pageSize, p.page);
    r := Listing(items, total, p.page, p.pageSize, pages, p.page < pages, p.page > 1);
  }
}
