/**
 * The Stack Overflow connector (services/stackoverflow_connector.py): the
 * questions it reads back from the database, the choice of the best answer,
 * the conversion of question/answer pairs into LangChain documents and the
 * paginated question listing. The database is a parameter.
 */
module StackOverflowConnector {
  import opened Wrappers
  import opened GraphUtils
  import Text
  import Answers
  import Pagination

  /** An answer as the connector returns it. */
  datatype StoredAnswer = StoredAnswer(stackOverflowId: int, body: string, score: int, isAccepted: bool)

  /** A question with its answers, as the connector returns it (`qa_pairs`). */
  datatype QaPair = QaPair(
    stackOverflowId: int,
    title: string,
    body: Option<string>,
    tags: seq<string>,
    score: int,
    viewCount: int,
    answers: seq<StoredAnswer>)

  /** A question row of the database: its tags are one comma-separated column. */
  datatype QuestionRow = QuestionRow(
    stackOverflowId: int,
    title: string,
    body: Option<string>,
    tagsColumn: Option<string>,
    score: int,
    viewCount: int,
    answers: seq<StoredAnswer>)

  // ---------------------------------------------------------------- tags

  /** `",".join(tags) if tags else ""`: how the tags are stored in document metadata. */
  function TagsField(tags: seq<string>): string
  {
    if tags == [] then "" else Text.Join(tags, ",")
  }

  /** `tags.split(",") if tags else []`: how a tags column is read back. */
  function ParseTags(column: Option<string>): (r: seq<string>)
    ensures column.None? || column == Some("") ==> r == []
    ensures column.Some? && column.value != "" ==> |r| >= 1
  {
    match column
    case None => []
    case Some(s) => if s == "" then [] else Text.Split(s, ',')
  }

  /**
   * Reading back the stored tags gives the tags again, as long as no tag
   * holds a comma and the list is not the single empty tag (which is
   * stored as "" and read back as no tags).
   */
  lemma TagsRoundTrip(tags: seq<string>)
    requires forall i :: 0 <= i < |tags| ==> ',' !in tags[i]
    requires tags != [""]
    ensures ParseTags(Some(TagsField(tags))) == tags
  {
    if tags != [] {
      assert "," == [','];
      if |tags| == 1 {
        assert Text.Join(tags, ",") == tags[0];
      } else {
        assert Text.Join(tags, ",") == tags[0] + "," + Text.Join(tags[1..], ",");
      }
      Text.SplitJoin(tags, ',');
    }
  }

  /** The single empty tag does not survive the round trip. */
  lemma EmptyTagLost()
    ensures TagsField([""]) == ""
    ensures ParseTags(Some(TagsField([""]))) == []
  {
  }

  /** A database row as the connector returns it. */
  function FromRow(row: QuestionRow): (q: QaPair)
    ensures q.stackOverflowId == row.stackOverflowId && q.answers == row.answers
    ensures q.tags == ParseTags(row.tagsColumn)
  {
    QaPair(row.stackOverflowId, row.title, row.body, ParseTags(row.tagsColumn), row.score, row.viewCount, row.answers)
  }

  /**
   * `get_questions_by_ids`: no ids means no query and no questions; a
   * database error gives no questions. `query` is the database lookup of
   * the rows whose id is in `ids`.
   */
  function GetQuestionsByIds(ids: seq<int>, query: seq<int> -> Result<seq<QuestionRow>>): (r: seq<QaPair>)
    ensures ids == [] ==> r == []
    ensures ids != [] && query(ids).Err? ==> r == []
    ensures ids != [] && query(ids).Ok? ==>
              |r| == |query(ids).value| &&
              forall i :: 0 <= i < |r| ==> r[i] == FromRow(query(ids).value[i])
  {
    if ids == [] then []
    else match query(ids)
      case Err(_) => []
      case Ok(rows) => seq(|rows|, i requires 0 <= i < |rows| => FromRow(rows[i]))
  }

  // --------------------------------------------------------- best answer

  /** The view of a stored answer the shared best-answer rule works on. */
  function Rating(a: StoredAnswer): (r: Answers.Answer)
    ensures r.isAccepted == a.isAccepted && r.Score() == a.score
  {
    Answers.Answer(a.body, Some(a.score), a.isAccepted)
  }

  function Ratings(answers: seq<StoredAnswer>): (r: seq<Answers.Answer>)
    ensures |r| == |answers|
    ensures forall i :: 0 <= i < |r| ==> r[i] == Rating(answers[i])
  {
    seq(|answers|, i requires 0 <= i < |answers| => Rating(answers[i]))
  }

  /** `_get_best_answer`: `None` exactly when there are no answers. */
  function BestAnswer(answers: seq<StoredAnswer>): (r: Option<StoredAnswer>)
    ensures r.None? <==> answers == []
    ensures r.Some? ==> r.value in answers
  {
    match Answers.BestIndex(Ratings(answers))
    case None => None
    case Some(i) => Some(answers[i])
  }

  /**
   * The best answer is the first accepted one; without an accepted answer it
   * is the first one of highest score (what `max` by score returns).
   */
  lemma BestAnswerRule(answers: seq<StoredAnswer>) returns (i: nat)
    requires answers != []
    ensures i < |answers| && BestAnswer(answers) == Some(answers[i])
    ensures (exists j :: 0 <= j < |answers| && answers[j].isAccepted) ==>
              answers[i].isAccepted && forall j :: 0 <= j < i ==> !answers[j].isAccepted
    ensures (forall j :: 0 <= j < |answers| ==> !answers[j].isAccepted) ==>
              && (forall j :: 0 <= j < |answers| ==> answers[j].score <= answers[i].score)
              && (forall j :: 0 <= j < i ==> answers[j].score < answers[i].score)
  {
    var rs := Ratings(answers);
    i := Answers.BestAnswerChoice(rs);
    if exists j :: 0 <= j < |answers| && answers[j].isAccepted {
      var j :| 0 <= j < |answers| && answers[j].isAccepted;
      assert rs[j].isAccepted;
    }
  }

  // ----------------------------------------------------------- documents

  /** The body of a question, `''` when it is missing or empty. */
  function BodyText(q: QaPair): string
  {
    q.body.GetOr("")
  }

  /** The text of a combined question/answer document. */
  function PairContent(q: QaPair, a: StoredAnswer): string
  {
    "Frage: " + q.title + "\n\n    " + BodyText(q) + "\n\n    Antwort: " + a.body
  }

  /** The text of a question document. */
  function QuestionContent(q: QaPair): string
  {
    "Frage: " + q.title + "\n\n    " + BodyText(q)
  }

  /** The text of an answer document: the title, a blank line and the answer after 24 spaces. */
  function AnswerContent(q: QaPair, a: StoredAnswer): string
  {
    "Antwort zu: " + q.title + "\n\n" + "                        " + a.body
  }

  function PairMetadata(q: QaPair, a: StoredAnswer): Metadata
  {
    map[
      "source" := Str("stackoverflow"),
      "type" := Str("question_answer_pair"),
      "question_id" := Int(q.stackOverflowId),
      "answer_id" := Int(a.stackOverflowId),
      "question_score" := Int(q.score),
      "answer_score" := Int(a.score),
      "tags" := Str(TagsField(q.tags)),
      "is_accepted_answer" := Bool(a.isAccepted),
      "view_count" := Int(q.viewCount)]
  }

  function QuestionMetadata(q: QaPair): Metadata
  {
    map[
      "source" := Str("stackoverflow"),
      "type" := Str("question"),
      "question_id" := Int(q.stackOverflowId),
      "question_score" := Int(q.score),
      "tags" := Str(TagsField(q.tags)),
      "view_count" := Int(q.viewCount)]
  }

  function AnswerMetadata(q: QaPair, a: StoredAnswer): Metadata
  {
    map[
      "source" := Str("stackoverflow"),
      "type" := Str("answer"),
      "question_id" := Int(q.stackOverflowId),
      "answer_id" := Int(a.stackOverflowId),
      "question_title" := Str(q.title),
      "answer_score" := Int(a.score),
      "is_accepted" := Bool(a.isAccepted),
      "tags" := Str(TagsField(q.tags))]
  }

  function AnswerDoc(q: QaPair, a: StoredAnswer): Doc
  {
    Doc(AnswerContent(q, a), AnswerMetadata(q, a))
  }

  /** Whether a question becomes one combined document. */
  predicate Combines(q: QaPair, includeAnswers: bool, combineQa: bool)
  {
    combineQa && includeAnswers && q.answers != []
  }

  /** The documents of one question, in the order `convert_to_documents` appends them. */
  function QuestionDocs(q: QaPair, includeAnswers: bool, combineQa: bool): seq<Doc>
  {
    if Combines(q, includeAnswers, combineQa) then
      var best := BestAnswer(q.answers).value;
      [Doc(PairContent(q, best), PairMetadata(q, best))]
    else
      [Doc(QuestionContent(q), QuestionMetadata(q))] +
      (if includeAnswers then seq(|q.answers|, i requires 0 <= i < |q.answers| => AnswerDoc(q, q.answers[i])) else [])
  }

  /** The documents of all questions, question after question. */
  function Documents(qs: seq<QaPair>, includeAnswers: bool, combineQa: bool): seq<Doc>
  {
    if qs == [] then []
    else Documents(qs[..|qs| - 1], includeAnswers, combineQa) + QuestionDocs(qs[|qs| - 1], includeAnswers, combineQa)
  }

  /**
   * What one question yields: a single combined document carrying the best
   * answer; or the question document followed, when answers are included,
   * by one answer document per answer in order.
   */
  lemma QuestionDocsShape(q: QaPair, includeAnswers: bool, combineQa: bool)
    ensures var docs := QuestionDocs(q, includeAnswers, combineQa);
      && |docs| == (if Combines(q, includeAnswers, combineQa) then 1
                    else if includeAnswers then 1 + |q.answers| else 1)
      && (Combines(q, includeAnswers, combineQa) ==>
            && docs[0].metadata["type"] == Str("question_answer_pair")
            && docs[0].metadata["answer_id"] == Int(BestAnswer(q.answers).value.stackOverflowId))
      && (!Combines(q, includeAnswers, combineQa) ==>
            && docs[0].metadata["type"] == Str("question")
            && forall i :: 1 <= i < |docs| ==>
                 docs[i].metadata["type"] == Str("answer") &&
                 docs[i].metadata["answer_id"] == Int(q.answers[i - 1].stackOverflowId))
  {
    var docs := QuestionDocs(q, includeAnswers, combineQa);
    if !Combines(q, includeAnswers, combineQa) && includeAnswers {
      forall i | 1 <= i < |docs|
        ensures docs[i] == AnswerDoc(q, q.answers[i - 1])
      {
      }
    }
  }

  /** Every document of a question names the Stack Overflow source and the question. */
  lemma QuestionDocsSource(q: QaPair, includeAnswers: bool, combineQa: bool)
    ensures var docs := QuestionDocs(q, includeAnswers, combineQa);
      forall i :: 0 <= i < |docs| ==>
        docs[i].metadata["source"] == Str("stackoverflow") && docs[i].metadata["question_id"] == Int(q.stackOverflowId)
  {
    var docs := QuestionDocs(q, includeAnswers, combineQa);
    forall i | 0 <= i < |docs|
      ensures docs[i].metadata["source"] == Str("stackoverflow") && docs[i].metadata["question_id"] == Int(q.stackOverflowId)
    {
      if Combines(q, includeAnswers, combineQa) {
        var best := BestAnswer(q.answers).value;
        assert docs[i].metadata == PairMetadata(q, best);
      } else if i == 0 {
        assert docs[i].metadata == QuestionMetadata(q);
      } else {
        assert docs[i].metadata == AnswerMetadata(q, q.answers[i - 1]);
      }
    }
  }

  /** Total number of answers over the questions. */
  function AnswerCount(qs: seq<QaPair>): nat
  {
    if qs == [] then 0 else AnswerCount(qs[..|qs| - 1]) + |qs[|qs| - 1].answers|
  }

  /** Without combining, there is a document per question plus, when included, one per answer. */
  lemma {:induction false} SeparateCount(qs: seq<QaPair>, includeAnswers: bool)
    ensures |Documents(qs, includeAnswers, false)| == |qs| + (if includeAnswers then AnswerCount(qs) else 0)
  {
    if qs != [] {
      SeparateCount(qs[..|qs| - 1], includeAnswers);
    }
  }

  /** Combining with answers included, each answered question gives one document, an unanswered one none... */
  lemma {:induction false} CombinedCount(qs: seq<QaPair>)
    requires forall i :: 0 <= i < |qs| ==> qs[i].answers != []
    ensures |Documents(qs, true, true)| == |qs|
  {
    if qs != [] {
      CombinedCount(qs[..|qs| - 1]);
    }
  }

  /** The answer documents of `q.answers[..k]`. */
  method AppendAnswers(q: QaPair, docs0: seq<Doc>) returns (docs: seq<Doc>)
    ensures docs == docs0 + seq(|q.answers|, i requires 0 <= i < |q.answers| => AnswerDoc(q, q.answers[i]))
  {
    docs := docs0;
    var k := 0;
    while k < |q.answers|
      invariant 0 <= k <= |q.answers|
      invariant docs == docs0 + seq(k, i requires 0 <= i < k => AnswerDoc(q, q.answers[i]))
    {
      docs := docs + [AnswerDoc(q, q.answers[k])];
      k := k + 1;
    }
  }

  /** The documents one question adds, built as the loop body of `convert_to_documents` builds them. */
  method ConvertQuestion(q: QaPair, includeAnswers: bool, combineQa: bool) returns (docs: seq<Doc>)
    ensures docs == QuestionDocs(q, includeAnswers, combineQa)
  {
    if combineQa && includeAnswers && q.answers != [] {
      var best := BestAnswer(q.answers);
      docs := [Doc(PairContent(q, best.value), PairMetadata(q, best.value))];
    } else {
      docs := [Doc(QuestionContent(q), QuestionMetadata(q))];
      if includeAnswers {
        docs := AppendAnswers(q, docs);
      }
    }
  }

  /** `convert_to_documents`. */
  method ConvertToDocuments(qs: seq<QaPair>, includeAnswers: bool, combineQa: bool) returns (docs: seq<Doc>)
    ensures docs == Documents(qs, includeAnswers, combineQa)
  {
    docs := [];
    var n := 0;
    while n < |qs|
      invariant 0 <= n <= |qs|
      invariant docs == Documents(qs[..n], includeAnswers, combineQa)
    {
      var added := ConvertQuestion(qs[n], includeAnswers, combineQa);
      assert qs[..n + 1][..n] == qs[..n];
      assert Documents(qs[..n + 1], includeAnswers, combineQa) == Documents(qs[..n], includeAnswers, combineQa) + added;
      docs := docs + added;
      n := n + 1;
    }
    assert qs[..n] == qs;
  }

  // ---------------------------------------------------------- pagination

  /** The paginated listing's figures (`get_questions_paginated`). */
  datatype PageInfo = PageInfo(total: nat, page: int, pageSize: int, totalPages: int, hasNext: bool, hasPrev: bool)

  /**
   * The figures of page `page` of `total` questions with `pageSize` per
   * page. A zero page size with questions present divides by zero inside
   * the guarded block and yields the error answer: no items, no pages.
   */
  function QuestionsPage(total: nat, page: int, pageSize: int): (r: PageInfo)
    ensures r.page == page && r.pageSize == pageSize
    ensures total > 0 && pageSize == 0 ==> r == PageInfo(0, page, pageSize, 0, false, false)
    ensures !(total > 0 && pageSize == 0) ==>
              && r.total == total
              && (r.hasNext <==> page < r.totalPages)
              && (r.hasPrev <==> page > 1)
              && (total == 0 ==> r.totalPages == 0)
              && (pageSize > 0 ==> r.totalPages == Pagination.Pages(total, pageSize))
  {
    if total > 0 && pageSize == 0 then PageInfo(0, page, pageSize, 0, false, false)
    else
      var totalPages := if total > 0 then Pagination.FloorDiv(total + pageSize - 1, pageSize) else 0;
      PageInfo(total, page, pageSize, totalPages, page < totalPages, page > 1)
  }

  /** With a positive page size, `has_next` holds exactly when items remain after this page. */
  lemma HasNextIffItemsRemain(total: nat, page: int, pageSize: int)
    requires pageSize > 0
    ensures QuestionsPage(total, page, pageSize).hasNext <==> Pagination.Offset(page + 1, pageSize) < total
  {
    Pagination.MorePagesIffMoreItems(total, pageSize, page);
  }
}
