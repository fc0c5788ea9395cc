/**
 * What the Stack Overflow scraper (services/stackoverflow_scrapper.py) does
 * with the items it fetched: how an API item becomes a question or answer
 * row, the upserts into the two tables, the storing loops with their
 * statistics, one whole `scrape_and_store` job, and the connection test.
 *
 * The database is the object `QaTables` holding the question and answer
 * tables, keyed by their Stack Overflow ids. Whether a commit fails for a
 * reason the model cannot see is an input: one flag per store attempt, in
 * order (`Fault`). The progress callback, the log lines and the
 * `started_at`/`completed_at` stamps are left out.
 */
module ScraperStore {
  import opened Wrappers
  import opened GraphUtils
  import Text
  import Batching
  import TextCleaning
  import StackOverflowConnector
  import ScraperApi

  /** The `owner` object of an item; `None` is a key it lacks. */
  datatype Owner = Owner(userId: Option<int>, displayName: Option<string>)

  /** A question item as the API returns it; `None` is a key the item lacks. */
  datatype RawQuestion = RawQuestion(
    questionId: Option<int>, title: Option<string>, body: Option<string>, tags: Option<seq<string>>,
    score: Option<int>, viewCount: Option<int>, creationDate: Option<int>, lastActivityDate: Option<int>,
    owner: Option<Owner>, isAnswered: Option<bool>, acceptedAnswerId: Option<int>)

  /** An answer item as the API returns it. */
  datatype RawAnswer = RawAnswer(
    answerId: Option<int>, questionId: Option<int>, body: Option<string>, score: Option<int>,
    creationDate: Option<int>, lastActivityDate: Option<int>, owner: Option<Owner>, isAccepted: Option<bool>)

  /** A question row; dates are seconds since the epoch, tags one comma-joined string. */
  datatype Question = Question(
    id: Option<int>, title: string, body: string, tags: string, score: int, viewCount: int,
    creationDate: int, lastActivityDate: int, ownerUserId: Option<int>, ownerDisplayName: Option<string>,
    isAnswered: bool, acceptedAnswerId: Option<int>)

  /** The fields `_parse_answer_data` takes from an answer item. */
  datatype ParsedAnswer = ParsedAnswer(
    id: Option<int>, body: string, score: int, creationDate: int, lastActivityDate: int,
    ownerUserId: Option<int>, ownerDisplayName: Option<string>, isAccepted: bool)

  /** An answer row: the parsed answer and the id of its question. */
  datatype Answer = Answer(data: ParsedAnswer, questionId: int)

  // ------------------------------------------------------------ parsing

  /** `item.get("owner", {}).get("user_id")`. */
  function OwnerUserId(owner: Option<Owner>): Option<int>
  {
    if owner.Some? then owner.value.userId else None
  }

  /** `item.get("owner", {}).get("display_name")`. */
  function OwnerDisplayName(owner: Option<Owner>): Option<string>
  {
    if owner.Some? then owner.value.displayName else None
  }

  /** `clean_html(item.get("body", ""))`: a missing body is the empty string. */
  function CleanBody(body: Option<string>): string
  {
    TextCleaning.CleanHtml(Some(body.GetOr(""))).value
  }

  /** `_parse_question_data`: every missing key takes its default. */
  function ParseQuestion(raw: RawQuestion): Question
  {
    Question(raw.questionId, raw.title.GetOr(""), CleanBody(raw.body),
             StackOverflowConnector.TagsField(raw.tags.GetOr([])),
             raw.score.GetOr(0), raw.viewCount.GetOr(0), raw.creationDate.GetOr(0), raw.lastActivityDate.GetOr(0),
             OwnerUserId(raw.owner), OwnerDisplayName(raw.owner), raw.isAnswered.GetOr(false), raw.acceptedAnswerId)
  }

  /** `_parse_answer_data`. */
  function ParseAnswer(raw: RawAnswer): ParsedAnswer
  {
    ParsedAnswer(raw.answerId, CleanBody(raw.body), raw.score.GetOr(0), raw.creationDate.GetOr(0),
                 raw.lastActivityDate.GetOr(0), OwnerUserId(raw.owner), OwnerDisplayName(raw.owner),
                 raw.isAccepted.GetOr(false))
  }

  /**
   * The stored tags read back as the item's tag list when no tag holds a
   * comma and the list is not the one empty tag; a missing list reads back
   * as no tags.
   */
  lemma ParsedTagsReadBack(raw: RawQuestion)
    requires raw.tags.Some? ==> raw.tags.value != [""]
    requires raw.tags.Some? ==> forall i :: 0 <= i < |raw.tags.value| ==> ',' !in raw.tags.value[i]
    ensures StackOverflowConnector.ParseTags(Some(ParseQuestion(raw).tags)) == raw.tags.GetOr([])
  {
    StackOverflowConnector.TagsRoundTrip(raw.tags.GetOr([]));
  }

  /**
   * A stored body is cleaned markup: no surrounding whitespace, never three
   * newlines in a row, and a missing body is stored as "".
   */
  lemma StoredBodyClean(body: Option<string>)
    ensures var b := CleanBody(body);
      && (b == [] || (!Text.IsSpace(b[0]) && !Text.IsSpace(b[|b| - 1])))
      && TextCleaning.NoTripleNewline(b)
      && (body.None? ==> b == "")
  {
    if body.GetOr("") != "" {
      TextCleaning.CleanedShape(body.GetOr(""));
    }
  }

  /**
   * The accepted-answer ids of the parsed questions, in order, keeping only
   * truthy ones (`if q.get("accepted_answer_id")`: present and not 0).
   */
  function AcceptedAnswerIds(qs: seq<Question>): (r: seq<int>)
    ensures |r| <= |qs|
    decreases |qs|
  {
    if qs == [] then []
    else
      var rest := AcceptedAnswerIds(qs[..|qs| - 1]);
      var last := qs[|qs| - 1].acceptedAnswerId;
      if last.Some? && last.value != 0 then rest + [last.value] else rest
  }

  /** An id is collected exactly when some question names it as its accepted answer, and 0 never is. */
  lemma {:induction false} AcceptedAnswerIdsComplete(qs: seq<Question>)
    ensures forall x :: x in AcceptedAnswerIds(qs) <==>
      x != 0 && exists i :: 0 <= i < |qs| && qs[i].acceptedAnswerId == Some(x)
    decreases |qs|
  {
    if qs != [] {
      var front := qs[..|qs| - 1];
      AcceptedAnswerIdsComplete(front);
      forall x
        ensures x in AcceptedAnswerIds(qs) <==> x != 0 && exists i :: 0 <= i < |qs| && qs[i].acceptedAnswerId == Some(x)
      {
        if x != 0 && exists i :: 0 <= i < |qs| && qs[i].acceptedAnswerId == Some(x) {
          var i :| 0 <= i < |qs| && qs[i].acceptedAnswerId == Some(x);
          if i < |qs| - 1 {
            assert front[i] == qs[i];
          }
        }
        if x in AcceptedAnswerIds(qs) && x !in AcceptedAnswerIds(front) {
          assert qs[|qs| - 1].acceptedAnswerId == Some(x);
        }
        if x in AcceptedAnswerIds(front) {
          var i :| 0 <= i < |front| && front[i].acceptedAnswerId == Some(x);
          assert qs[i] == front[i];
        }
      }
    }
  }

  // ------------------------------------------------------------ search parameters

  /** The arguments of `scrape_and_store`. */
  datatype ScrapeArgs = ScrapeArgs(count: int, daysBack: int, tags: Option<seq<string>>, minScore: int,
                                   onlyAccepted: bool, startPage: int)

  const SecondsPerDay := 86400

  /** `if not tags: tags = ["sql"]`. */
  function SearchTags(tags: Option<seq<string>>): (r: seq<string>)
    ensures |r| >= 1
  {
    if tags.None? || tags.value == [] then ["sql"] else tags.value
  }

  /**
   * The search parameters of a job, `now` being the timestamp of the
   * moment the job starts: tags joined with ";", questions from `daysBack`
   * days back, a first page size of at most 100, bodies included, the
   * minimum score, and `accepted` only when accepted answers are required.
   */
  function SearchParams(args: ScrapeArgs, now: int): (p: ScraperApi.Params)
    ensures "tagged" in p && "fromdate" in p && "pagesize" in p && "filter" in p && "min" in p
    ensures p["pagesize"] == Int(Batching.Min(args.count, ScraperApi.PageLimit))
    ensures p["fromdate"] == Int(now - args.daysBack * SecondsPerDay)
    ensures p["min"] == Int(args.minScore) && p["filter"] == Str("withbody")
    ensures "accepted" in p <==> args.onlyAccepted
    ensures args.onlyAccepted ==> p["accepted"] == Bool(true)
  {
    var p := map["tagged" := Str(Text.Join(SearchTags(args.tags), ";")),
                 "fromdate" := Int(now - args.daysBack * SecondsPerDay),
                 "pagesize" := Int(Batching.Min(args.count, ScraperApi.PageLimit)),
                 "filter" := Str("withbody"),
                 "min" := Int(args.minScore)];
    if args.onlyAccepted then p["accepted" := Bool(true)] else p
  }

  /**
   * The `tagged` value names the tags: splitting it at ";" gives the
   * requested tags back when none holds a ";", and `["sql"]` when none were
   * requested.
   */
  lemma TaggedNamesTags(args: ScrapeArgs, now: int)
    requires args.tags.Some? ==> forall i :: 0 <= i < |args.tags.value| ==> ';' !in args.tags.value[i]
    ensures SearchParams(args, now)["tagged"].Str?
    ensures var tagged := SearchParams(args, now)["tagged"].s;
      && Text.Split(tagged, ';') == SearchTags(args.tags)
      && (args.tags.None? || args.tags == Some([]) ==> tagged == "sql")
  {
    assert ";" == [';'];
    Text.SplitJoin(SearchTags(args.tags), ';');
  }

  // ------------------------------------------------------------ the tables

  /** Whether store attempt `i` hits a failing commit. */
  function Fault(faults: seq<bool>, i: nat): bool
  {
    i < |faults| && faults[i]
  }

  /** Storing a question fails when it has no id to merge on or its commit fails. */
  predicate QuestionFails(q: Question, fault: bool)
  {
    q.id.None? || fault
  }

  /** `db.merge(question)`: insert, or replace the row with the same id. */
  function UpsertQuestion(table: map<int, Question>, q: Question, fault: bool): map<int, Question>
  {
    if QuestionFails(q, fault) then table else table[q.id.value := q]
  }

  /** What `_store_answer_orm` does with an answer. */
  datatype Outcome = Stored | QuestionMissing | Failed

  /**
   * An answer whose question is not in the table is skipped; otherwise it
   * fails without an id to merge on or when its commit fails, and is stored
   * otherwise.
   */
  function AnswerOutcome(questions: map<int, Question>, raw: RawAnswer, fault: bool): Outcome
  {
    if raw.questionId.None? || raw.questionId.value !in questions then QuestionMissing
    else if raw.answerId.None? || fault then Failed
    else Stored
  }

  /** The answers table after one `_store_answer_orm`. */
  function UpsertAnswer(questions: map<int, Question>, table: map<int, Answer>, raw: RawAnswer, fault: bool): map<int, Answer>
  {
    if AnswerOutcome(questions, raw, fault) == Stored
    then table[raw.answerId.value := Answer(ParseAnswer(raw), raw.questionId.value)]
    else table
  }

  /** The question and answer tables the scraper writes. */
  class QaTables {
    var questions: map<int, Question>
    var answers: map<int, Answer>

    /** Every answer row refers to a stored question: the answers table's foreign key. */
    ghost predicate Valid()
      reads this
    {
      forall a :: a in answers ==> answers[a].questionId in questions
    }

    constructor()
      ensures questions == map[] && answers == map[] && Valid()
    {
      questions := map[];
      answers := map[];
    }

    /** `_store_question_orm` without its statistics: whether the question was stored. */
    method MergeQuestion(q: Question, fault: bool) returns (stored: bool)
      requires Valid()
      modifies this
      ensures stored <==> !QuestionFails(q, fault)
      ensures questions == UpsertQuestion(old(questions), q, fault) && answers == old(answers)
      ensures old(questions).Keys <= questions.Keys
      ensures Valid()
    {
      if q.id.None? || fault {
        return false;
      }
      questions := questions[q.id.value := q];
      stored := true;
    }

    /** `_store_answer_orm` without its statistics: what became of the answer. */
    method MergeAnswer(raw: RawAnswer, fault: bool) returns (outcome: Outcome)
      requires Valid()
      modifies this
      ensures outcome == AnswerOutcome(questions, raw, fault)
      ensures questions == old(questions) && answers == UpsertAnswer(old(questions), old(answers), raw, fault)
      ensures outcome == Stored ==> raw.answerId.value in answers && answers[raw.answerId.value].questionId == raw.questionId.value
      ensures Valid()
    {
      if raw.questionId.None? || raw.questionId.value !in questions {
        return QuestionMissing;
      }
      if raw.answerId.None? || fault {
        return Failed;
      }
      answers := answers[raw.answerId.value := Answer(ParseAnswer(raw), raw.questionId.value)];
      outcome := Stored;
    }
  }

  // ------------------------------------------------------------ storing loops

  /** The `stats` dict of a job, without its time stamps. */
  datatype Stats = Stats(questionsFetched: int, questionsStored: int, questionsSkipped: int,
                         answersFetched: int, answersStored: int, answersSkipped: int, errors: int)

  /** The question table after the first `n` questions were merged in order. */
  function QuestionsAfter(table: map<int, Question>, qs: seq<Question>, faults: seq<bool>, n: nat): map<int, Question>
    requires n <= |qs|
  {
    if n == 0 then table else UpsertQuestion(QuestionsAfter(table, qs, faults, n - 1), qs[n - 1], Fault(faults, n - 1))
  }

  /** The ids of the questions among the first `n` that were stored, in order. */
  function StoredIds(qs: seq<Question>, faults: seq<bool>, n: nat): (r: seq<int>)
    requires n <= |qs|
    ensures |r| <= n
  {
    if n == 0 then []
    else StoredIds(qs, faults, n - 1) + (if QuestionFails(qs[n - 1], Fault(faults, n - 1)) then [] else [qs[n - 1].id.value])
  }

  /** Merging keeps every earlier row and adds exactly the ids stored. */
  lemma {:induction false} QuestionsAfterKeys(table: map<int, Question>, qs: seq<Question>, faults: seq<bool>, n: nat)
    requires n <= |qs|
    ensures QuestionsAfter(table, qs, faults, n).Keys == table.Keys + set x | x in StoredIds(qs, faults, n)
  {
    if n > 0 {
      QuestionsAfterKeys(table, qs, faults, n - 1);
    }
  }

  /** Upserts: a question stored with no later successful merge of its id is the row kept for that id. */
  lemma {:induction false} LastMergeWins(table: map<int, Question>, qs: seq<Question>, faults: seq<bool>, n: nat, j: nat)
    requires j < n <= |qs| && !QuestionFails(qs[j], Fault(faults, j))
    requires forall k :: j < k < n && !QuestionFails(qs[k], Fault(faults, k)) ==> qs[k].id != qs[j].id
    ensures qs[j].id.value in QuestionsAfter(table, qs, faults, n)
    ensures QuestionsAfter(table, qs, faults, n)[qs[j].id.value] == qs[j]
  {
    if j < n - 1 {
      LastMergeWins(table, qs, faults, n - 1, j);
    }
  }

  /**
   * The question loop of `scrape_and_store`: each question is merged in
   * order; a stored one has its id collected, and a failed one counts as
   * an error (in `_store_question_orm`) and as skipped.
   */
  method StoreQuestions(db: QaTables, qs: seq<Question>, faults: seq<bool>, stats: Stats)
    returns (ids: seq<int>, stats': Stats)
    requires db.Valid()
    modifies db
    ensures db.Valid()
    ensures db.questions == QuestionsAfter(old(db.questions), qs, faults, |qs|) && db.answers == old(db.answers)
    ensures ids == StoredIds(qs, faults, |qs|)
    ensures stats' == stats.(questionsStored := stats.questionsStored + |ids|,
                             questionsSkipped := stats.questionsSkipped + (|qs| - |ids|),
                             errors := stats.errors + (|qs| - |ids|))
  {
    ids := [];
    stats' := stats;
    var i := 0;
    while i < |qs|
      invariant 0 <= i <= |qs| && db.Valid()
      invariant db.questions == QuestionsAfter(old(db.questions), qs, faults, i) && db.answers == old(db.answers)
      invariant ids == StoredIds(qs, faults, i)
      invariant stats' == stats.(questionsStored := stats.questionsStored + |ids|,
                                 questionsSkipped := stats.questionsSkipped + (i - |ids|),
                                 errors := stats.errors + (i - |ids|))
    {
      var stored := db.MergeQuestion(qs[i], Fault(faults, i));
      if stored {
        ids := ids + [qs[i].id.value];
        stats' := stats'.(questionsStored := stats'.questionsStored + 1);
      } else {
        stats' := stats'.(errors := stats'.errors + 1);
        stats' := stats'.(questionsSkipped := stats'.questionsSkipped + 1);
      }
      i := i + 1;
    }
  }

  /** The outcome of each answer, the question table staying as it is while answers are stored. */
  function Outcomes(questions: map<int, Question>, raws: seq<RawAnswer>, faults: seq<bool>): (r: seq<Outcome>)
    ensures |r| == |raws|
  {
    seq(|raws|, i requires 0 <= i < |raws| => AnswerOutcome(questions, raws[i], Fault(faults, i)))
  }

  function CountOf(os: seq<Outcome>, o: Outcome): nat
  {
    if os == [] then 0 else CountOf(os[..|os| - 1], o) + (if os[|os| - 1] == o then 1 else 0)
  }

  /** Every answer is counted exactly once: stored, skipped or an error. */
  lemma {:induction false} OutcomesPartition(os: seq<Outcome>)
    ensures CountOf(os, Stored) + CountOf(os, QuestionMissing) + CountOf(os, Failed) == |os|
  {
    if os != [] {
      OutcomesPartition(os[..|os| - 1]);
    }
  }

  /** The answers table after the first `n` answers were merged in order. */
  function AnswersAfter(questions: map<int, Question>, table: map<int, Answer>, raws: seq<RawAnswer>, faults: seq<bool>, n: nat): map<int, Answer>
    requires n <= |raws|
  {
    if n == 0 then table else UpsertAnswer(questions, AnswersAfter(questions, table, raws, faults, n - 1), raws[n - 1], Fault(faults, n - 1))
  }

  /**
   * An answer loop of `scrape_and_store`: each answer is merged in order,
   * and counted as stored, as skipped when its question is missing, or as
   * an error.
   */
  method StoreAnswers(db: QaTables, raws: seq<RawAnswer>, faults: seq<bool>, stats: Stats) returns (stats': Stats)
    requires db.Valid()
    modifies db
    ensures db.Valid()
    ensures db.questions == old(db.questions)
    ensures db.answers == AnswersAfter(old(db.questions), old(db.answers), raws, faults, |raws|)
    ensures var os := Outcomes(old(db.questions), raws, faults);
      stats' == stats.(answersStored := stats.answersStored + CountOf(os, Stored),
                       answersSkipped := stats.answersSkipped + CountOf(os, QuestionMissing),
                       errors := stats.errors + CountOf(os, Failed))
  {
    ghost var os := Outcomes(db.questions, raws, faults);
    stats' := stats;
    var i := 0;
    while i < |raws|
      invariant 0 <= i <= |raws| && db.Valid()
      invariant db.questions == old(db.questions)
      invariant db.answers == AnswersAfter(old(db.questions), old(db.answers), raws, faults, i)
      invariant stats' == stats.(answersStored := stats.answersStored + CountOf(os[..i], Stored),
                                 answersSkipped := stats.answersSkipped + CountOf(os[..i], QuestionMissing),
                                 errors := stats.errors + CountOf(os[..i], Failed))
    {
      var outcome := db.MergeAnswer(raws[i], Fault(faults, i));
      assert os[..i + 1][..i] == os[..i];
      match outcome {
        case Stored => stats' := stats'.(answersStored := stats'.answersStored + 1);
        case QuestionMissing => stats' := stats'.(answersSkipped := stats'.answersSkipped + 1);
        case Failed => stats' := stats'.(errors := stats'.errors + 1);
      }
      i := i + 1;
    }
    assert os[..|raws|] == os;
  }

  // ------------------------------------------------------------ a whole job

  /**
   * The world a job runs in: the timestamp it starts at, the replies to
   * its three kinds of call (question pages, accepted answers by id,
   * answers by question), and the failing commits of its three store
   * loops.
   */
  datatype Environment = Environment(
    now: int,
    searchReplies: seq<ScraperApi.Reply<RawQuestion>>,
    acceptedReplies: seq<ScraperApi.Reply<RawAnswer>>,
    answerReplies: seq<ScraperApi.Reply<RawAnswer>>,
    questionFaults: seq<bool>, acceptedFaults: seq<bool>, answerFaults: seq<bool>)

  function ParseAll(raws: seq<RawQuestion>): (r: seq<Question>)
    ensures |r| == |raws|
  {
    seq(|raws|, i requires 0 <= i < |raws| => ParseQuestion(raws[i]))
  }

  /**
   * The answers table after a job: the accepted answers of the parsed
   * questions merged first, then the answers of the questions stored, each
   * against the question table `questions` the question loop left.
   */
  function AnswersStored(questions: map<int, Question>, answers: map<int, Answer>, parsed: seq<Question>,
                         stored: seq<int>, env: Environment): map<int, Answer>
  {
    var accepted := ScraperApi.BatchedItems(env.acceptedReplies, AcceptedAnswerIds(parsed), 0);
    var byQuestion := ScraperApi.BatchedItems(env.answerReplies, stored, 0);
    AnswersAfter(questions, AnswersAfter(questions, answers, accepted, env.acceptedFaults, |accepted|),
                 byQuestion, env.answerFaults, |byQuestion|)
  }

  /**
   * `scrape_and_store`: fetch at most `count` questions and store them;
   * fetch and store the accepted answers of all parsed questions, stored
   * or not; then fetch and store the answers of the questions stored.
   * Every question fetched is stored or skipped, and every answer fetched
   * is stored, skipped or an error; `acceptedFetched` is the number of
   * accepted answers fetched, which `stats` does not record. Rows are only
   * ever added or replaced.
   */
  method ScrapeAndStore(db: QaTables, args: ScrapeArgs, env: Environment)
    returns (stats: Stats, ghost acceptedFetched: nat)
    requires db.Valid()
    modifies db
    ensures db.Valid()
    ensures 0 <= stats.questionsFetched <= Batching.Max(args.count, 0)
    ensures stats.questionsStored + stats.questionsSkipped == stats.questionsFetched
    ensures stats.questionsStored >= 0 && stats.questionsSkipped >= 0
    ensures stats.answersStored + stats.answersSkipped + stats.errors
            == stats.questionsSkipped + acceptedFetched + stats.answersFetched
    ensures old(db.questions).Keys <= db.questions.Keys
    ensures var parsed := ParseAll(ScraperApi.QuestionsFetched(env.searchReplies, args.count));
      var stored := StoredIds(parsed, env.questionFaults, |parsed|);
      && stats.questionsFetched == |parsed| && stats.questionsStored == |stored|
      && stats.answersFetched == |ScraperApi.BatchedItems(env.answerReplies, stored, 0)|
      && db.questions == QuestionsAfter(old(db.questions), parsed, env.questionFaults, |parsed|)
      && db.answers == AnswersStored(db.questions, old(db.answers), parsed, stored, env)
  {
    var params := SearchParams(args, env.now);
    var raws, _ := ScraperApi.FetchQuestions(env.searchReplies, params, args.count, args.startPage);
    stats := Stats(|raws|, 0, 0, 0, 0, 0, 0);
    var parsed := ParseAll(raws);
    ghost var before := db.questions;
    var questionIds;
    questionIds, stats := StoreQuestions(db, parsed, env.questionFaults, stats);
    QuestionsAfterKeys(before, parsed, env.questionFaults, |parsed|);
    acceptedFetched := 0;
    var acceptedIds := AcceptedAnswerIds(parsed);
    ghost var accepted0 := ScraperApi.BatchedItems(env.acceptedReplies, acceptedIds, 0);
    ghost var answers0 := old(db.answers);
    if acceptedIds == [] {
      assert accepted0 == [];
      assert AnswersAfter(db.questions, answers0, accepted0, env.acceptedFaults, 0) == answers0;
    }
    if acceptedIds != [] {
      var accepted, _ := ScraperApi.FetchAcceptedAnswers(env.acceptedReplies, acceptedIds);
      acceptedFetched := |accepted|;
      OutcomesPartition(Outcomes(db.questions, accepted, env.acceptedFaults));
      stats := StoreAnswers(db, accepted, env.acceptedFaults, stats);
    }
    ghost var byQuestion0 := ScraperApi.BatchedItems(env.answerReplies, questionIds, 0);
    ghost var afterAccepted := db.answers;
    if questionIds == [] {
      assert byQuestion0 == [];
      assert AnswersAfter(db.questions, afterAccepted, byQuestion0, env.answerFaults, 0) == afterAccepted;
    }
    if questionIds != [] {
      var answers, _ := ScraperApi.FetchAnswers(env.answerReplies, questionIds);
      stats := stats.(answersFetched := |answers|);
      OutcomesPartition(Outcomes(db.questions, answers, env.answerFaults));
      stats := StoreAnswers(db, answers, env.answerFaults, stats);
    }
  }

  // ------------------------------------------------------------ connection test

  /** The dict `test_api_connection` returns. */
  datatype ConnectionReport = ConnectionReport(success: bool, error: Option<string>,
                                               quotaRemaining: Option<int>, result: Option<string>)

  /** The call the connection test makes: one SQL question. */
  function TestRequest(): (r: ScraperApi.Request)
    ensures r.url == ScraperApi.BaseUrl + "/questions"
    ensures "pagesize" in r.params && r.params["pagesize"] == Int(1)
    ensures "tagged" in r.params && r.params["tagged"] == Str("sql")
    ensures "site" in r.params && r.params["site"] == Str("stackoverflow")
  {
    ScraperApi.RequestFor("questions", map["pagesize" := Int(1), "tagged" := Str("sql")])
  }

  const FetchedPrefix := "Successfully fetched "
  const FetchedSuffix := " test question(s)"

  /**
   * `test_api_connection` given the reply to its call: a failed call
   * reports its error; otherwise success with the quota and the number of
   * questions fetched.
   */
  function TestApiConnection<T>(reply: ScraperApi.Reply<T>): (r: ConnectionReport)
    ensures r.success <==> reply.Ok?
    ensures !r.success ==> r.error == Some(reply.error) && r.result.None?
    ensures r.success ==> r.error.None? && r.quotaRemaining == reply.value.quotaRemaining && r.result.Some?
  {
    var data := ScraperApi.MakeRequest(reply);
    if data.error.Some? then ConnectionReport(false, data.error, None, None)
    else ConnectionReport(true, None, data.quotaRemaining,
                          Some(FetchedPrefix + Text.NatToString(|data.items|) + FetchedSuffix))
  }

  /** The success message names the number of questions the reply held, in decimal. */
  lemma ConnectionMessageCounts<T>(reply: ScraperApi.Reply<T>)
    requires reply.Ok?
    ensures var msg := TestApiConnection(reply).result.value;
      var digits := msg[|FetchedPrefix|..|msg| - |FetchedSuffix|];
      && Text.StartsWith(msg, FetchedPrefix) && Text.EndsWith(msg, FetchedSuffix)
      && Text.IsDigits(digits) && Text.ParseDigits(digits) == |reply.value.items|
  {
    var n := |reply.value.items|;
    var msg := TestApiConnection(reply).result.value;
    assert msg == FetchedPrefix + Text.NatToString(n) + FetchedSuffix;
    assert msg[|FetchedPrefix|..|msg| - |FetchedSuffix|] == Text.NatToString(n);
    Text.NatToStringParses(n);
  }
}
