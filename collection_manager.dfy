/**
 * The custom collections of services/collection_manager.py and the tables
 * they are kept in (database.py): collection records, the question
 * memberships of a collection (unique per collection and question) and the
 * PDF document rows of a collection (unique per collection and path).
 * A session's staged rows and its rollback on error are modelled by
 * changing nothing on an error path and everything at once otherwise.
 */
module CollectionManager {
  import opened Wrappers
  import Text
  import Pagination

  /** A `CollectionConfiguration` row; timestamps are opaque numbers. */
  datatype Collection = Collection(
    name: string,
    description: Option<string>,
    collectionType: string,
    questionCount: int,
    lastRebuiltAt: Option<int>,
    chromaExists: bool,
    lastHealthCheck: Option<int>,
    needsRebuild: bool,
    rebuildError: Option<string>)

  /** A new collection holds no questions and has no vector store yet (the column defaults). */
  function NewCollection(name: string, description: Option<string>, collectionType: string): Collection
  {
    Collection(name, description, collectionType, 0, None, false, None, true, None)
  }

  /** The message of the `ValueError` for a collection id with no record. */
  function NotFound(id: int): string
  {
    "Collection with ID " + Text.IntToString(id) + " not found"
  }

  /** The message of the `ValueError` for adding documents to a collection of another type. */
  function NotPdf(collectionType: string): string
  {
    "Collection is not a PDF collection (type: " + collectionType + ")"
  }

  /** A `CollectionDocument` row. */
  datatype DocumentRow = DocumentRow(collectionId: int, path: string, name: string, addedBy: Option<string>)

  /** `os.path.basename(path)`: what follows the last `/`. */
  function Basename(path: string): string
    decreases |path|
  {
    if |path| == 0 || path[|path| - 1] == '/' then ""
    else Basename(path[..|path| - 1]) + [path[|path| - 1]]
  }

  /**
   * The basename is the longest suffix without a `/`: it holds no `/`, and
   * it is either the whole path or preceded by a `/`.
   */
  lemma {:induction false} BasenameShape(path: string)
    ensures '/' !in Basename(path)
    ensures |Basename(path)| <= |path| && Basename(path) == path[|path| - |Basename(path)|..]
    ensures |Basename(path)| < |path| ==> path[|path| - |Basename(path)| - 1] == '/'
    decreases |path|
  {
    if |path| > 0 && path[|path| - 1] != '/' {
      var init := path[..|path| - 1];
      BasenameShape(init);
      var b := Basename(init);
      assert Basename(path) == b + [path[|path| - 1]];
      assert path[|path| - |b| - 1..] == init[|init| - |b|..] + [path[|path| - 1]];
    }
  }

  /** The ids of a list, as `.in_(ids)` or `set(ids)` sees them. */
  function IdSet<T>(ids: seq<T>): set<T>
  {
    set x | x in ids
  }

  /** Some element of a non-empty set: the one a loop over the set visits next. */
  method Pick<T>(s: set<T>) returns (x: T)
    requires s != {}
    ensures x in s
  {
    x :| x in s;
  }

  /** The question memberships of collection `id`. */
  function Members(members: map<int, set<int>>, id: int): set<int>
  {
    if id in members then members[id] else {}
  }

  /** The document rows of collection `id`. */
  function RowsOf(documents: map<int, DocumentRow>, id: int): set<int>
  {
    set r | r in documents && documents[r].collectionId == id
  }

  /** The document paths of collection `id`. */
  function PathsOf(documents: map<int, DocumentRow>, id: int): set<string>
  {
    set r | r in documents && documents[r].collectionId == id :: documents[r].path
  }

  predicate NameTaken(collections: map<int, Collection>, name: string)
  {
    exists id :: id in collections && collections[id].name == name
  }

  /** The questions `add_questions_to_collection` inserts: known ids not yet in the collection. */
  function NewQuestions(known: set<int>, ids: seq<int>, existing: set<int>): set<int>
  {
    (known * IdSet(ids)) - existing
  }

  /** The memberships `remove_questions_from_collection` deletes. */
  function RemovedQuestions(existing: set<int>, ids: seq<int>): set<int>
  {
    existing * IdSet(ids)
  }

  /** The paths `add_documents_to_collection` inserts. */
  function NewPaths(paths: seq<string>, existing: set<string>): set<string>
  {
    IdSet(paths) - existing
  }

  /**
   * Adding questions counts exactly the insertions, leaves the collection
   * holding every known requested id, and adding the same ids again
   * inserts nothing.
   */
  lemma AddQuestionsCount(known: set<int>, ids: seq<int>, existing: set<int>)
    ensures |existing + NewQuestions(known, ids, existing)| == |existing| + |NewQuestions(known, ids, existing)|
    ensures existing + NewQuestions(known, ids, existing) == existing + (known * IdSet(ids))
    ensures NewQuestions(known, ids, existing + NewQuestions(known, ids, existing)) == {}
  {
    DisjointUnion(existing, NewQuestions(known, ids, existing));
  }

  lemma DisjointUnion<T>(a: set<T>, b: set<T>)
    requires a * b == {}
    ensures |a + b| == |a| + |b|
  {
  }

  /**
   * A session from `SessionLocal` (database.py:13, `autoflush=False`): rows
   * added with `db.add` stay pending until the commit flushes them, and a
   * count query sees the pending rows only when the session autoflushes.
   */
  datatype Session = Session(flushed: set<int>, pending: set<int>, autoflush: bool)

  /** `db.add` for each row. */
  function AddRows(s: Session, rows: set<int>): (r: Session)
    ensures r.flushed == s.flushed && r.pending == s.pending + rows && r.autoflush == s.autoflush
  {
    s.(pending := s.pending + rows)
  }

  /** `query(...).filter(...).count()` on the session. */
  function QueryCount(s: Session): (n: nat)
    ensures s.autoflush ==> n == |s.flushed + s.pending|
    ensures !s.autoflush ==> n == |s.flushed|
  {
    if s.autoflush then |s.flushed + s.pending| else |s.flushed|
  }

  /** The rows stored once `db.commit()` has flushed the session. */
  function Committed(s: Session): (rows: set<int>)
    ensures s.flushed <= rows && s.pending <= rows
  {
    s.flushed + s.pending
  }

  /**
   * `add_questions_to_collection` and `add_documents_to_collection` as
   * written: the new rows are added, `question_count` is queried, then the
   * session commits. The result is the stored count and the committed rows.
   */
  function AddRowsAsWritten(existing: set<int>, newRows: set<int>, autoflush: bool): (nat, set<int>)
  {
    var s := AddRows(Session(existing, {}, autoflush), newRows);
    (QueryCount(s), Committed(s))
  }

  /**
   * With the factory's `autoflush=False`, the stored count misses every row
   * the call inserts: it is the count from before the call.
   */
  lemma StaleQuestionCount(existing: set<int>, newRows: set<int>)
    requires newRows != {} && newRows * existing == {}
    ensures AddRowsAsWritten(existing, newRows, false).0 == |existing|
    ensures |AddRowsAsWritten(existing, newRows, false).1| == |existing| + |newRows|
    ensures AddRowsAsWritten(existing, newRows, false).0 < |AddRowsAsWritten(existing, newRows, false).1|
  {
    DisjointUnion(existing, newRows);
  }

  /** An empty collection given one new question stores a count of 0 while it holds 1 row. */
  lemma StaleQuestionCountExample()
    ensures AddRowsAsWritten({}, {7}, false) == (0, {7})
  {
    assert Session({}, {}, false).(pending := {} + {7}).flushed == {};
  }

  /** Counting after the flush, as intended, the stored count is the committed row count. */
  lemma FlushedCountIsRowCount(existing: set<int>, newRows: set<int>)
    ensures AddRowsAsWritten(existing, newRows, true).0 == |AddRowsAsWritten(existing, newRows, true).1|
  {
  }

  /** Removing questions counts the deleted memberships, and removing them again deletes none. */
  lemma RemoveQuestionsCount(existing: set<int>, ids: seq<int>)
    ensures |existing - IdSet(ids)| == |existing| - |RemovedQuestions(existing, ids)|
    ensures RemovedQuestions(existing - IdSet(ids), ids) == {}
  {
    var removed := RemovedQuestions(existing, ids);
    assert existing == (existing - IdSet(ids)) + removed;
    DisjointUnion(existing - IdSet(ids), removed);
  }

  /** Adding a row adds its path to its own collection and to no other. */
  lemma PathsOfAdd(documents: map<int, DocumentRow>, r: int, row: DocumentRow, id: int)
    requires r !in documents
    ensures PathsOf(documents[r := row], id) ==
            if row.collectionId == id then PathsOf(documents, id) + {row.path} else PathsOf(documents, id)
  {
    var after := documents[r := row];
    forall p | p in PathsOf(after, id)
      ensures p in PathsOf(documents, id) || (row.collectionId == id && p == row.path)
    {
      var s :| s in after && after[s].collectionId == id && after[s].path == p;
      if s != r {
        assert s in documents && documents[s].path == p;
      }
    }
    forall p | p in PathsOf(documents, id) ensures p in PathsOf(after, id) {
      var s :| s in documents && documents[s].collectionId == id && documents[s].path == p;
      assert s in after && after[s] == documents[s];
    }
    if row.collectionId == id {
      assert after[r].path == row.path;
    }
  }

  /** `(page - 1) * page_size` and `(total + page_size - 1) // page_size`, with no guard on the page size. */
  datatype PageInfo = PageInfo(offset: int, totalPages: int)

  function PageOf(total: nat, page: int, pageSize: int): (r: Result<PageInfo>)
    ensures pageSize == 0 <==> r.Err?
  {
    if pageSize == 0 then Err("integer division or modulo by zero")
    else Ok(PageInfo(Pagination.Offset(page, pageSize), Pagination.FloorDiv(total + pageSize - 1, pageSize)))
  }

  /** For a positive page size the listing pages tile the total: `ceil(total / page_size)` pages from offset 0. */
  lemma PageOfTiles(total: nat, page: int, pageSize: int)
    requires pageSize > 0
    ensures PageOf(total, page, pageSize).Ok?
    ensures PageOf(total, page, pageSize).value.totalPages == Pagination.Pages(total, pageSize)
    ensures 1 <= page <= Pagination.Pages(total, pageSize) ==> 0 <= PageOf(total, page, pageSize).value.offset < total
    ensures PageOf(total, 1, pageSize).value.offset == 0
  {
    if 1 <= page <= Pagination.Pages(total, pageSize) {
      Pagination.PageStartsInside(total, pageSize, page);
    }
  }

  /**
   * The questions listed as in a collection (joined with the question
   * table) and those listed as not in it split the question table.
   */
  function InCollection(known: set<int>, members: set<int>): set<int>
  {
    known * members
  }

  function NotInCollection(known: set<int>, members: set<int>): set<int>
  {
    known - members
  }

  lemma ListingsPartition(known: set<int>, members: set<int>)
    ensures InCollection(known, members) * NotInCollection(known, members) == {}
    ensures InCollection(known, members) + NotInCollection(known, members) == known
    ensures |InCollection(known, members)| + |NotInCollection(known, members)| == |known|
  {
    DisjointUnion(InCollection(known, members), NotInCollection(known, members));
  }

  /** `get_collection`: the record stored under `id`, if any. */
  function GetCollection(collections: map<int, Collection>, id: int): (r: Option<Collection>)
    ensures r.Some? <==> id in collections
    ensures r.Some? ==> r.value == collections[id]
  {
    if id in collections then Some(collections[id]) else None
  }

  /** The `count_added` loop of `add_questions_to_collection`: one membership per new question. */
  method InsertQuestions(existing: set<int>, newIds: set<int>) returns (rows: set<int>, count: int)
    ensures rows == existing + newIds
    ensures count == |newIds|
  {
    rows := existing;
    count := 0;
    var rest := newIds;
    while rest != {}
      invariant rest <= newIds
      invariant rows == existing + (newIds - rest)
      invariant count + |rest| == |newIds|
      decreases |rest|
    {
      var q := Pick(rest);
      assert newIds - (rest - {q}) == (newIds - rest) + {q};
      rows := rows + {q};
      count := count + 1;
      rest := rest - {q};
    }
    assert newIds - rest == newIds;
  }

  /** Unique paths per collection, and row ids below the next free id. */
  ghost predicate RowsValid(rows: map<int, DocumentRow>, next: int)
  {
    && (forall s :: s in rows ==> s < next)
    && (forall s, t ::
          (s in rows && t in rows && rows[s].collectionId == rows[t].collectionId &&
           rows[s].path == rows[t].path) ==> s == t)
  }

  /**
   * The `count_added` loop of `add_documents_to_collection`: one row per
   * new path, under fresh ids, named after the path's basename.
   */
  method InsertDocuments(documents: map<int, DocumentRow>, next0: int, id: int, newPaths: set<string>, addedBy: Option<string>)
    returns (rows: map<int, DocumentRow>, next: int, count: int)
    requires RowsValid(documents, next0)
    requires newPaths * PathsOf(documents, id) == {}
    ensures RowsValid(rows, next) && next >= next0
    ensures count == |newPaths|
    ensures PathsOf(rows, id) == PathsOf(documents, id) + newPaths
    ensures Extends(documents, rows, id, addedBy)
  {
    rows, next, count := documents, next0, 0;
    var rest := newPaths;
    while rest != {}
      invariant rest <= newPaths
      invariant RowsValid(rows, next) && next >= next0
      invariant PathsOf(rows, id) == PathsOf(documents, id) + (newPaths - rest)
      invariant Extends(documents, rows, id, addedBy)
      invariant count + |rest| == |newPaths|
      decreases |rest|
    {
      var p := Pick(rest);
      var row := DocumentRow(id, p, Basename(p), addedBy);
      InsertStep(documents, next0, rows, next, row);
      TakeOne(PathsOf(documents, id), newPaths, rest, p);
      rows := rows[next := row];
      next := next + 1;
      count := count + 1;
      rest := rest - {p};
    }
    assert newPaths - rest == newPaths;
  }

  /** Rows added for `id` leave the paths of every other collection as they were. */
  lemma ExtendsElsewhere(documents: map<int, DocumentRow>, rows: map<int, DocumentRow>, id: int, addedBy: Option<string>, j: int)
    requires Extends(documents, rows, id, addedBy) && j != id
    ensures PathsOf(rows, j) == PathsOf(documents, j)
  {
    forall p | p in PathsOf(rows, j) ensures p in PathsOf(documents, j) {
      var s :| s in rows && rows[s].collectionId == j && rows[s].path == p;
      assert s in documents;
    }
    forall p | p in PathsOf(documents, j) ensures p in PathsOf(rows, j) {
      var s :| s in documents && documents[s].collectionId == j && documents[s].path == p;
      assert s in rows && rows[s] == documents[s];
    }
  }

  lemma TakeOne<T>(a: set<T>, all: set<T>, rest: set<T>, x: T)
    requires x in rest && rest <= all
    ensures a + (all - rest) + {x} == a + (all - (rest - {x}))
  {
  }

  /** `rows` keeps every row of `documents`, and each added row belongs to `id` and is named after its path. */
  ghost predicate Extends(documents: map<int, DocumentRow>, rows: map<int, DocumentRow>, id: int, addedBy: Option<string>)
  {
    && (forall s :: s in documents ==> s in rows && rows[s] == documents[s])
    && (forall s :: s in rows && s !in documents ==> rows[s] == DocumentRow(id, rows[s].path, Basename(rows[s].path), addedBy))
  }

  /** One insertion of `add_documents_to_collection`: the loop's facts carry over to the new row. */
  lemma InsertStep(documents: map<int, DocumentRow>, next0: int, rows: map<int, DocumentRow>, next: int, row: DocumentRow)
    requires RowsValid(documents, next0) && RowsValid(rows, next) && next >= next0
    requires Extends(documents, rows, row.collectionId, row.addedBy)
    requires row.name == Basename(row.path)
    requires row.path !in PathsOf(rows, row.collectionId)
    ensures RowsValid(rows[next := row], next + 1)
    ensures Extends(documents, rows[next := row], row.collectionId, row.addedBy)
    ensures PathsOf(rows[next := row], row.collectionId) == PathsOf(rows, row.collectionId) + {row.path}
  {
    AddRow(rows, next, row);
    PathsOfAdd(rows, next, row, row.collectionId);
    assert forall s :: s in documents ==> s < next;
    ExtendsStep(documents, rows, next, row);
  }

  lemma ExtendsStep(documents: map<int, DocumentRow>, rows: map<int, DocumentRow>, next: int, row: DocumentRow)
    requires forall s :: s in documents ==> s < next
    requires Extends(documents, rows, row.collectionId, row.addedBy)
    requires row.name == Basename(row.path)
    ensures Extends(documents, rows[next := row], row.collectionId, row.addedBy)
  {
    var after := rows[next := row];
    forall s | s in documents ensures s in after && after[s] == documents[s] {
      assert s < next;
    }
    forall s | s in after && s !in documents
      ensures after[s] == DocumentRow(row.collectionId, after[s].path, Basename(after[s].path), row.addedBy)
    {
      if s != next {
        assert after[s] == rows[s];
      }
    }
  }

  /** A row under the next free id whose path its collection does not hold keeps the rows valid. */
  lemma AddRow(rows: map<int, DocumentRow>, next: int, row: DocumentRow)
    requires RowsValid(rows, next)
    requires row.path !in PathsOf(rows, row.collectionId)
    ensures RowsValid(rows[next := row], next + 1)
  {
    forall s | s in rows && rows[s].collectionId == row.collectionId ensures rows[s].path != row.path {
      assert rows[s].path in PathsOf(rows, row.collectionId);
    }
  }

  /** Unique names, and every id below the next one handed out. */
  ghost predicate CollectionsValid(collections: map<int, Collection>, nextId: int)
  {
    && (forall i, j :: i in collections && j in collections && collections[i].name == collections[j].name ==> i == j)
    && (forall i :: i in collections ==> i < nextId)
  }

  /** Memberships only of stored collections and stored questions. */
  ghost predicate MembersValid(members: map<int, set<int>>, ids: set<int>, soQuestions: set<int>)
  {
    && members.Keys <= ids
    && (forall i :: i in members ==> members[i] <= soQuestions)
  }

  /** Document rows only of stored collections, with unique paths per collection. */
  ghost predicate DocumentsValid(documents: map<int, DocumentRow>, next: int, ids: set<int>)
  {
    && (forall r :: r in documents ==> documents[r].collectionId in ids)
    && RowsValid(documents, next)
  }

  /** Changing a record's fields other than its name keeps the records valid. */
  lemma RecordUpdate(collections: map<int, Collection>, nextId: int, id: int, c: Collection)
    requires CollectionsValid(collections, nextId) && id in collections && c.name == collections[id].name
    ensures CollectionsValid(collections[id := c], nextId)
    ensures collections[id := c].Keys == collections.Keys
  {
  }

  /** The rows `add_documents_to_collection` inserts keep the document table valid. */
  lemma InsertedValid(documents: map<int, DocumentRow>, rows: map<int, DocumentRow>, next: int, ids: set<int>,
                      id: int, addedBy: Option<string>)
    requires forall r :: r in documents ==> documents[r].collectionId in ids
    requires RowsValid(rows, next) && Extends(documents, rows, id, addedBy) && id in ids
    ensures DocumentsValid(rows, next, ids)
  {
    forall s | s in rows ensures rows[s].collectionId in ids {
      if s in documents {
        assert rows[s] == documents[s];
      }
    }
  }

  /** The tables the manager works on. */
  class Db {
    var collections: map<int, Collection>
    var nextId: int
    /** The `stack_overflow_id`s of the stored questions. */
    var soQuestions: set<int>
    var members: map<int, set<int>>
    var documents: map<int, DocumentRow>
    var nextDocumentId: int

    /** Unique names, fresh ids, and membership and document rows only for stored collections. */
    ghost predicate Valid()
      reads this
    {
      && CollectionsValid(collections, nextId)
      && MembersValid(members, collections.Keys, soQuestions)
      && DocumentsValid(documents, nextDocumentId, collections.Keys)
    }

    constructor(soQuestions: set<int>)
      ensures Valid()
      ensures collections == map[] && members == map[] && documents == map[]
      ensures this.soQuestions == soQuestions
    {
      collections := map[];
      nextId := 1;
      this.soQuestions := soQuestions;
      members := map[];
      documents := map[];
      nextDocumentId := 1;
    }
  }

  /** `CollectionManager`: every operation works on the tables of its session. */
  class Manager {
    const db: Db

    constructor(db: Db)
      ensures this.db == db
    {
      this.db := db;
    }

    /** `create_collection`: a new, empty collection under a name no collection has yet. */
    method CreateCollection(name: string, description: Option<string>, collectionType: string) returns (r: Result<int>)
      requires db.Valid()
      modifies db
      ensures db.Valid()
      ensures NameTaken(old(db.collections), name) ==>
                r == Err("Collection with name '" + name + "' already exists") && unchanged(db)
      ensures !NameTaken(old(db.collections), name) ==>
                && r == Ok(old(db.nextId))
                && db.collections == old(db.collections)[r.value := NewCollection(name, description, collectionType)]
                && db.nextId == old(db.nextId) + 1
                && db.soQuestions == old(db.soQuestions) && db.members == old(db.members)
                && db.documents == old(db.documents) && db.nextDocumentId == old(db.nextDocumentId)
    {
      if NameTaken(db.collections, name) {
        return Err("Collection with name '" + name + "' already exists");
      }
      var id := db.nextId;
      db.collections := db.collections[id := NewCollection(name, description, collectionType)];
      db.nextId := id + 1;
      r := Ok(id);
    }

    /** `delete_collection`: the record goes, and with it its memberships and document rows. */
    method DeleteCollection(id: int) returns (deleted: bool)
      requires db.Valid()
      modifies db
      ensures db.Valid()
      ensures deleted <==> id in old(db.collections)
      ensures GetCollection(db.collections, id) == None
      ensures !deleted ==> unchanged(db)
      ensures deleted ==>
                && db.collections == old(db.collections) - {id}
                && db.members == old(db.members) - {id}
                && db.documents == (map r | r in old(db.documents) && old(db.documents)[r].collectionId != id :: old(db.documents)[r])
                && db.nextId == old(db.nextId) && db.soQuestions == old(db.soQuestions)
                && db.nextDocumentId == old(db.nextDocumentId)
    {
      if id !in db.collections {
        return false;
      }
      db.collections := db.collections - {id};
      db.members := db.members - {id};
      db.documents := map r | r in db.documents && db.documents[r].collectionId != id :: db.documents[r];
      deleted := true;
    }

    /**
     * `add_questions_to_collection`: inserts the known requested questions
     * the collection does not hold yet, counting them one by one, and sets
     * `question_count` to the collection's membership count.
     */
    method AddQuestionsToCollection(id: int, questionIds: seq<int>) returns (r: Result<int>)
      requires db.Valid()
      modifies db
      ensures db.Valid()
      ensures id !in old(db.collections) ==>
                r == Err(NotFound(id)) && unchanged(db)
      ensures id in old(db.collections) ==>
                var added := NewQuestions(old(db.soQuestions), questionIds, Members(old(db.members), id));
                && r == Ok(|added|)
                && db.members == old(db.members)[id := Members(old(db.members), id) + added]
                && db.collections == old(db.collections)[id := old(db.collections)[id].(questionCount := |db.members[id]|)]
                && db.nextId == old(db.nextId) && db.soQuestions == old(db.soQuestions)
                && db.documents == old(db.documents) && db.nextDocumentId == old(db.nextDocumentId)
    {
      if id !in db.collections {
        return Err(NotFound(id));
      }
      var existing := Members(db.members, id);
      var newIds := NewQuestions(db.soQuestions, questionIds, existing);
      var rows, count := InsertQuestions(existing, newIds);
      db.members := db.members[id := rows];
      db.collections := db.collections[id := db.collections[id].(questionCount := |rows|)];
      r := Ok(count);
    }

    /**
     * `remove_questions_from_collection`: deletes the collection's
     * memberships among the ids and, when the collection exists, sets
     * `question_count` to what is left.
     */
    method RemoveQuestionsFromCollection(id: int, questionIds: seq<int>) returns (count: int)
      requires db.Valid()
      modifies db
      ensures db.Valid()
      ensures count == |RemovedQuestions(Members(old(db.members), id), questionIds)|
      ensures Members(db.members, id) == Members(old(db.members), id) - IdSet(questionIds)
      ensures forall j :: j != id ==> Members(db.members, j) == Members(old(db.members), j)
      ensures db.collections == if id in old(db.collections)
                                then old(db.collections)[id := old(db.collections)[id].(questionCount := |Members(db.members, id)|)]
                                else old(db.collections)
      ensures db.nextId == old(db.nextId) && db.soQuestions == old(db.soQuestions)
      ensures db.documents == old(db.documents) && db.nextDocumentId == old(db.nextDocumentId)
    {
      var existing := Members(db.members, id);
      count := |RemovedQuestions(existing, questionIds)|;
      if id in db.members {
        db.members := db.members[id := existing - IdSet(questionIds)];
      }
      if id in db.collections {
        db.collections := db.collections[id := db.collections[id].(questionCount := |Members(db.members, id)|)];
      }
    }

    /** `get_collection_question_ids`: every membership of the collection, once each. */
    method GetCollectionQuestionIds(id: int) returns (ids: seq<int>)
      ensures IdSet(ids) == Members(db.members, id)
      ensures |ids| == |Members(db.members, id)|
    {
      var rest := Members(db.members, id);
      ids := [];
      while rest != {}
        invariant IdSet(ids) + rest == Members(db.members, id)
        invariant IdSet(ids) * rest == {}
        invariant |ids| == |IdSet(ids)|
        decreases |rest|
      {
        var q := Pick(rest);
        assert IdSet(ids + [q]) == IdSet(ids) + {q};
        DisjointUnion(IdSet(ids), {q});
        ids := ids + [q];
        rest := rest - {q};
      }
    }

    /** `update_collection_rebuild_time`. */
    method UpdateCollectionRebuildTime(id: int, now: int)
      requires db.Valid()
      modifies db
      ensures db.Valid()
      ensures db.collections == if id in old(db.collections)
                                then old(db.collections)[id := old(db.collections)[id].(lastRebuiltAt := Some(now))]
                                else old(db.collections)
      ensures db.nextId == old(db.nextId) && db.soQuestions == old(db.soQuestions) && db.members == old(db.members)
      ensures db.documents == old(db.documents) && db.nextDocumentId == old(db.nextDocumentId)
    {
      if id in db.collections {
        db.collections := db.collections[id := db.collections[id].(lastRebuiltAt := Some(now))];
      }
    }

    /** `set_rebuild_error` (with `Some(error)`) and `clear_rebuild_error` (with `None`). */
    method SetRebuildError(id: int, error: Option<string>)
      requires db.Valid()
      modifies db
      ensures db.Valid()
      ensures db.collections == if id in old(db.collections)
                                then old(db.collections)[id := old(db.collections)[id].(rebuildError := error)]
                                else old(db.collections)
      ensures db.nextId == old(db.nextId) && db.soQuestions == old(db.soQuestions) && db.members == old(db.members)
      ensures db.documents == old(db.documents) && db.nextDocumentId == old(db.nextDocumentId)
    {
      if id in db.collections {
        db.collections := db.collections[id := db.collections[id].(rebuildError := error)];
      }
    }

    /**
     * `add_documents_to_collection`: only for a PDF collection; inserts
     * one row per requested path the collection does not hold yet, named
     * after the path's basename, and sets `question_count` to the
     * collection's number of document rows.
     */
    method AddDocumentsToCollection(id: int, paths: seq<string>, addedBy: Option<string>) returns (r: Result<int>)
      requires db.Valid()
      modifies db
      ensures db.Valid()
      ensures id !in old(db.collections) ==>
                r == Err(NotFound(id)) && unchanged(db)
      ensures id in old(db.collections) && old(db.collections)[id].collectionType != "pdf" ==>
                r == Err(NotPdf(old(db.collections)[id].collectionType))
                && unchanged(db)
      ensures id in old(db.collections) && old(db.collections)[id].collectionType == "pdf" ==>
                var added := NewPaths(paths, PathsOf(old(db.documents), id));
                && r == Ok(|added|)
                && PathsOf(db.documents, id) == PathsOf(old(db.documents), id) + added
                && Extends(old(db.documents), db.documents, id, addedBy)
                && db.collections == old(db.collections)[id := old(db.collections)[id].(questionCount := |RowsOf(db.documents, id)|)]
                && db.nextId == old(db.nextId) && db.soQuestions == old(db.soQuestions) && db.members == old(db.members)
    {
      if id !in db.collections {
        return Err(NotFound(id));
      }
      var c := db.collections[id];
      if c.collectionType != "pdf" {
        return Err(NotPdf(c.collectionType));
      }
      var count := StoreDocuments(id, NewPaths(paths, PathsOf(db.documents, id)), addedBy);
      r := Ok(count);
    }

    /** The insertions and the count update of `add_documents_to_collection`. */
    method StoreDocuments(id: int, newPaths: set<string>, addedBy: Option<string>) returns (count: int)
      requires db.Valid() && id in db.collections
      requires newPaths * PathsOf(db.documents, id) == {}
      modifies db
      ensures db.Valid()
      ensures count == |newPaths|
      ensures PathsOf(db.documents, id) == PathsOf(old(db.documents), id) + newPaths
      ensures Extends(old(db.documents), db.documents, id, addedBy)
      ensures db.collections == old(db.collections)[id := old(db.collections)[id].(questionCount := |RowsOf(db.documents, id)|)]
      ensures db.nextId == old(db.nextId) && db.soQuestions == old(db.soQuestions) && db.members == old(db.members)
    {
      var rows, next;
      rows, next, count := InsertDocuments(db.documents, db.nextDocumentId, id, newPaths, addedBy);
      var c := db.collections[id].(questionCount := |RowsOf(rows, id)|);
      InsertedValid(db.documents, rows, next, db.collections.Keys, id, addedBy);
      RecordUpdate(db.collections, db.nextId, id, c);
      db.documents, db.nextDocumentId, db.collections := rows, next, db.collections[id := c];
    }

    /**
     * `remove_documents_from_collection`: deletes the collection's rows
     * among the ids and, when the collection exists, sets `question_count`
     * to the rows left.
     */
    method RemoveDocumentsFromCollection(id: int, documentIds: seq<int>) returns (count: int)
      requires db.Valid()
      modifies db
      ensures db.Valid()
      ensures count == |RowsOf(old(db.documents), id) * IdSet(documentIds)|
      ensures db.documents == old(db.documents) - (RowsOf(old(db.documents), id) * IdSet(documentIds))
      ensures db.collections == if id in old(db.collections)
                                then old(db.collections)[id := old(db.collections)[id].(questionCount := |RowsOf(db.documents, id)|)]
                                else old(db.collections)
      ensures db.nextId == old(db.nextId) && db.soQuestions == old(db.soQuestions) && db.members == old(db.members)
      ensures db.nextDocumentId == old(db.nextDocumentId)
    {
      var removed := RowsOf(db.documents, id) * IdSet(documentIds);
      count := |removed|;
      db.documents := db.documents - removed;
      if id in db.collections {
        db.collections := db.collections[id := db.collections[id].(questionCount := |RowsOf(db.documents, id)|)];
      }
    }
  }
}
