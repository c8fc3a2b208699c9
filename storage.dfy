/**
 * The local SQLite store of documents and page chunks.
 *
 * Both tables use `INTEGER PRIMARY KEY AUTOINCREMENT`: SQLite keeps one sequence
 * value per table (in `sqlite_sequence`), issues `sequence + 1` for each insert,
 * never lowers the sequence, and keeps it when rows are deleted. Ids are
 * therefore never reused, not even after `clear_all`.
 *
 * `Db` is the database file as a value and the functions over it are the
 * specification; `Store` is the same file as a mutable object, whose methods are
 * the store's operations and are proved against those functions.
 */
module Storage {
  import opened Wrappers

  /** A row of `documents`; `extra` is the dictionary stored as `extra_json`. */
  datatype DocumentRow = DocumentRow(
    id: nat,
    sourcePath: string,
    storedPath: string,
    state: string,
    applicationNumber: string,
    programTitle: Option<string>,
    applicationType: string,
    approvedEffectiveDate: Option<string>,
    year: Option<int>,
    extra: map<string, string>)

  /** A row of `chunks`; `document_id` has no foreign key, so any integer is stored. */
  datatype ChunkRow = ChunkRow(id: nat, documentId: int, page: int, orderIndex: int, text: string)

  /**
   * The database file: whether `init_db` has created the tables, their rows in
   * insertion order, and the AUTOINCREMENT sequence of each table.
   */
  datatype Db = Db(
    initialized: bool,
    documents: seq<DocumentRow>,
    chunks: seq<ChunkRow>,
    documentSeq: nat,
    chunkSeq: nat)

  /** A database file before any table exists. */
  const EmptyDb := Db(false, [], [], 0, 0)

  /** Ids are positive, strictly increasing in insertion order, and at most the sequence. */
  ghost predicate DocumentIdsValid(rows: seq<DocumentRow>, sequence: nat) {
    && (forall k | 0 <= k < |rows| :: 1 <= rows[k].id <= sequence)
    && (forall k, l | 0 <= k < l < |rows| :: rows[k].id < rows[l].id)
  }

  ghost predicate ChunkIdsValid(rows: seq<ChunkRow>, sequence: nat) {
    && (forall k | 0 <= k < |rows| :: 1 <= rows[k].id <= sequence)
    && (forall k, l | 0 <= k < l < |rows| :: rows[k].id < rows[l].id)
  }

  ghost predicate ValidDb(db: Db) {
    && (!db.initialized ==> db.documents == [] && db.chunks == [])
    && DocumentIdsValid(db.documents, db.documentSeq)
    && ChunkIdsValid(db.chunks, db.chunkSeq)
  }

  /** `init_db`: `CREATE TABLE IF NOT EXISTS` for both tables. */
  function InitTables(db: Db): (r: Db)
    ensures r.initialized
    ensures db.initialized ==> r == db
    ensures r.documents == db.documents && r.chunks == db.chunks
    ensures r.documentSeq == db.documentSeq && r.chunkSeq == db.chunkSeq
  {
    db.(initialized := true)
  }

  /** `clear_all`: both tables emptied; the sequences are kept. */
  function ClearTables(db: Db): (r: Db)
    requires db.initialized
    ensures r.initialized && r.documents == [] && r.chunks == []
    ensures r.documentSeq == db.documentSeq && r.chunkSeq == db.chunkSeq
  {
    db.(documents := [], chunks := [])
  }

  /** The id the next `documents` insert receives. */
  function NextDocumentId(db: Db): nat {
    db.documentSeq + 1
  }

  /** The id the next `chunks` insert receives. */
  function NextChunkId(db: Db): nat {
    db.chunkSeq + 1
  }

  /**
   * `insert_document`: one row appended with the next id; `extra` is stored as
   * `extra or {}`, so a missing dictionary is stored as the empty one.
   */
  function AddDocument(db: Db, sourcePath: string, storedPath: string, state: string,
                       applicationNumber: string, programTitle: Option<string>,
                       applicationType: string, approvedEffectiveDate: Option<string>,
                       year: Option<int>, extra: Option<map<string, string>>): (r: Db)
    requires db.initialized
    ensures ValidDb(db) ==> ValidDb(r)
    ensures r.documents == db.documents + [DocumentRow(NextDocumentId(db), sourcePath, storedPath,
      state, applicationNumber, programTitle, applicationType, approvedEffectiveDate, year,
      extra.GetOr(map[]))]
    ensures forall k | 0 <= k < |db.documents| :: ValidDb(db) ==> db.documents[k].id < NextDocumentId(db)
    ensures r.documentSeq == NextDocumentId(db)
    ensures r.initialized && r.chunks == db.chunks && r.chunkSeq == db.chunkSeq
  {
    var row := DocumentRow(db.documentSeq + 1, sourcePath, storedPath, state, applicationNumber,
      programTitle, applicationType, approvedEffectiveDate, year, extra.GetOr(map[]));
    db.(documents := db.documents + [row], documentSeq := db.documentSeq + 1)
  }

  /** `insert_chunk`: one row appended with the next id; `documentId` is not checked. */
  function AddChunk(db: Db, documentId: int, text: string, page: int, orderIndex: int): (r: Db)
    requires db.initialized
    ensures ValidDb(db) ==> ValidDb(r)
    ensures r.chunks == db.chunks + [ChunkRow(NextChunkId(db), documentId, page, orderIndex, text)]
    ensures forall k | 0 <= k < |db.chunks| :: ValidDb(db) ==> db.chunks[k].id < NextChunkId(db)
    ensures r.chunkSeq == NextChunkId(db)
    ensures r.initialized && r.documents == db.documents && r.documentSeq == db.documentSeq
  {
    db.(chunks := db.chunks + [ChunkRow(db.chunkSeq + 1, documentId, page, orderIndex, text)],
        chunkSeq := db.chunkSeq + 1)
  }

  /**
   * AUTOINCREMENT ids are never reused: after `clear_all`, a new document gets an id
   * larger than that of every row the table held before it was cleared.
   */
  lemma IdsNotReusedAfterClear(db: Db, k: nat)
    requires ValidDb(db) && db.initialized && k < |db.documents|
    ensures db.documents[k].id < NextDocumentId(ClearTables(db))
    ensures NextDocumentId(ClearTables(db)) == NextDocumentId(db)
  {
  }

  /** The same for chunks. */
  lemma ChunkIdsNotReusedAfterClear(db: Db, k: nat)
    requires ValidDb(db) && db.initialized && k < |db.chunks|
    ensures db.chunks[k].id < NextChunkId(ClearTables(db))
    ensures NextChunkId(ClearTables(db)) == NextChunkId(db)
  {
  }

  /** One row of `list_recent_documents`: the six projected columns. */
  datatype RecentDocument = RecentDocument(
    id: nat,
    storedPath: string,
    state: string,
    applicationNumber: string,
    programTitle: Option<string>,
    year: Option<int>)

  function Project(row: DocumentRow): RecentDocument {
    RecentDocument(row.id, row.storedPath, row.state, row.applicationNumber, row.programTitle, row.year)
  }

  /** The number of rows `LIMIT limit` keeps out of `n`; SQLite reads a negative limit as no limit. */
  function LimitCount(n: nat, limit: int): (c: nat)
    ensures c <= n
    ensures limit >= 0 ==> c <= limit
    ensures c == n || c == limit
  {
    if limit < 0 || limit >= n then n else limit
  }

  /**
   * `SELECT id, stored_path, state, application_number, program_title, year
   *  FROM documents ORDER BY id DESC LIMIT limit`. Rows are kept in insertion order
   * with increasing ids, so descending id order is the reverse of that order.
   */
  function RecentDocuments(rows: seq<DocumentRow>, limit: int): (r: seq<RecentDocument>)
    ensures |r| == LimitCount(|rows|, limit)
    ensures forall k | 0 <= k < |r| :: r[k] == Project(rows[|rows| - 1 - k])
  {
    var n := LimitCount(|rows|, limit);
    seq(n, k requires 0 <= k < n => Project(rows[|rows| - 1 - k]))
  }

  /**
   * On a valid table the result is in strictly descending id order and holds the
   * newest rows: the rows left out are the oldest ones, each with a smaller id than
   * every row returned.
   */
  lemma RecentAreNewest(rows: seq<DocumentRow>, sequence: nat, limit: int)
    requires DocumentIdsValid(rows, sequence)
    ensures forall k, l | 0 <= k < l < |RecentDocuments(rows, limit)| ::
      RecentDocuments(rows, limit)[k].id > RecentDocuments(rows, limit)[l].id
    ensures forall p, k | 0 <= p < |rows| - |RecentDocuments(rows, limit)| &&
      0 <= k < |RecentDocuments(rows, limit)| :: rows[p].id < RecentDocuments(rows, limit)[k].id
  {
    var r := RecentDocuments(rows, limit);
    forall p, k | 0 <= p < |rows| - |r| && 0 <= k < |r| ensures rows[p].id < r[k].id {
      assert r[k] == Project(rows[|rows| - 1 - k]);
    }
  }

  /**
   * The store as a mutable object: the database file behind `_connect()`, whose
   * operations each run in their own connection and commit on success.
   */
  class Store {
    var initialized: bool
    var documents: seq<DocumentRow>
    var chunks: seq<ChunkRow>
    var documentSeq: nat
    var chunkSeq: nat
    /** Every id the tables have ever issued, including those of deleted rows. */
    ghost var issuedDocumentIds: set<nat>
    ghost var issuedChunkIds: set<nat>

    function Snapshot(): Db
      reads this
    {
      Db(initialized, documents, chunks, documentSeq, chunkSeq)
    }

    ghost predicate Valid()
      reads this
    {
      && ValidDb(Snapshot())
      && (forall x | x in issuedDocumentIds :: 1 <= x <= documentSeq)
      && (forall x | x in issuedChunkIds :: 1 <= x <= chunkSeq)
      && (forall k | 0 <= k < |documents| :: documents[k].id in issuedDocumentIds)
      && (forall k | 0 <= k < |chunks| :: chunks[k].id in issuedChunkIds)
    }

    /** A database file with no tables yet. */
    constructor ()
      ensures Valid() && Snapshot() == EmptyDb
      ensures issuedDocumentIds == {} && issuedChunkIds == {}
    {
      initialized := false;
      documents := [];
      chunks := [];
      documentSeq := 0;
      chunkSeq := 0;
      issuedDocumentIds := {};
      issuedChunkIds := {};
    }

    /** `init_db()`. */
    method InitDb()
      requires Valid()
      modifies this
      ensures Valid()
      ensures Snapshot() == InitTables(old(Snapshot()))
      ensures issuedDocumentIds == old(issuedDocumentIds) && issuedChunkIds == old(issuedChunkIds)
    {
      initialized := true;
    }

    /**
     * `clear_all()`: `DELETE FROM chunks`, then `DELETE FROM documents`. Without the
     * tables the first statement fails ("no such table") and nothing changes.
     */
    method ClearAll() returns (ok: bool)
      requires Valid()
      modifies this
      ensures Valid()
      ensures ok == old(initialized)
      ensures ok ==> Snapshot() == ClearTables(old(Snapshot()))
      ensures !ok ==> Snapshot() == old(Snapshot())
      ensures issuedDocumentIds == old(issuedDocumentIds) && issuedChunkIds == old(issuedChunkIds)
    {
      ok := initialized;
      if ok {
        chunks := [];
        documents := [];
      }
    }

    /**
     * `insert_document(...)`: appends one row and returns `cursor.lastrowid`, an id
     * never issued before and larger than every id issued before. Without the
     * tables the insert fails and nothing changes (`None`).
     */
    method InsertDocument(sourcePath: string, storedPath: string, state: string,
                          applicationNumber: string, programTitle: Option<string>,
                          applicationType: string, approvedEffectiveDate: Option<string>,
                          year: Option<int>, extra: Option<map<string, string>>)
      returns (id: Option<nat>)
      requires Valid()
      modifies this
      ensures Valid()
      ensures id.Some? == old(initialized)
      ensures id.Some? ==> Snapshot() == AddDocument(old(Snapshot()), sourcePath, storedPath, state,
        applicationNumber, programTitle, applicationType, approvedEffectiveDate, year, extra)
      ensures id.Some? ==> id.value == NextDocumentId(old(Snapshot()))
      ensures id.Some? ==> id.value !in old(issuedDocumentIds)
      ensures id.Some? ==> forall x | x in old(issuedDocumentIds) :: x < id.value
      ensures id.Some? ==> issuedDocumentIds == old(issuedDocumentIds) + {id.value}
      ensures id.None? ==> Snapshot() == old(Snapshot()) && issuedDocumentIds == old(issuedDocumentIds)
      ensures issuedChunkIds == old(issuedChunkIds)
    {
      if !initialized {
        return None;
      }
      var newId := documentSeq + 1;
      documents := documents + [DocumentRow(newId, sourcePath, storedPath, state, applicationNumber,
        programTitle, applicationType, approvedEffectiveDate, year, extra.GetOr(map[]))];
      documentSeq := newId;
      issuedDocumentIds := issuedDocumentIds + {newId};
      id := Some(newId);
    }

    /**
     * `insert_chunk(document_id, text, page, order_index)`: appends one row with the
     * given fields and a fresh id, whatever `documentId` is.
     */
    method InsertChunk(documentId: int, text: string, page: int, orderIndex: int)
      returns (id: Option<nat>)
      requires Valid()
      modifies this
      ensures Valid()
      ensures id.Some? == old(initialized)
      ensures id.Some? ==> Snapshot() == AddChunk(old(Snapshot()), documentId, text, page, orderIndex)
      ensures id.Some? ==> id.value == NextChunkId(old(Snapshot()))
      ensures id.Some? ==> id.value !in old(issuedChunkIds)
      ensures id.Some? ==> forall x | x in old(issuedChunkIds) :: x < id.value
      ensures id.Some? ==> issuedChunkIds == old(issuedChunkIds) + {id.value}
      ensures id.None? ==> Snapshot() == old(Snapshot()) && issuedChunkIds == old(issuedChunkIds)
      ensures issuedDocumentIds == old(issuedDocumentIds)
    {
      if !initialized {
        return None;
      }
      var newId := chunkSeq + 1;
      chunks := chunks + [ChunkRow(newId, documentId, page, orderIndex, text)];
      chunkSeq := newId;
      issuedChunkIds := issuedChunkIds + {newId};
      id := Some(newId);
    }

    /**
     * `list_recent_documents(limit)`: runs `init_db()` first, then the read-only query;
     * neither table changes.
     */
    method ListRecentDocuments(limit: int) returns (rows: seq<RecentDocument>)
      requires Valid()
      modifies this
      ensures Valid()
      ensures Snapshot() == InitTables(old(Snapshot()))
      ensures documents == old(documents) && chunks == old(chunks)
      ensures rows == RecentDocuments(documents, limit)
      ensures issuedDocumentIds == old(issuedDocumentIds) && issuedChunkIds == old(issuedChunkIds)
    {
      InitDb();
      rows := RecentDocuments(documents, limit);
    }
  }
}
