/**
 * The Django management command `extract_rename_move_to_uploads`: the same
 * per-file pipeline as `ingest_pdf_folder`, written against the Django ORM.
 * It differs in what a run starts with and in what a failure keeps:
 *
 * - every run drops the vector table and deletes every waiver document,
 *   embedding and chunk row, before it checks that the folder exists;
 * - a file's rows are written inside `transaction.atomic()`, so a timeout or an
 *   exception raised before the block ends rolls them all back (the saved
 *   media file stays: storage writes are not transactional);
 * - the documents already holding the file's waiver number are deleted first,
 *   so a processed file leaves exactly one document with that number;
 * - every non-empty page gets a chunk and an embedding row;
 * - the tracking file is written at the end and then removed.
 *
 * The file records, the fault oracle, the outcomes and the vector entries are
 * those of `PdfIngest`. `Orm` is the three tables as a value; `Database` is the
 * same tables as an object whose methods are the ORM calls the command makes.
 * The `WaiverDocument` model is not part of the repository: its fields are
 * those the command passes to `create`, and its rows cascade to their chunks
 * and embeddings, as `Chunk` and `Embedding` do for `Document`.
 */
module DjangoIngest {
  import opened Wrappers
  import Text
  import Config
  import Slug
  import PdfIngest

  // ---------------------------------------------------------------------------
  // The tables
  // ---------------------------------------------------------------------------

  /** A `WaiverDocument` row; `filePath` is set by `file_path.save`. */
  datatype WaiverRow = WaiverRow(
    id: nat,
    programTitle: Option<string>,
    applicationNumber: string,
    applicationType: string,
    state: string,
    approvedEffectiveDate: Option<Slug.Date>,
    year: Option<int>,
    extra: map<string, string>,
    filePath: Option<string>)

  /** A `Chunk` row. */
  datatype ChunkObj = ChunkObj(id: nat, documentId: nat, text: string, page: int, order: int)

  /** An `Embedding` row. */
  datatype EmbeddingObj = EmbeddingObj(id: nat, kind: string, vectorId: int, chunkId: Option<nat>, documentId: nat)

  /**
   * The three tables and their AUTOINCREMENT sequences (Django's SQLite backend
   * declares `AutoField` columns that way, and a rollback restores the sequence
   * with the rows).
   */
  datatype Orm = Orm(documents: seq<WaiverRow>, chunks: seq<ChunkObj>, embeddings: seq<EmbeddingObj>,
                     documentSeq: nat, chunkSeq: nat, embeddingSeq: nat)

  /** `WaiverDocument.objects.all().delete()`, then the same for `Embedding` and `Chunk`. */
  function DeleteEverything(db: Orm): (r: Orm)
    ensures r.documents == [] && r.chunks == [] && r.embeddings == []
    ensures r.documentSeq == db.documentSeq && r.chunkSeq == db.chunkSeq && r.embeddingSeq == db.embeddingSeq
  {
    db.(documents := [], chunks := [], embeddings := [])
  }

  /** The elements of `xs` that `keep` holds for, in order: what a bulk delete of the others leaves. */
  function Filter<T>(xs: seq<T>, keep: T -> bool): (r: seq<T>)
    ensures |r| <= |xs|
    decreases |xs|
  {
    if xs == [] then []
    else Filter(xs[..|xs| - 1], keep) + (if keep(xs[|xs| - 1]) then [xs[|xs| - 1]] else [])
  }

  /** The documents that keep a waiver number other than `number`, in order. */
  function KeepDocuments(rows: seq<WaiverRow>, number: string): seq<WaiverRow> {
    Filter(rows, (r: WaiverRow) => r.applicationNumber != number)
  }

  /** The ids of the documents holding waiver number `number`. */
  function IdsOf(rows: seq<WaiverRow>, number: string): set<nat> {
    set k | 0 <= k < |rows| && rows[k].applicationNumber == number :: rows[k].id
  }

  /** The chunks whose document is not among `gone`. */
  function KeepChunks(chunks: seq<ChunkObj>, gone: set<nat>): seq<ChunkObj> {
    Filter(chunks, (c: ChunkObj) => c.documentId !in gone)
  }

  /** The embeddings whose document is not among `gone`; an embedding follows its document, not its chunk. */
  function KeepEmbeddings(embeddings: seq<EmbeddingObj>, gone: set<nat>): seq<EmbeddingObj> {
    Filter(embeddings, (e: EmbeddingObj) => e.documentId !in gone)
  }

  /** `WaiverDocument.objects.filter(application_number=number).delete()`, with the cascade. */
  function DeleteApplication(db: Orm, number: string): (r: Orm)
    ensures r.documentSeq == db.documentSeq && r.chunkSeq == db.chunkSeq && r.embeddingSeq == db.embeddingSeq
  {
    var gone := IdsOf(db.documents, number);
    db.(documents := KeepDocuments(db.documents, number),
        chunks := KeepChunks(db.chunks, gone),
        embeddings := KeepEmbeddings(db.embeddings, gone))
  }

  /** The id the next insert into a table with sequence `sequence` receives. */
  function NextId(sequence: nat): nat {
    sequence + 1
  }

  /** `WaiverDocument.objects.create(...)`: one row with the next id and no file yet. */
  function CreateDocument(db: Orm, programTitle: Option<string>, number: string, applicationType: string,
                          state: string, approved: Option<Slug.Date>, year: Option<int>, extra: map<string, string>)
    : (r: Orm)
    ensures r.documents == db.documents + [WaiverRow(NextId(db.documentSeq), programTitle, number, applicationType,
                                                     state, approved, year, extra, None)]
    ensures r.documentSeq == NextId(db.documentSeq)
    ensures r.chunks == db.chunks && r.embeddings == db.embeddings
    ensures r.chunkSeq == db.chunkSeq && r.embeddingSeq == db.embeddingSeq
  {
    db.(documents := db.documents + [WaiverRow(db.documentSeq + 1, programTitle, number, applicationType, state,
                                               approved, year, extra, None)],
        documentSeq := db.documentSeq + 1)
  }

  /** `waiver_doc.file_path.save(name, ..., save=True)`: the row with id `id` records the file. */
  function SaveFilePath(db: Orm, id: nat, name: string): (r: Orm)
    ensures |r.documents| == |db.documents|
    ensures forall k | 0 <= k < |db.documents| ::
      r.documents[k] == if db.documents[k].id == id then db.documents[k].(filePath := Some(name)) else db.documents[k]
    ensures r.chunks == db.chunks && r.embeddings == db.embeddings
    ensures r.documentSeq == db.documentSeq && r.chunkSeq == db.chunkSeq && r.embeddingSeq == db.embeddingSeq
  {
    var rows := db.documents;
    db.(documents := seq(|rows|, k requires 0 <= k < |rows| =>
                           if rows[k].id == id then rows[k].(filePath := Some(name)) else rows[k]))
  }

  /** `Chunk.objects.create(...)` */
  function CreateChunk(db: Orm, documentId: nat, text: string, page: int, order: int): (r: Orm)
    ensures r.chunks == db.chunks + [ChunkObj(NextId(db.chunkSeq), documentId, text, page, order)]
    ensures r.chunkSeq == NextId(db.chunkSeq)
    ensures r.documents == db.documents && r.embeddings == db.embeddings
    ensures r.documentSeq == db.documentSeq && r.embeddingSeq == db.embeddingSeq
  {
    db.(chunks := db.chunks + [ChunkObj(db.chunkSeq + 1, documentId, text, page, order)], chunkSeq := db.chunkSeq + 1)
  }

  /** `Embedding.objects.create(kind="text", vector_id=0, chunk=..., document=...)` */
  function CreateEmbedding(db: Orm, chunkId: nat, documentId: nat): (r: Orm)
    ensures r.embeddings == db.embeddings + [EmbeddingObj(NextId(db.embeddingSeq), "text", 0, Some(chunkId), documentId)]
    ensures r.embeddingSeq == NextId(db.embeddingSeq)
    ensures r.documents == db.documents && r.chunks == db.chunks
    ensures r.documentSeq == db.documentSeq && r.chunkSeq == db.chunkSeq
  {
    db.(embeddings := db.embeddings + [EmbeddingObj(db.embeddingSeq + 1, "text", 0, Some(chunkId), documentId)],
        embeddingSeq := db.embeddingSeq + 1)
  }

  // ---------------------------------------------------------------------------
  // One file
  // ---------------------------------------------------------------------------

  /** What the gate lets through: the state code, the waiver number, the approved date and `extra`. */
  datatype Admitted = Admitted(code: string, waiver: string, approved: Option<Slug.Date>, extra: map<string, string>)

  /**
   * `state_to_code.get(metadata.get("State", "").lower())` and
   * `metadata.get("Waiver Number")`, `None` when either is missing or empty;
   * otherwise the parsed approved date and the fields left for `extra`.
   */
  function Admit(stateToCode: map<string, string>, metadata: map<string, string>,
                 parseDate: string -> Option<Slug.Date>): (r: Option<Admitted>)
  {
    var code := Get(stateToCode, Text.Lower(Get(metadata, "State").GetOr("")));
    var waiver := Get(metadata, "Waiver Number").GetOr("");
    if code.None? || code.value == "" || waiver == "" then None
    else
      Some(Admitted(code.value, waiver, parseDate(Get(metadata, "Approved Effective Date").GetOr("")),
                    map k | k in metadata && k !in PdfIngest.ExcludeKeys :: metadata[k]))
  }

  /**
   * What one file can change: the tables, the media storage (saved name to the
   * hash of the content), the vector table and the manifest `indexed_data`.
   */
  datatype World = World(orm: Orm, media: map<string, string>, vectors: Option<seq<PdfIngest.VectorEntry>>,
                         manifest: map<string, string>)

  /**
   * The page loop over the stripped texts `texts[..n]`: for every page with
   * text, a chunk, its embedding and a buffered vector entry.
   */
  function Pages(db: Orm, docId: nat, code: string, rel: string, texts: seq<string>, n: nat)
    : (r: (Orm, seq<PdfIngest.VectorEntry>))
    requires n <= |texts|
    decreases n
  {
    if n == 0 then (db, [])
    else
      var (db1, buffer) := Pages(db, docId, code, rel, texts, n - 1);
      PageStep(db1, buffer, docId, code, rel, texts[n - 1], n)
  }

  /** Page `n` (counting from one) with stripped text `text`. */
  function PageStep(db: Orm, buffer: seq<PdfIngest.VectorEntry>, docId: nat, code: string, rel: string, text: string,
                    n: nat): (r: (Orm, seq<PdfIngest.VectorEntry>))
    requires n >= 1
  {
    if text == "" then (db, buffer)
    else
      var chunkId := NextId(db.chunkSeq);
      (CreateEmbedding(CreateChunk(db, docId, text, n, n - 1), chunkId, docId),
       buffer + [PdfIngest.VectorEntry(text, chunkId, docId, code, rel, n)])
  }

  /**
   * The `transaction.atomic()` block and what follows it, for a file past the
   * gate. A fault inside the block leaves the tables as they were; a fault at
   * the page loop comes after the file was saved to the media storage, which
   * stays.
   */
  function Atomic(w: World, f: PdfIngest.PdfFile, a: Admitted): (r: (World, PdfIngest.Outcome)) {
    if PdfIngest.Fires(f, PdfIngest.Insert) then (w, PdfIngest.Interrupted(f.fault))
    else if PdfIngest.Fires(f, PdfIngest.Copy) then (w, PdfIngest.Interrupted(f.fault))
    else
      var media := w.media[f.name := f.hash];
      if PdfIngest.PageStop(f).Some? then (w.(media := media), PdfIngest.Interrupted(f.fault))
      else
        var (orm, buffer) := Paged(w.orm, f, a);
        Sync(w.(orm := orm, media := media), f, buffer)
  }

  /** The tables and the vector buffer at the end of the block. */
  function Paged(db: Orm, f: PdfIngest.PdfFile, a: Admitted): (Orm, seq<PdfIngest.VectorEntry>) {
    Pages(Written(db, f, a), NextId(db.documentSeq), a.code, f.relPath, PdfIngest.Texts(f.pages), |f.pages|)
  }

  /** The tables after the delete, `WaiverDocument.objects.create` and the file save, before the page loop. */
  function Written(db: Orm, f: PdfIngest.PdfFile, a: Admitted): Orm {
    SaveFilePath(CreateDocument(DeleteApplication(db, a.waiver), Get(f.metadata, "Program Title"), a.waiver,
                                PdfIngest.ApplicationType(f.metadata), a.code, a.approved, PdfIngest.YearOf(a.approved),
                                a.extra),
                 NextId(db.documentSeq), f.name)
  }

  /** After the block: the vector write, then the manifest entry. */
  function Sync(w: World, f: PdfIngest.PdfFile, buffer: seq<PdfIngest.VectorEntry>): (r: (World, PdfIngest.Outcome)) {
    if buffer != [] && PdfIngest.Fires(f, PdfIngest.VectorWrite) then (w, PdfIngest.Interrupted(f.fault))
    else
      var vectors := if buffer != [] then PdfIngest.WriteVectors(w.vectors, buffer) else w.vectors;
      (w.(vectors := vectors, manifest := w.manifest[f.relPath := f.hash]), PdfIngest.Processed)
  }

  /** One pass of the `for pdf_path in data_folder.rglob("*.pdf")` loop. */
  function HandleFile(stateToCode: map<string, string>, w: World, f: PdfIngest.PdfFile,
                      parseDate: string -> Option<Slug.Date>): (r: (World, PdfIngest.Outcome))
  {
    if Get(w.manifest, f.relPath) == Some(f.hash) then (w, PdfIngest.Unchanged)
    else if PdfIngest.Fires(f, PdfIngest.Extract) then (w, PdfIngest.Interrupted(f.fault))
    else
      match Admit(stateToCode, f.metadata, parseDate)
      case None => (w, PdfIngest.MissingMetadata)
      case Some(a) => Atomic(w, f, a)
  }

  // ---------------------------------------------------------------------------
  // The run
  // ---------------------------------------------------------------------------

  /** The state after some files, and the outcome each one was reported with. */
  datatype Run = Run(world: World, outcomes: seq<PdfIngest.Outcome>)

  function RunStep(stateToCode: map<string, string>, run: Run, f: PdfIngest.PdfFile,
                   parseDate: string -> Option<Slug.Date>): Run
  {
    var (w, o) := HandleFile(stateToCode, run.world, f, parseDate);
    Run(w, run.outcomes + [o])
  }

  function RunFiles(stateToCode: map<string, string>, start: Run, files: seq<PdfIngest.PdfFile>,
                    parseDate: string -> Option<Slug.Date>): Run
    decreases |files|
  {
    if files == [] then start
    else RunStep(stateToCode, RunFiles(stateToCode, start, files[..|files| - 1], parseDate), files[|files| - 1], parseDate)
  }

  /** The database, the media storage, the LanceDB table and `indexed_files.json`. */
  datatype Disk = Disk(orm: Orm, media: map<string, string>, vectors: Option<seq<PdfIngest.VectorEntry>>,
                       trackFile: PdfIngest.TrackFile)

  /** The command returns after the folder check or after the loop, or raises on the tracking file. */
  datatype HandleResult = FolderNotFound | ManifestUnreadable | Finished(outcomes: seq<PdfIngest.Outcome>)

  /** Before the folder check: the vector table dropped, the three tables emptied, the manifest read. */
  function Reset(disk: Disk): World {
    World(DeleteEverything(disk.orm), disk.media, None, PdfIngest.ManifestOf(disk.trackFile))
  }

  /**
   * `Command.handle`: what is reported and the disk afterwards. Text that is
   * not JSON raises at `json.loads`, before the folder check; JSON that is not
   * an object raises at the first file's `indexed_data.get`.
   */
  function Handle(disk: Disk, folderExists: bool, files: seq<PdfIngest.PdfFile>,
                  parseDate: string -> Option<Slug.Date>): (HandleResult, Disk)
  {
    var w := Reset(disk);
    if disk.trackFile.TrackNotJson? then (ManifestUnreadable, Disk(w.orm, w.media, w.vectors, disk.trackFile))
    else if !folderExists then (FolderNotFound, Disk(w.orm, w.media, w.vectors, disk.trackFile))
    else if PdfIngest.UnreadableManifest(disk.trackFile, |files|) then
      (ManifestUnreadable, Disk(w.orm, w.media, w.vectors, disk.trackFile))
    else
      var run := RunFiles(Config.StateToCode(), Run(w, []), files, parseDate);
      (Finished(run.outcomes), Disk(run.world.orm, run.world.media, run.world.vectors, PdfIngest.NoTrackFile))
  }

  // ---------------------------------------------------------------------------
  // The tables as an object, and the command over it
  // ---------------------------------------------------------------------------

  /** The Django database: each method is one ORM call of the command. */
  class Database {
    var documents: seq<WaiverRow>
    var chunks: seq<ChunkObj>
    var embeddings: seq<EmbeddingObj>
    var documentSeq: nat
    var chunkSeq: nat
    var embeddingSeq: nat

    function Tables(): Orm
      reads this
    {
      Orm(documents, chunks, embeddings, documentSeq, chunkSeq, embeddingSeq)
    }

    constructor (initial: Orm)
      ensures Tables() == initial
    {
      documents, chunks, embeddings := initial.documents, initial.chunks, initial.embeddings;
      documentSeq, chunkSeq, embeddingSeq := initial.documentSeq, initial.chunkSeq, initial.embeddingSeq;
    }

    method DeleteAll()
      modifies this
      ensures Tables() == DeleteEverything(old(Tables()))
    {
      documents, embeddings, chunks := [], [], [];
    }

    method DeleteByApplicationNumber(number: string)
      modifies this
      ensures Tables() == DeleteApplication(old(Tables()), number)
    {
      var gone := IdsOf(documents, number);
      documents := KeepDocuments(documents, number);
      chunks := KeepChunks(chunks, gone);
      embeddings := KeepEmbeddings(embeddings, gone);
    }

    method CreateWaiverDocument(programTitle: Option<string>, number: string, applicationType: string,
                                state: string, approved: Option<Slug.Date>, year: Option<int>,
                                extra: map<string, string>)
      returns (id: nat)
      modifies this
      ensures id == NextId(old(documentSeq))
      ensures Tables() == CreateDocument(old(Tables()), programTitle, number, applicationType, state, approved, year, extra)
    {
      id := documentSeq + 1;
      documents := documents + [WaiverRow(id, programTitle, number, applicationType, state, approved, year, extra, None)];
      documentSeq := id;
    }

    method SaveFile(id: nat, name: string)
      modifies this
      ensures Tables() == SaveFilePath(old(Tables()), id, name)
    {
      var rows := documents;
      var updated: seq<WaiverRow> := [];
      var i := 0;
      while i < |rows|
        invariant 0 <= i <= |rows|
        invariant |updated| == i
        invariant forall k | 0 <= k < i :: updated[k] == if rows[k].id == id then rows[k].(filePath := Some(name)) else rows[k]
      {
        updated := updated + [if rows[i].id == id then rows[i].(filePath := Some(name)) else rows[i]];
        i := i + 1;
      }
      documents := updated;
      assert documents == SaveFilePath(old(Tables()), id, name).documents;
    }

    method NewChunk(documentId: nat, text: string, page: int, order: int) returns (id: nat)
      modifies this
      ensures id == NextId(old(chunkSeq))
      ensures Tables() == CreateChunk(old(Tables()), documentId, text, page, order)
    {
      id := chunkSeq + 1;
      chunks := chunks + [ChunkObj(id, documentId, text, page, order)];
      chunkSeq := id;
    }

    method NewEmbedding(chunkId: nat, documentId: nat)
      modifies this
      ensures Tables() == CreateEmbedding(old(Tables()), chunkId, documentId)
    {
      embeddings := embeddings + [EmbeddingObj(embeddingSeq + 1, "text", 0, Some(chunkId), documentId)];
      embeddingSeq := embeddingSeq + 1;
    }

    /** The rollback of `transaction.atomic()`: the tables as they were when the block began. */
    method Rollback(savepoint: Orm)
      modifies this
      ensures Tables() == savepoint
    {
      documents, chunks, embeddings := savepoint.documents, savepoint.chunks, savepoint.embeddings;
      documentSeq, chunkSeq, embeddingSeq := savepoint.documentSeq, savepoint.chunkSeq, savepoint.embeddingSeq;
    }
  }

  /** The media storage, the vector table and the tracking file, as state the command updates. */
  class Files {
    var media: map<string, string>
    var vectorTable: Option<seq<PdfIngest.VectorEntry>>
    var trackFile: PdfIngest.TrackFile

    constructor (media: map<string, string>, vectorTable: Option<seq<PdfIngest.VectorEntry>>,
                 trackFile: PdfIngest.TrackFile)
      ensures this.media == media && this.vectorTable == vectorTable && this.trackFile == trackFile
    {
      this.media := media;
      this.vectorTable := vectorTable;
      this.trackFile := trackFile;
    }
  }

  function DiskOf(db: Database, fs: Files): Disk
    reads db, fs
  {
    Disk(db.Tables(), fs.media, fs.vectorTable, fs.trackFile)
  }

  function WorldOf(db: Database, fs: Files, manifest: map<string, string>): World
    reads db, fs
  {
    World(db.Tables(), fs.media, fs.vectorTable, manifest)
  }

  /** `Command.handle` over the database and the files. */
  method HandleCommand(db: Database, fs: Files, folderExists: bool, files: seq<PdfIngest.PdfFile>,
                       parseDate: string -> Option<Slug.Date>)
    returns (result: HandleResult)
    modifies db, fs
    ensures (result, DiskOf(db, fs)) == Handle(old(DiskOf(db, fs)), folderExists, files, parseDate)
  {
    var stateToCode := Config.StateToCode();
    ghost var disk := DiskOf(db, fs);
    fs.vectorTable := None;
    db.DeleteAll();
    if fs.trackFile.TrackNotJson? {
      // `json.loads` raises
      return ManifestUnreadable;
    }
    var indexed := PdfIngest.ManifestOf(fs.trackFile);
    assert WorldOf(db, fs, indexed) == Reset(disk);
    if !folderExists {
      return FolderNotFound;
    }
    if fs.trackFile.TrackOtherJson? && |files| > 0 {
      // the first `indexed_data.get(rel_path)` raises
      return ManifestUnreadable;
    }
    var run := RunAt(stateToCode, db, fs, indexed, files, parseDate);
    HandleOf(disk, files, parseDate, run);
    if !fs.trackFile.TrackOtherJson? {
      fs.trackFile := PdfIngest.TrackObject(run.world.manifest);
    }
    fs.trackFile := PdfIngest.NoTrackFile;
    result := Finished(run.outcomes);
  }

  /** `Handle` over an existing folder in terms of the run it makes. */
  lemma {:induction false} HandleOf(disk: Disk, files: seq<PdfIngest.PdfFile>, parseDate: string -> Option<Slug.Date>,
                                    run: Run)
    requires !PdfIngest.UnreadableManifest(disk.trackFile, |files|)
    requires run == RunFiles(Config.StateToCode(), Run(Reset(disk), []), files, parseDate)
    ensures Handle(disk, true, files, parseDate)
         == (Finished(run.outcomes), Disk(run.world.orm, run.world.media, run.world.vectors, PdfIngest.NoTrackFile))
  {
  }

  /** The loop over the files; the run returned holds the final manifest and the outcomes. */
  method RunAt(stateToCode: map<string, string>, db: Database, fs: Files, manifest: map<string, string>,
               files: seq<PdfIngest.PdfFile>, parseDate: string -> Option<Slug.Date>)
    returns (run: Run)
    modifies db, fs
    ensures fs.trackFile == old(fs.trackFile)
    ensures run.world == WorldOf(db, fs, run.world.manifest)
    ensures run == RunFiles(stateToCode, Run(old(WorldOf(db, fs, manifest)), []), files, parseDate)
  {
    ghost var start := Run(WorldOf(db, fs, manifest), []);
    var indexed := manifest;
    var outcomes: seq<PdfIngest.Outcome> := [];
    var i := 0;
    while i < |files|
      invariant 0 <= i <= |files|
      invariant fs.trackFile == old(fs.trackFile)
      invariant Run(WorldOf(db, fs, indexed), outcomes) == RunFiles(stateToCode, start, files[..i], parseDate)
    {
      ghost var before := Run(WorldOf(db, fs, indexed), outcomes);
      var outcome;
      outcome, indexed := HandleFileAt(stateToCode, db, fs, indexed, files[i], parseDate);
      RunStepOf(stateToCode, before, files[i], parseDate, WorldOf(db, fs, indexed), outcome);
      outcomes := outcomes + [outcome];
      assert files[..i + 1][..i] == files[..i];
      i := i + 1;
    }
    assert files[..|files|] == files;
    run := Run(WorldOf(db, fs, indexed), outcomes);
  }

  /** `RunStep` in terms of what `HandleFile` gave. */
  lemma RunStepOf(stateToCode: map<string, string>, run: Run, f: PdfIngest.PdfFile,
                  parseDate: string -> Option<Slug.Date>, w: World, o: PdfIngest.Outcome)
    requires (w, o) == HandleFile(stateToCode, run.world, f, parseDate)
    ensures RunStep(stateToCode, run, f, parseDate) == Run(w, run.outcomes + [o])
  {
  }

  /** The loop body for one file, `manifest` being `indexed_data`. */
  method HandleFileAt(stateToCode: map<string, string>, db: Database, fs: Files, manifest: map<string, string>,
                      f: PdfIngest.PdfFile, parseDate: string -> Option<Slug.Date>)
    returns (outcome: PdfIngest.Outcome, manifest': map<string, string>)
    modifies db, fs
    ensures fs.trackFile == old(fs.trackFile)
    ensures (WorldOf(db, fs, manifest'), outcome) == HandleFile(stateToCode, old(WorldOf(db, fs, manifest)), f, parseDate)
  {
    if Get(manifest, f.relPath) == Some(f.hash) {
      return PdfIngest.Unchanged, manifest;
    }
    if PdfIngest.Fires(f, PdfIngest.Extract) {
      return PdfIngest.Interrupted(f.fault), manifest;
    }
    var admitted := Admit(stateToCode, f.metadata, parseDate);
    if admitted.None? {
      return PdfIngest.MissingMetadata, manifest;
    }
    outcome, manifest' := AtomicAt(db, fs, manifest, f, admitted.value);
  }

  /** `with transaction.atomic():` from the delete on, and what follows the block. */
  method AtomicAt(db: Database, fs: Files, manifest: map<string, string>, f: PdfIngest.PdfFile, a: Admitted)
    returns (outcome: PdfIngest.Outcome, manifest': map<string, string>)
    modifies db, fs
    ensures fs.trackFile == old(fs.trackFile)
    ensures (WorldOf(db, fs, manifest'), outcome) == Atomic(old(WorldOf(db, fs, manifest)), f, a)
  {
    var savepoint := db.Tables();
    db.DeleteByApplicationNumber(a.waiver);
    if PdfIngest.Fires(f, PdfIngest.Insert) {
      db.Rollback(savepoint);
      return PdfIngest.Interrupted(f.fault), manifest;
    }
    var docId := db.CreateWaiverDocument(Get(f.metadata, "Program Title"), a.waiver,
                                         PdfIngest.ApplicationType(f.metadata), a.code, a.approved,
                                         PdfIngest.YearOf(a.approved), a.extra);
    if PdfIngest.Fires(f, PdfIngest.Copy) {
      db.Rollback(savepoint);
      return PdfIngest.Interrupted(f.fault), manifest;
    }
    fs.media := fs.media[f.name := f.hash];
    db.SaveFile(docId, f.name);
    if PdfIngest.PageStop(f).Some? {
      db.Rollback(savepoint);
      return PdfIngest.Interrupted(f.fault), manifest;
    }
    ghost var saved := db.Tables();
    var buffer := PagesAt(db, docId, a.code, f.relPath, f.pages);
    ghost var w := WorldOf(db, fs, manifest);
    outcome, manifest' := SyncAt(db, fs, manifest, f, buffer);
    AtomicOf(old(WorldOf(db, fs, manifest)), f, a, saved, w, buffer);
  }

  /** `Atomic` past the page loop, in terms of the tables the block left. */
  lemma AtomicOf(w0: World, f: PdfIngest.PdfFile, a: Admitted, saved: Orm, w: World, buffer: seq<PdfIngest.VectorEntry>)
    requires !PdfIngest.Fires(f, PdfIngest.Insert) && !PdfIngest.Fires(f, PdfIngest.Copy) && PdfIngest.PageStop(f).None?
    requires saved == Written(w0.orm, f, a)
    requires (w.orm, buffer) == Pages(saved, NextId(w0.orm.documentSeq), a.code, f.relPath, PdfIngest.Texts(f.pages), |f.pages|)
    requires w == w0.(orm := w.orm, media := w0.media[f.name := f.hash])
    ensures Atomic(w0, f, a) == Sync(w, f, buffer)
  {
  }

  /** The page loop inside the block. */
  method PagesAt(db: Database, docId: nat, code: string, rel: string, pages: seq<string>)
    returns (buffer: seq<PdfIngest.VectorEntry>)
    modifies db
    ensures (db.Tables(), buffer) == Pages(old(db.Tables()), docId, code, rel, PdfIngest.Texts(pages), |pages|)
  {
    buffer := [];
    var i := 0;
    while i < |pages|
      invariant 0 <= i <= |pages|
      invariant (db.Tables(), buffer) == Pages(old(db.Tables()), docId, code, rel, PdfIngest.Texts(pages), i)
    {
      buffer := PageAt(db, buffer, docId, code, rel, Text.Strip(pages[i]), i + 1);
      i := i + 1;
    }
  }

  /** One pass of the page loop: the chunk, its embedding and its vector entry, if the page has text. */
  method PageAt(db: Database, buffer: seq<PdfIngest.VectorEntry>, docId: nat, code: string, rel: string, text: string,
                n: nat)
    returns (buffer': seq<PdfIngest.VectorEntry>)
    requires n >= 1
    modifies db
    ensures (db.Tables(), buffer') == PageStep(old(db.Tables()), buffer, docId, code, rel, text, n)
  {
    buffer' := buffer;
    if text != "" {
      var chunkId := db.NewChunk(docId, text, n, n - 1);
      db.NewEmbedding(chunkId, docId);
      buffer' := buffer + [PdfIngest.VectorEntry(text, chunkId, docId, code, rel, n)];
    }
  }

  /** `signal.alarm(0)`, the LanceDB sync of the buffer, and the manifest entry. */
  method SyncAt(db: Database, fs: Files, manifest: map<string, string>, f: PdfIngest.PdfFile,
                buffer: seq<PdfIngest.VectorEntry>)
    returns (outcome: PdfIngest.Outcome, manifest': map<string, string>)
    modifies fs
    ensures fs.trackFile == old(fs.trackFile)
    ensures (WorldOf(db, fs, manifest'), outcome) == Sync(old(WorldOf(db, fs, manifest)), f, buffer)
  {
    if buffer != [] {
      if PdfIngest.Fires(f, PdfIngest.VectorWrite) {
        return PdfIngest.Interrupted(f.fault), manifest;
      }
      fs.vectorTable := PdfIngest.WriteVectors(fs.vectorTable, buffer);
    }
    manifest' := manifest[f.relPath := f.hash];
    outcome := PdfIngest.Processed;
  }

  // ---------------------------------------------------------------------------
  // Properties: the tables
  // ---------------------------------------------------------------------------

  /** Every id of a table is at most its sequence, so the next insert gets a fresh id. */
  predicate ValidOrm(db: Orm) {
    && (forall k | 0 <= k < |db.documents| :: db.documents[k].id <= db.documentSeq)
    && (forall k | 0 <= k < |db.chunks| :: db.chunks[k].id <= db.chunkSeq)
    && (forall k | 0 <= k < |db.embeddings| :: db.embeddings[k].id <= db.embeddingSeq)
  }

  /** No two documents hold the same waiver number. */
  predicate UniqueNumbers(rows: seq<WaiverRow>) {
    forall k, l | 0 <= k < l < |rows| :: rows[k].applicationNumber != rows[l].applicationNumber
  }

  /** A bulk delete keeps exactly the elements it should keep. */
  lemma {:induction false} FilterMembers<T>(xs: seq<T>, keep: T -> bool)
    ensures forall x | x in Filter(xs, keep) :: x in xs && keep(x)
    ensures forall x | x in xs && keep(x) :: x in Filter(xs, keep)
    decreases |xs|
  {
    if xs != [] {
      var init := xs[..|xs| - 1];
      FilterMembers(init, keep);
      assert xs == init + [xs[|xs| - 1]];
    }
  }

  /** Deleting documents keeps the waiver numbers of the others distinct. */
  lemma {:induction false} FilterUnique(rows: seq<WaiverRow>, keep: WaiverRow -> bool)
    requires UniqueNumbers(rows)
    ensures UniqueNumbers(Filter(rows, keep))
    decreases |rows|
  {
    if rows != [] {
      var init := rows[..|rows| - 1];
      var last := rows[|rows| - 1];
      FilterUnique(init, keep);
      FilterMembers(init, keep);
      var kept := Filter(init, keep);
      forall k | 0 <= k < |kept| ensures kept[k].applicationNumber != last.applicationNumber {
        assert kept[k] in init;
        var j :| 0 <= j < |init| && init[j] == kept[k];
        assert rows[j] == kept[k];
      }
    }
  }

  /**
   * Deleting by waiver number removes every document holding it and keeps every
   * other; the chunks and embeddings of the deleted documents go with them.
   */
  lemma DeleteApplicationRemoves(db: Orm, number: string)
    ensures forall r | r in DeleteApplication(db, number).documents :: r in db.documents && r.applicationNumber != number
    ensures forall r | r in db.documents && r.applicationNumber != number :: r in DeleteApplication(db, number).documents
    ensures forall c | c in DeleteApplication(db, number).chunks ::
      c in db.chunks && c.documentId !in IdsOf(db.documents, number)
    ensures forall c | c in db.chunks && c.documentId !in IdsOf(db.documents, number) ::
      c in DeleteApplication(db, number).chunks
    ensures forall e | e in DeleteApplication(db, number).embeddings ::
      e in db.embeddings && e.documentId !in IdsOf(db.documents, number)
    ensures forall e | e in db.embeddings && e.documentId !in IdsOf(db.documents, number) ::
      e in DeleteApplication(db, number).embeddings
    ensures UniqueNumbers(db.documents) ==> UniqueNumbers(DeleteApplication(db, number).documents)
  {
    var gone := IdsOf(db.documents, number);
    FilterMembers(db.documents, (r: WaiverRow) => r.applicationNumber != number);
    FilterMembers(db.chunks, (c: ChunkObj) => c.documentId !in gone);
    FilterMembers(db.embeddings, (e: EmbeddingObj) => e.documentId !in gone);
    if UniqueNumbers(db.documents) {
      FilterUnique(db.documents, (r: WaiverRow) => r.applicationNumber != number);
    }
  }

  /** Deleting rows keeps every remaining id below its sequence. */
  lemma DeleteApplicationValid(db: Orm, number: string)
    requires ValidOrm(db)
    ensures ValidOrm(DeleteApplication(db, number))
  {
    DeleteApplicationRemoves(db, number);
    var r := DeleteApplication(db, number);
    forall k | 0 <= k < |r.documents| ensures r.documents[k].id <= r.documentSeq {
      assert r.documents[k] in db.documents;
    }
    forall k | 0 <= k < |r.chunks| ensures r.chunks[k].id <= r.chunkSeq {
      assert r.chunks[k] in db.chunks;
    }
    forall k | 0 <= k < |r.embeddings| ensures r.embeddings[k].id <= r.embeddingSeq {
      assert r.embeddings[k] in db.embeddings;
    }
  }

  /** The document a processed file leaves: the next id, the fields past the gate and the saved file. */
  function NewRow(db: Orm, f: PdfIngest.PdfFile, a: Admitted): WaiverRow {
    WaiverRow(NextId(db.documentSeq), Get(f.metadata, "Program Title"), a.waiver, PdfIngest.ApplicationType(f.metadata),
              a.code, a.approved, PdfIngest.YearOf(a.approved), a.extra, Some(f.name))
  }

  /**
   * Before the page loop, the older documents with the file's waiver number are
   * gone, with their chunks and embeddings, and one new document records the
   * saved file; nothing else changed.
   */
  lemma WrittenTables(db: Orm, f: PdfIngest.PdfFile, a: Admitted)
    requires ValidOrm(db)
    ensures Written(db, f, a).documents == KeepDocuments(db.documents, a.waiver) + [NewRow(db, f, a)]
    ensures Written(db, f, a).chunks == KeepChunks(db.chunks, IdsOf(db.documents, a.waiver))
    ensures Written(db, f, a).embeddings == KeepEmbeddings(db.embeddings, IdsOf(db.documents, a.waiver))
    ensures Written(db, f, a).documentSeq == NextId(db.documentSeq)
    ensures Written(db, f, a).chunkSeq == db.chunkSeq && Written(db, f, a).embeddingSeq == db.embeddingSeq
    ensures ValidOrm(Written(db, f, a))
  {
    DeleteApplicationValid(db, a.waiver);
    var deleted := DeleteApplication(db, a.waiver);
    var created := CreateDocument(deleted, Get(f.metadata, "Program Title"), a.waiver,
                                  PdfIngest.ApplicationType(f.metadata), a.code, a.approved, PdfIngest.YearOf(a.approved),
                                  a.extra);
    var saved := SaveFilePath(created, NextId(db.documentSeq), f.name);
    assert saved == Written(db, f, a);
    var expected := KeepDocuments(db.documents, a.waiver) + [NewRow(db, f, a)];
    assert |saved.documents| == |expected|;
    forall k | 0 <= k < |expected| ensures saved.documents[k] == expected[k] {
      if k < |deleted.documents| {
        assert created.documents[k] == deleted.documents[k];
      }
    }
  }

  // ---------------------------------------------------------------------------
  // Properties: the page loop
  // ---------------------------------------------------------------------------

  /** The chunk rows of the buffered entries, in order. */
  function ChunksOf(docId: nat, buffer: seq<PdfIngest.VectorEntry>): seq<ChunkObj>
    decreases |buffer|
  {
    if buffer == [] then []
    else
      var e := buffer[|buffer| - 1];
      ChunksOf(docId, buffer[..|buffer| - 1]) + [ChunkObj(e.chunkId, docId, e.text, e.page, e.page - 1)]
  }

  /** The embedding rows of the buffered entries, in order, with consecutive ids from `first`. */
  function EmbeddingsOf(first: nat, docId: nat, buffer: seq<PdfIngest.VectorEntry>): seq<EmbeddingObj>
    decreases |buffer|
  {
    if buffer == [] then []
    else
      var e := buffer[|buffer| - 1];
      EmbeddingsOf(first, docId, buffer[..|buffer| - 1])
      + [EmbeddingObj(first + |buffer| - 1, "text", 0, Some(e.chunkId), docId)]
  }

  /** The page loop leaves the documents alone and appends one chunk row per buffered entry. */
  lemma {:induction false} PagesChunks(db: Orm, docId: nat, code: string, rel: string, texts: seq<string>, n: nat)
    requires n <= |texts|
    ensures Pages(db, docId, code, rel, texts, n).0.documents == db.documents
    ensures Pages(db, docId, code, rel, texts, n).0.documentSeq == db.documentSeq
    ensures Pages(db, docId, code, rel, texts, n).0.chunks == db.chunks + ChunksOf(docId, Pages(db, docId, code, rel, texts, n).1)
    decreases n
  {
    if n > 0 {
      PagesChunks(db, docId, code, rel, texts, n - 1);
      var r1 := Pages(db, docId, code, rel, texts, n - 1);
      var text := texts[n - 1];
      if text != "" {
        var e := PdfIngest.VectorEntry(text, NextId(r1.0.chunkSeq), docId, code, rel, n);
        assert (r1.1 + [e])[..|r1.1|] == r1.1;
        assert ChunksOf(docId, r1.1 + [e]) == ChunksOf(docId, r1.1) + [ChunkObj(e.chunkId, docId, text, n, n - 1)];
      }
    }
  }

  /**
   * The page loop appends one embedding row per buffered entry, pointing at its
   * chunk, with consecutive fresh ids.
   */
  lemma {:induction false} PagesEmbeddings(db: Orm, docId: nat, code: string, rel: string, texts: seq<string>, n: nat)
    requires n <= |texts|
    ensures Pages(db, docId, code, rel, texts, n).0.embeddings
         == db.embeddings + EmbeddingsOf(db.embeddingSeq + 1, docId, Pages(db, docId, code, rel, texts, n).1)
    ensures Pages(db, docId, code, rel, texts, n).0.embeddingSeq == db.embeddingSeq + |Pages(db, docId, code, rel, texts, n).1|
    decreases n
  {
    if n > 0 {
      PagesEmbeddings(db, docId, code, rel, texts, n - 1);
      var r1 := Pages(db, docId, code, rel, texts, n - 1);
      var text := texts[n - 1];
      if text != "" {
        var e := PdfIngest.VectorEntry(text, NextId(r1.0.chunkSeq), docId, code, rel, n);
        assert (r1.1 + [e])[..|r1.1|] == r1.1;
        assert EmbeddingsOf(db.embeddingSeq + 1, docId, r1.1 + [e])
            == EmbeddingsOf(db.embeddingSeq + 1, docId, r1.1)
               + [EmbeddingObj(db.embeddingSeq + 1 + |r1.1|, "text", 0, Some(e.chunkId), docId)];
      }
    }
  }

  /**
   * Entry `k` of the buffer is the `k`-th page with text, with the `k`-th fresh
   * chunk id: the same entries as `ingest_pdf_folder` buffers.
   */
  lemma {:induction false} PagesEntries(db: Orm, docId: nat, code: string, rel: string, texts: seq<string>, n: nat)
    requires n <= |texts|
    ensures PdfIngest.EntriesFor(Pages(db, docId, code, rel, texts, n).1, PdfIngest.NonEmptyPages(texts, n), texts,
                                 db.chunkSeq + 1, docId, code, rel)
    ensures Pages(db, docId, code, rel, texts, n).0.chunkSeq == db.chunkSeq + |Pages(db, docId, code, rel, texts, n).1|
    decreases n
  {
    if n > 0 {
      PagesEntries(db, docId, code, rel, texts, n - 1);
      var r1 := Pages(db, docId, code, rel, texts, n - 1);
      if texts[n - 1] != "" {
        PdfIngest.EntriesForSnoc(r1.1, PdfIngest.NonEmptyPages(texts, n - 1), texts, db.chunkSeq + 1, docId, code, rel,
                                 n - 1);
      }
    }
  }

  /** The page loop keeps every id below its sequence. */
  lemma {:induction false} PagesValid(db: Orm, docId: nat, code: string, rel: string, texts: seq<string>, n: nat)
    requires ValidOrm(db) && n <= |texts|
    ensures ValidOrm(Pages(db, docId, code, rel, texts, n).0)
    decreases n
  {
    if n > 0 {
      PagesValid(db, docId, code, rel, texts, n - 1);
    }
  }

  // ---------------------------------------------------------------------------
  // Properties: one file
  // ---------------------------------------------------------------------------

  /** The gate is that of `ingest_pdf_folder`: the same files pass it, with the same fields. */
  lemma GateAgrees(stateToCode: map<string, string>, metadata: map<string, string>, name: string,
                   parseDate: string -> Option<Slug.Date>)
    ensures Admit(stateToCode, metadata, parseDate).None? <==> PdfIngest.Prepare(stateToCode, metadata, name, parseDate).None?
    ensures Admit(stateToCode, metadata, parseDate).Some? ==>
      var a := Admit(stateToCode, metadata, parseDate).value;
      var p := PdfIngest.Prepare(stateToCode, metadata, name, parseDate).value;
      a.code == p.code && a.waiver == p.waiver && a.approved == p.approved && a.extra == p.extra
  {
  }

  /** A file that is new or changed, extracted and past the gate goes through the atomic block. */
  lemma HandleFileAdmits(stateToCode: map<string, string>, w: World, f: PdfIngest.PdfFile,
                         parseDate: string -> Option<Slug.Date>)
    requires Get(w.manifest, f.relPath) != Some(f.hash) && !PdfIngest.Fires(f, PdfIngest.Extract)
    requires Admit(stateToCode, f.metadata, parseDate).Some?
    ensures HandleFile(stateToCode, w, f, parseDate) == Atomic(w, f, Admit(stateToCode, f.metadata, parseDate).value)
  {
  }

  /** With no fault before the vector write and no failing vector write, the block commits. */
  lemma AtomicCommits(w: World, f: PdfIngest.PdfFile, a: Admitted)
    requires !PdfIngest.Fires(f, PdfIngest.Insert) && !PdfIngest.Fires(f, PdfIngest.Copy) && PdfIngest.PageStop(f).None?
    requires !(Paged(w.orm, f, a).1 != [] && PdfIngest.Fires(f, PdfIngest.VectorWrite))
    ensures Atomic(w, f, a).1 == PdfIngest.Processed
    ensures Atomic(w, f, a).0
         == World(Paged(w.orm, f, a).0, w.media[f.name := f.hash],
                  if Paged(w.orm, f, a).1 != [] then Some(w.vectors.GetOr([]) + Paged(w.orm, f, a).1) else w.vectors,
                  w.manifest[f.relPath := f.hash])
  {
  }

  /**
   * The block reports the file processed or interrupted by its own fault; only
   * a processed file enters the manifest, and the tables afterwards are either
   * those before the block or those the block wrote.
   */
  lemma AtomicOutcome(w: World, f: PdfIngest.PdfFile, a: Admitted)
    ensures Atomic(w, f, a).1 == PdfIngest.Processed
         || (f.fault != PdfIngest.NoFault && Atomic(w, f, a).1 == PdfIngest.Interrupted(f.fault))
    ensures Atomic(w, f, a).0.manifest
         == if Atomic(w, f, a).1 == PdfIngest.Processed then w.manifest[f.relPath := f.hash] else w.manifest
    ensures Atomic(w, f, a).0.orm == w.orm || Atomic(w, f, a).0.orm == Paged(w.orm, f, a).0
    ensures Atomic(w, f, a).1 == PdfIngest.Processed ==>
      && !PdfIngest.Fires(f, PdfIngest.Insert) && !PdfIngest.Fires(f, PdfIngest.Copy) && PdfIngest.PageStop(f).None?
      && !(Paged(w.orm, f, a).1 != [] && PdfIngest.Fires(f, PdfIngest.VectorWrite))
  {
    if !PdfIngest.Fires(f, PdfIngest.Insert) && !PdfIngest.Fires(f, PdfIngest.Copy) && PdfIngest.PageStop(f).None? {
      if !(Paged(w.orm, f, a).1 != [] && PdfIngest.Fires(f, PdfIngest.VectorWrite)) {
        AtomicCommits(w, f, a);
      }
    }
  }

  /**
   * A file whose hash is in the manifest is reported unchanged, and a file past
   * extraction that fails the gate is reported as missing metadata; neither
   * changes anything.
   */
  lemma SkipsWriteNothing(stateToCode: map<string, string>, w: World, f: PdfIngest.PdfFile,
                          parseDate: string -> Option<Slug.Date>)
    ensures HandleFile(stateToCode, w, f, parseDate).1 == PdfIngest.Unchanged <==> Get(w.manifest, f.relPath) == Some(f.hash)
    ensures HandleFile(stateToCode, w, f, parseDate).1 == PdfIngest.MissingMetadata
        <==> Get(w.manifest, f.relPath) != Some(f.hash) && !PdfIngest.Fires(f, PdfIngest.Extract)
             && Admit(stateToCode, f.metadata, parseDate).None?
    ensures HandleFile(stateToCode, w, f, parseDate).1 == PdfIngest.Unchanged
         || HandleFile(stateToCode, w, f, parseDate).1 == PdfIngest.MissingMetadata
        ==> HandleFile(stateToCode, w, f, parseDate).0 == w
  {
    if Get(w.manifest, f.relPath) != Some(f.hash) && !PdfIngest.Fires(f, PdfIngest.Extract) {
      var a := Admit(stateToCode, f.metadata, parseDate);
      if a.Some? {
        HandleFileAdmits(stateToCode, w, f, parseDate);
        AtomicOutcome(w, f, a.value);
      }
    }
  }

  /** `indexed_data` gains the file's hash exactly when the file is processed. */
  lemma ManifestOnlyOnSuccess(stateToCode: map<string, string>, w: World, f: PdfIngest.PdfFile,
                              parseDate: string -> Option<Slug.Date>)
    ensures HandleFile(stateToCode, w, f, parseDate).0.manifest
         == if HandleFile(stateToCode, w, f, parseDate).1 == PdfIngest.Processed then w.manifest[f.relPath := f.hash]
            else w.manifest
  {
    if Get(w.manifest, f.relPath) != Some(f.hash) && !PdfIngest.Fires(f, PdfIngest.Extract) {
      var a := Admit(stateToCode, f.metadata, parseDate);
      if a.Some? {
        HandleFileAdmits(stateToCode, w, f, parseDate);
        AtomicOutcome(w, f, a.value);
      }
    }
  }

  /**
   * A timeout or an exception inside `transaction.atomic()` rolls the tables
   * back: the file is reported interrupted and the tables, the vector table and
   * the manifest are as before. The media file stays once it was saved.
   */
  lemma FaultInBlockRollsBack(stateToCode: map<string, string>, w: World, f: PdfIngest.PdfFile,
                              parseDate: string -> Option<Slug.Date>)
    requires Get(w.manifest, f.relPath) != Some(f.hash) && !PdfIngest.Fires(f, PdfIngest.Extract)
    requires Admit(stateToCode, f.metadata, parseDate).Some?
    requires PdfIngest.Fires(f, PdfIngest.Insert) || PdfIngest.Fires(f, PdfIngest.Copy) || PdfIngest.PageStop(f).Some?
    ensures f.fault != PdfIngest.NoFault
    ensures HandleFile(stateToCode, w, f, parseDate).1 == PdfIngest.Interrupted(f.fault)
    ensures HandleFile(stateToCode, w, f, parseDate).0.orm == w.orm
    ensures HandleFile(stateToCode, w, f, parseDate).0.vectors == w.vectors
    ensures HandleFile(stateToCode, w, f, parseDate).0.manifest == w.manifest
    ensures HandleFile(stateToCode, w, f, parseDate).0.media
         == if PdfIngest.PageStop(f).Some? then w.media[f.name := f.hash] else w.media
  {
    HandleFileAdmits(stateToCode, w, f, parseDate);
  }

  /**
   * A failing vector write comes after the block committed: the file is
   * reported failed, its rows and its media file stay, and the vector table and
   * the manifest are as before.
   */
  lemma VectorWriteFailureKeepsRows(stateToCode: map<string, string>, w: World, f: PdfIngest.PdfFile,
                                    parseDate: string -> Option<Slug.Date>)
    requires Get(w.manifest, f.relPath) != Some(f.hash) && !PdfIngest.Fires(f, PdfIngest.Extract)
    requires Admit(stateToCode, f.metadata, parseDate).Some?
    requires PdfIngest.Fires(f, PdfIngest.VectorWrite)
    requires Paged(w.orm, f, Admit(stateToCode, f.metadata, parseDate).value).1 != []
    ensures f.fault.Raise?
    ensures HandleFile(stateToCode, w, f, parseDate).1 == PdfIngest.Failed(f.fault.message)
    ensures HandleFile(stateToCode, w, f, parseDate).0.orm == Paged(w.orm, f, Admit(stateToCode, f.metadata, parseDate).value).0
    ensures HandleFile(stateToCode, w, f, parseDate).0.media == w.media[f.name := f.hash]
    ensures HandleFile(stateToCode, w, f, parseDate).0.vectors == w.vectors
    ensures HandleFile(stateToCode, w, f, parseDate).0.manifest == w.manifest
  {
    HandleFileAdmits(stateToCode, w, f, parseDate);
  }

  /**
   * The block leaves, for a file past the gate, the other documents and one new
   * document with the file's waiver number.
   */
  lemma PagedDocuments(db: Orm, f: PdfIngest.PdfFile, a: Admitted)
    requires ValidOrm(db)
    ensures Paged(db, f, a).0.documents == KeepDocuments(db.documents, a.waiver) + [NewRow(db, f, a)]
    ensures forall row | row in Paged(db, f, a).0.documents && row.applicationNumber == a.waiver :: row == NewRow(db, f, a)
  {
    var written := Written(db, f, a);
    WrittenTables(db, f, a);
    PagesChunks(written, NextId(db.documentSeq), a.code, f.relPath, PdfIngest.Texts(f.pages), |f.pages|);
    FilterMembers(db.documents, (r: WaiverRow) => r.applicationNumber != a.waiver);
  }

  /**
   * The block leaves the chunks and embeddings of the other documents, and
   * appends one chunk and one embedding per page with text.
   */
  lemma PagedRows(db: Orm, f: PdfIngest.PdfFile, a: Admitted)
    requires ValidOrm(db)
    ensures Paged(db, f, a).0.chunks
         == KeepChunks(db.chunks, IdsOf(db.documents, a.waiver)) + ChunksOf(NextId(db.documentSeq), Paged(db, f, a).1)
    ensures Paged(db, f, a).0.embeddings
         == KeepEmbeddings(db.embeddings, IdsOf(db.documents, a.waiver))
            + EmbeddingsOf(db.embeddingSeq + 1, NextId(db.documentSeq), Paged(db, f, a).1)
    ensures PdfIngest.EntriesFor(Paged(db, f, a).1, PdfIngest.NonEmptyPages(PdfIngest.Texts(f.pages), |f.pages|),
                                 PdfIngest.Texts(f.pages), db.chunkSeq + 1, NextId(db.documentSeq), a.code, f.relPath)
  {
    var written := Written(db, f, a);
    WrittenTables(db, f, a);
    var docId := NextId(db.documentSeq);
    var texts := PdfIngest.Texts(f.pages);
    PagesChunks(written, docId, a.code, f.relPath, texts, |f.pages|);
    PagesEmbeddings(written, docId, a.code, f.relPath, texts, |f.pages|);
    PagesEntries(written, docId, a.code, f.relPath, texts, |f.pages|);
  }

  /** A processed file passed the gate and the block committed. */
  lemma ProcessedCommits(stateToCode: map<string, string>, w: World, f: PdfIngest.PdfFile,
                         parseDate: string -> Option<Slug.Date>)
    requires HandleFile(stateToCode, w, f, parseDate).1 == PdfIngest.Processed
    ensures Admit(stateToCode, f.metadata, parseDate).Some?
    ensures var a := Admit(stateToCode, f.metadata, parseDate).value;
      HandleFile(stateToCode, w, f, parseDate).0
        == World(Paged(w.orm, f, a).0, w.media[f.name := f.hash],
                 if Paged(w.orm, f, a).1 != [] then Some(w.vectors.GetOr([]) + Paged(w.orm, f, a).1) else w.vectors,
                 w.manifest[f.relPath := f.hash])
  {
    SkipsWriteNothing(stateToCode, w, f, parseDate);
    var a := Admit(stateToCode, f.metadata, parseDate).value;
    HandleFileAdmits(stateToCode, w, f, parseDate);
    AtomicOutcome(w, f, a);
    AtomicCommits(w, f, a);
  }

  /**
   * A processed file leaves one document for its waiver number, the new one,
   * recording the saved file; the older documents with that number are gone
   * with their chunks and embeddings; every page with text added one chunk,
   * one embedding and one vector entry; the media storage, the vector table
   * and the manifest hold the file.
   */
  lemma ProcessedFileWrites(stateToCode: map<string, string>, w: World, f: PdfIngest.PdfFile,
                            parseDate: string -> Option<Slug.Date>, r: World)
    requires ValidOrm(w.orm)
    requires HandleFile(stateToCode, w, f, parseDate) == (r, PdfIngest.Processed)
    ensures Admit(stateToCode, f.metadata, parseDate).Some?
    ensures var a := Admit(stateToCode, f.metadata, parseDate).value;
      var buffer := Paged(w.orm, f, a).1;
      var docId := NextId(w.orm.documentSeq);
      var gone := IdsOf(w.orm.documents, a.waiver);
      && r.orm.documents == KeepDocuments(w.orm.documents, a.waiver) + [NewRow(w.orm, f, a)]
      && (forall row | row in r.orm.documents && row.applicationNumber == a.waiver :: row == NewRow(w.orm, f, a))
      && r.orm.chunks == KeepChunks(w.orm.chunks, gone) + ChunksOf(docId, buffer)
      && r.orm.embeddings == KeepEmbeddings(w.orm.embeddings, gone) + EmbeddingsOf(w.orm.embeddingSeq + 1, docId, buffer)
      && PdfIngest.EntriesFor(buffer, PdfIngest.NonEmptyPages(PdfIngest.Texts(f.pages), |f.pages|), PdfIngest.Texts(f.pages),
                              w.orm.chunkSeq + 1, docId, a.code, f.relPath)
      && r.vectors == (if buffer != [] then Some(w.vectors.GetOr([]) + buffer) else w.vectors)
      && r.media == w.media[f.name := f.hash]
      && r.manifest == w.manifest[f.relPath := f.hash]
  {
    ProcessedCommits(stateToCode, w, f, parseDate);
    var a := Admit(stateToCode, f.metadata, parseDate).value;
    var paged := Paged(w.orm, f, a);
    assert r.orm == paged.0 && r.vectors == (if paged.1 != [] then Some(w.vectors.GetOr([]) + paged.1) else w.vectors);
    PagedDocuments(w.orm, f, a);
    PagedRows(w.orm, f, a);
  }

  /** The tables a file can leave keep fresh ids and distinct waiver numbers. */
  lemma PagedKeepsInvariant(db: Orm, f: PdfIngest.PdfFile, a: Admitted)
    requires ValidOrm(db) && UniqueNumbers(db.documents)
    ensures ValidOrm(Paged(db, f, a).0) && UniqueNumbers(Paged(db, f, a).0.documents)
  {
    var written := Written(db, f, a);
    WrittenTables(db, f, a);
    DeleteApplicationRemoves(db, a.waiver);
    var texts := PdfIngest.Texts(f.pages);
    PagesValid(written, NextId(db.documentSeq), a.code, f.relPath, texts, |f.pages|);
    PagesChunks(written, NextId(db.documentSeq), a.code, f.relPath, texts, |f.pages|);
    var kept := KeepDocuments(db.documents, a.waiver);
    var docs := kept + [NewRow(db, f, a)];
    forall k, l | 0 <= k < l < |docs| ensures docs[k].applicationNumber != docs[l].applicationNumber {
      if l == |kept| {
        assert docs[k] in kept;
      } else {
        assert docs[k] == kept[k] && docs[l] == kept[l];
      }
    }
  }

  /** Every file keeps the ids fresh and the waiver numbers distinct. */
  lemma HandleFileKeepsInvariant(stateToCode: map<string, string>, w: World, f: PdfIngest.PdfFile,
                                 parseDate: string -> Option<Slug.Date>)
    requires ValidOrm(w.orm) && UniqueNumbers(w.orm.documents)
    ensures ValidOrm(HandleFile(stateToCode, w, f, parseDate).0.orm)
    ensures UniqueNumbers(HandleFile(stateToCode, w, f, parseDate).0.orm.documents)
  {
    if Get(w.manifest, f.relPath) != Some(f.hash) && !PdfIngest.Fires(f, PdfIngest.Extract) {
      var a := Admit(stateToCode, f.metadata, parseDate);
      if a.Some? {
        HandleFileAdmits(stateToCode, w, f, parseDate);
        AtomicOutcome(w, f, a.value);
        PagedKeepsInvariant(w.orm, f, a.value);
      }
    }
  }

  // ---------------------------------------------------------------------------
  // Properties: the run
  // ---------------------------------------------------------------------------

  /** The run reports one outcome per file, after the earlier ones, and keeps the tables' invariant. */
  lemma {:induction false} RunKeepsInvariant(stateToCode: map<string, string>, start: Run, files: seq<PdfIngest.PdfFile>,
                                             parseDate: string -> Option<Slug.Date>)
    requires ValidOrm(start.world.orm) && UniqueNumbers(start.world.orm.documents)
    ensures ValidOrm(RunFiles(stateToCode, start, files, parseDate).world.orm)
    ensures UniqueNumbers(RunFiles(stateToCode, start, files, parseDate).world.orm.documents)
    ensures |RunFiles(stateToCode, start, files, parseDate).outcomes| == |start.outcomes| + |files|
    ensures RunFiles(stateToCode, start, files, parseDate).outcomes[..|start.outcomes|] == start.outcomes
    decreases |files|
  {
    if files != [] {
      var before := RunFiles(stateToCode, start, files[..|files| - 1], parseDate);
      RunKeepsInvariant(stateToCode, start, files[..|files| - 1], parseDate);
      HandleFileKeepsInvariant(stateToCode, before.world, files[|files| - 1], parseDate);
      var o := HandleFile(stateToCode, before.world, files[|files| - 1], parseDate).1;
      assert (before.outcomes + [o])[..|start.outcomes|] == before.outcomes[..|start.outcomes|];
    }
  }

  /**
   * The tables are emptied and the vector table dropped before the folder is
   * checked: a missing folder still leaves no rows and no vector table, and the
   * tracking file as it was.
   */
  lemma MissingFolderStillResets(disk: Disk, files: seq<PdfIngest.PdfFile>, parseDate: string -> Option<Slug.Date>)
    ensures Handle(disk, false, files, parseDate).0
         == if disk.trackFile.TrackNotJson? then ManifestUnreadable else FolderNotFound
    ensures Handle(disk, false, files, parseDate).1.orm.documents == []
    ensures Handle(disk, false, files, parseDate).1.orm.chunks == []
    ensures Handle(disk, false, files, parseDate).1.orm.embeddings == []
    ensures Handle(disk, false, files, parseDate).1.vectors == None
    ensures Handle(disk, false, files, parseDate).1.media == disk.media
    ensures Handle(disk, false, files, parseDate).1.trackFile == disk.trackFile
  {
  }

  /**
   * A run over an existing folder reports one outcome per file, leaves at most
   * one document per waiver number and removes the tracking file, so the next
   * run starts from an empty manifest.
   */
  lemma FinishedRun(disk: Disk, files: seq<PdfIngest.PdfFile>, parseDate: string -> Option<Slug.Date>)
    requires !PdfIngest.UnreadableManifest(disk.trackFile, |files|)
    ensures Handle(disk, true, files, parseDate).0.Finished?
    ensures |Handle(disk, true, files, parseDate).0.outcomes| == |files|
    ensures ValidOrm(Handle(disk, true, files, parseDate).1.orm)
    ensures UniqueNumbers(Handle(disk, true, files, parseDate).1.orm.documents)
    ensures Handle(disk, true, files, parseDate).1.trackFile == PdfIngest.NoTrackFile
    ensures Reset(Handle(disk, true, files, parseDate).1).manifest == map[]
  {
    RunKeepsInvariant(Config.StateToCode(), Run(Reset(disk), []), files, parseDate);
  }

  /**
   * A tracking file that is not JSON, or JSON that is not an object when some
   * file is looked up in it, makes the command raise after the destructive
   * reset: no rows and no vector table remain, and the media storage and the
   * tracking file are as they were.
   */
  lemma UnreadableManifestAborts(disk: Disk, folderExists: bool, files: seq<PdfIngest.PdfFile>,
                                 parseDate: string -> Option<Slug.Date>)
    requires disk.trackFile.TrackNotJson? || (folderExists && PdfIngest.UnreadableManifest(disk.trackFile, |files|))
    ensures Handle(disk, folderExists, files, parseDate).0 == ManifestUnreadable
    ensures Handle(disk, folderExists, files, parseDate).1.orm.documents == []
    ensures Handle(disk, folderExists, files, parseDate).1.orm.chunks == []
    ensures Handle(disk, folderExists, files, parseDate).1.orm.embeddings == []
    ensures Handle(disk, folderExists, files, parseDate).1.vectors == None
    ensures Handle(disk, folderExists, files, parseDate).1.media == disk.media
    ensures Handle(disk, folderExists, files, parseDate).1.trackFile == disk.trackFile
  {
  }
}
