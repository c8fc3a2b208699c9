/**
 * `ingest_pdf_folder`, the batch ingest of a folder of waiver PDFs into the
 * SQLite store, the uploads folder and the `policy_docs` vector table.
 *
 * A file is a record of what the run learns about it: its path relative to the
 * folder, its MD5 hash, the fields extraction finds, the texts of its pages, and
 * a fault oracle naming the step at which the alarm fires or an exception is
 * raised. `ProcessFile` is the per-file state machine over a `World` value and
 * `RunFiles` folds it over the files; `IngestPdfFolder` is the loop itself over
 * the `Storage.Store` object and a `Workspace` object, proved to end in the state
 * and with the result those functions give.
 */
module PdfIngest {
  import opened Wrappers
  import opened Text
  import Config
  import Slug
  import opened Storage

  // ---------------------------------------------------------------------------
  // Files and faults
  // ---------------------------------------------------------------------------

  /** Where in a file's processing an interruption happens. */
  datatype Step =
    | Extract            // while the fields are extracted
    | Copy               // while the file is copied into the uploads folder
    | Insert             // while the document row is inserted
    | Page(index: nat)   // before page `index` is handled; `index == |pages|` is after the last page
    | VectorWrite        // while the chunks are embedded and written to the vector table

  /** The oracle: no interruption, the alarm firing at a step, or an exception raised at a step. */
  datatype Fault = NoFault | Timeout(at: Step) | Raise(at: Step, message: string)

  /** One `*.pdf` found under the folder. */
  datatype PdfFile = PdfFile(
    relPath: string,
    name: string,
    hash: string,
    metadata: map<string, string>,
    pages: seq<string>,
    fault: Fault)

  /**
   * Whether the file's fault interrupts it at step `s`. The alarm is disarmed
   * before the vector write, so a timeout never fires there; a page fault past
   * the end of the document names no point of the run and never fires.
   */
  predicate Fires(f: PdfFile, s: Step) {
    match f.fault
    case NoFault => false
    case Timeout(at) => at == s && s != VectorWrite && (s.Page? ==> s.index <= |f.pages|)
    case Raise(at, _) => at == s && (s.Page? ==> s.index <= |f.pages|)
  }

  /** The page before which the file is interrupted, if it is interrupted among its pages. */
  function PageStop(f: PdfFile): (r: Option<nat>)
    ensures r.Some? <==> exists i: nat | i <= |f.pages| :: Fires(f, Page(i))
    ensures r.Some? ==> r.value <= |f.pages| && Fires(f, Page(r.value))
  {
    if f.fault != NoFault && f.fault.at.Page? && f.fault.at.index <= |f.pages| then Some(f.fault.at.index)
    else None
  }

  // ---------------------------------------------------------------------------
  // Outcomes and events
  // ---------------------------------------------------------------------------

  /** What became of one file. */
  datatype Outcome =
    | Unchanged          // its hash equals the manifest entry
    | MissingMetadata    // no state code or no waiver number
    | TimedOut
    | Failed(message: string)
    | Processed

  /** `TimeoutException` is caught apart from every other exception. */
  function Interrupted(fault: Fault): (o: Outcome)
    requires fault != NoFault
    ensures fault.Timeout? <==> o == TimedOut
    ensures fault.Raise? <==> o.Failed?
    ensures fault.Raise? ==> o == Failed(fault.message)
  {
    match fault
    case Timeout(_) => TimedOut
    case Raise(_, message) => Failed(message)
  }

  /** The dictionary handed to `on_progress`. */
  datatype Event = Event(name: string, path: string, error: Option<string>)

  function EventOf(o: Outcome, path: string): (e: Event)
    ensures e.path == path
    ensures e.error.Some? <==> o.Failed?
  {
    match o
    case Unchanged => Event("skip", path, None)
    case MissingMetadata => Event("skip_missing_metadata", path, None)
    case TimedOut => Event("timeout", path, None)
    case Failed(message) => Event("error", path, Some(message))
    case Processed => Event("processed", path, None)
  }

  datatype Counters = Counters(processed: nat, skipped: nat, failed: nat)

  /** A timeout is counted as skipped, as are both kinds of skip. */
  function Count(c: Counters, o: Outcome): Counters {
    match o
    case Processed => c.(processed := c.processed + 1)
    case Failed(_) => c.(failed := c.failed + 1)
    case _ => c.(skipped := c.skipped + 1)
  }

  // ---------------------------------------------------------------------------
  // The stores a run writes
  // ---------------------------------------------------------------------------

  /** One LangChain `Document` of `doc_vector_buffer`: the chunk text and its metadata. */
  datatype VectorEntry = VectorEntry(text: string, chunkId: nat, docId: nat, state: string, sourcePath: string, page: nat)

  datatype TableMode = Overwrite | Append

  /** `"overwrite" if "policy_docs" not in db.table_names() else "append"` */
  function ModeFor(table: Option<seq<VectorEntry>>): (m: TableMode)
    ensures m == Overwrite <==> table.None?
  {
    if table.None? then Overwrite else Append
  }

  /** `LanceDB.from_documents(..., mode=table_mode)`: the table afterwards. */
  function WriteVectors(table: Option<seq<VectorEntry>>, buffer: seq<VectorEntry>): (r: Option<seq<VectorEntry>>)
    ensures r == Some(table.GetOr([]) + buffer)
  {
    match ModeFor(table)
    case Overwrite => assert [] + buffer == buffer; Some(buffer)
    case Append => Some(table.value + buffer)
  }

  /**
   * What one file can change: the database, the vector table, the uploads folder
   * (stored path to the hash of the copied content) and the in-memory manifest
   * `indexed_data`.
   */
  datatype World = World(db: Db, vectors: Option<seq<VectorEntry>>, uploads: map<string, string>,
                         manifest: map<string, string>)

  // ---------------------------------------------------------------------------
  // One file
  // ---------------------------------------------------------------------------

  /** The fields kept out of `extra`. */
  const ExcludeKeys := {"Program Title", "Waiver Number", "State", "Approved Effective Date", "Amendment Number"}

  /** What the gate lets through: the state code, the waiver number, the approved date, the stored path and `extra`. */
  datatype Prepared = Prepared(code: string, waiver: string, approved: Option<Slug.Date>, storedPath: string,
                               extra: map<string, string>)

  /**
   * The gate on the extracted fields and what is derived from them, or `None`
   * when the state is not a key of `stateToCode` or the waiver number is missing
   * or empty. `parseDate` is `parse_effective_date`.
   */
  function Prepare(stateToCode: map<string, string>, metadata: map<string, string>, name: string,
                   parseDate: string -> Option<Slug.Date>)
    : (r: Option<Prepared>)
  {
    var code := Get(stateToCode, Lower(Get(metadata, "State").GetOr("")));
    var waiver := Get(metadata, "Waiver Number").GetOr("");
    if code.None? || code.value == "" || waiver == "" then None
    else
      var approved := parseDate(Get(metadata, "Approved Effective Date").GetOr(""));
      var stored := Slug.BuildUploadPath(code.value, waiver, approved, name);
      Some(Prepared(code.value, waiver, approved, Slug.PathText(stored),
                    map k | k in metadata && k !in ExcludeKeys :: metadata[k]))
  }

  /** `"AMENDMENT" if metadata.get("Amendment Number") else "NEW"` */
  function ApplicationType(metadata: map<string, string>): string {
    if Get(metadata, "Amendment Number").GetOr("") != "" then "AMENDMENT" else "NEW"
  }

  function IsoOf(d: Option<Slug.Date>): Option<string> {
    if d.Some? then Some(Slug.IsoDate(d.value)) else None
  }

  function YearOf(d: Option<Slug.Date>): Option<int> {
    if d.Some? then Some(d.value.year) else None
  }

  /** The `insert_document` call of a file that passed the gate. */
  function InsertRow(db: Db, f: PdfFile, p: Prepared): (r: Db)
    requires db.initialized
    ensures r.initialized
  {
    AddDocument(db, f.relPath, p.storedPath, p.code, p.waiver, Get(f.metadata, "Program Title"),
                ApplicationType(f.metadata), IsoOf(p.approved), YearOf(p.approved), Some(p.extra))
  }

  /** `page.get_text("text").strip()` for every page. */
  function Texts(pages: seq<string>): (r: seq<string>)
    ensures |r| == |pages| && forall i | 0 <= i < |pages| :: r[i] == Strip(pages[i])
  {
    seq(|pages|, i requires 0 <= i < |pages| => Strip(pages[i]))
  }

  /**
   * The page loop over the stripped texts `texts[..n]`: a chunk row and a
   * buffered vector entry for every page whose text is non-empty.
   */
  function Chunked(db: Db, docId: nat, code: string, rel: string, texts: seq<string>, n: nat)
    : (r: (Db, seq<VectorEntry>))
    requires db.initialized && n <= |texts|
    ensures r.0.initialized
    decreases n
  {
    if n == 0 then (db, [])
    else
      var (db1, buffer) := Chunked(db, docId, code, rel, texts, n - 1);
      ChunkStep(db1, buffer, docId, code, rel, texts[n - 1], n)
  }

  /** Page `n` (counting from one) with stripped text `text`. */
  function ChunkStep(db: Db, buffer: seq<VectorEntry>, docId: nat, code: string, rel: string, text: string, n: nat)
    : (r: (Db, seq<VectorEntry>))
    requires db.initialized && n >= 1
    ensures r.0.initialized
  {
    if text == "" then (db, buffer)
    else (AddChunk(db, docId, text, n, n - 1), buffer + [VectorEntry(text, NextChunkId(db), docId, code, rel, n)])
  }

  /** From the page loop on, for a file whose document row has id `docId`. */
  function Index(w: World, f: PdfFile, p: Prepared, docId: nat): (r: (World, Outcome))
    requires w.db.initialized
    ensures r.0.db.initialized
  {
    match PageStop(f)
    case Some(i) => (w.(db := Chunked(w.db, docId, p.code, f.relPath, Texts(f.pages), i).0), Interrupted(f.fault))
    case None =>
      var (db, buffer) := Chunked(w.db, docId, p.code, f.relPath, Texts(f.pages), |f.pages|);
      if buffer != [] && Fires(f, VectorWrite) then (w.(db := db), Interrupted(f.fault))
      else
        var vectors := if buffer != [] then WriteVectors(w.vectors, buffer) else w.vectors;
        (w.(db := db, vectors := vectors, manifest := w.manifest[f.relPath := f.hash]), Processed)
  }

  /** One pass of the `for pdf_path in ...` loop body: the state afterwards and the outcome. */
  function ProcessFile(stateToCode: map<string, string>, w: World, f: PdfFile, parseDate: string -> Option<Slug.Date>): (r: (World, Outcome))
    requires w.db.initialized
    ensures r.0.db.initialized
  {
    if Get(w.manifest, f.relPath) == Some(f.hash) then (w, Unchanged)
    else if Fires(f, Extract) then (w, Interrupted(f.fault))
    else
      match Prepare(stateToCode, f.metadata, f.name, parseDate)
      case None => (w, MissingMetadata)
      case Some(p) =>
        Admit(w, f, p)
  }

  /** A file past the gate: the copy, the document row, and the rest. */
  function Admit(w: World, f: PdfFile, p: Prepared): (r: (World, Outcome))
    requires w.db.initialized
    ensures r.0.db.initialized
  {
    if Fires(f, Copy) then (w, Interrupted(f.fault))
    else
      var copied := w.(uploads := w.uploads[p.storedPath := f.hash]);
      if Fires(f, Insert) then (copied, Interrupted(f.fault))
      else Index(copied.(db := InsertRow(copied.db, f, p)), f, p, NextDocumentId(copied.db))
  }

  // ---------------------------------------------------------------------------
  // The run
  // ---------------------------------------------------------------------------

  datatype Run = Run(world: World, counters: Counters, events: seq<Event>)

  function RunStep(stateToCode: map<string, string>, run: Run, f: PdfFile, parseDate: string -> Option<Slug.Date>): (r: Run)
    requires run.world.db.initialized
    ensures r.world.db.initialized
  {
    var (w, o) := ProcessFile(stateToCode, run.world, f, parseDate);
    Run(w, Count(run.counters, o), run.events + [EventOf(o, f.relPath)])
  }

  /** The loop over the files, in the order `rglob` yields them. */
  function RunFiles(stateToCode: map<string, string>, start: Run, files: seq<PdfFile>, parseDate: string -> Option<Slug.Date>): (r: Run)
    requires start.world.db.initialized
    ensures r.world.db.initialized
    decreases |files|
  {
    if files == [] then start
    else RunStep(stateToCode, RunFiles(stateToCode, start, files[..|files| - 1], parseDate), files[|files| - 1], parseDate)
  }

  /**
   * `indexed_files.json` as `json.loads` reads it: no file, a JSON object of
   * path → hash entries, JSON of another kind (a list, a string, a number or
   * `null`), or text that is not JSON.
   */
  datatype TrackFile = NoTrackFile | TrackObject(entries: map<string, string>) | TrackOtherJson | TrackNotJson

  /** `indexed_data` as the loop reads it: the object's entries, or `{}` when there is no file. */
  function ManifestOf(t: TrackFile): map<string, string> {
    if t.TrackObject? then t.entries else map[]
  }

  /**
   * The tracking file makes the command raise: `json.loads` raises on text
   * that is not JSON, and `indexed_data.get` raises at the first file on JSON
   * that is not an object.
   */
  predicate UnreadableManifest(t: TrackFile, fileCount: nat) {
    t.TrackNotJson? || (t.TrackOtherJson? && fileCount > 0)
  }

  /** The tracking file written at the end: `json.dumps` of the object, or of the other JSON value read. */
  function Persisted(t: TrackFile, manifest: map<string, string>): TrackFile {
    if t.TrackOtherJson? then TrackOtherJson else TrackObject(manifest)
  }

  /**
   * Everything the run reads and writes across runs: the database file, the
   * vector table, the uploads folder and `indexed_files.json`.
   */
  datatype Disk = Disk(db: Db, vectors: Option<seq<VectorEntry>>, uploads: map<string, string>, trackFile: TrackFile)

  datatype Summary = Summary(processed: nat, skipped: nat, failed: nat, total: nat)

  /** The call returns a summary, or raises before the loop or at its first file. */
  datatype IngestResult = FolderNotFound | ManifestUnreadable | Finished(summary: Summary, events: seq<Event>)

  /** Before the loop: `init_db()`, the vector table dropped, `clear_all()` if asked, the manifest read. */
  function Start(disk: Disk, clearExisting: bool): (w: World)
    ensures w.db.initialized
  {
    var db := InitTables(disk.db);
    World(if clearExisting then ClearTables(db) else db, None, disk.uploads, ManifestOf(disk.trackFile))
  }

  /** `ingest_pdf_folder`: the result and the disk afterwards. */
  function Ingest(disk: Disk, folderExists: bool, files: seq<PdfFile>, parseDate: string -> Option<Slug.Date>,
                  persistTracking: bool, clearExisting: bool): (IngestResult, Disk)
  {
    if !folderExists then (FolderNotFound, disk)
    else if UnreadableManifest(disk.trackFile, |files|) then Abort(disk, clearExisting)
    else
      Finish(disk, RunFiles(Config.StateToCode(), Run(Start(disk, clearExisting), Counters(0, 0, 0), []), files, parseDate),
             persistTracking)
  }

  /** The call raising past the set-up: what `Start` did stays done. */
  function Abort(disk: Disk, clearExisting: bool): (IngestResult, Disk) {
    var w := Start(disk, clearExisting);
    (ManifestUnreadable, Disk(w.db, w.vectors, w.uploads, disk.trackFile))
  }

  /** After the loop: the summary, and the tracking file written or removed. */
  function Finish(disk: Disk, run: Run, persistTracking: bool): (IngestResult, Disk) {
    var c := run.counters;
    var w := run.world;
    (Finished(Summary(c.processed, c.skipped, c.failed, c.processed + c.skipped + c.failed), run.events),
     Disk(w.db, w.vectors, w.uploads, if persistTracking then Persisted(disk.trackFile, w.manifest) else NoTrackFile))
  }

  // ---------------------------------------------------------------------------
  // The loop over the objects
  // ---------------------------------------------------------------------------

  /** The vector table, the uploads folder and the tracking file, as state that a run updates. */
  class Workspace {
    var vectorTable: Option<seq<VectorEntry>>
    var uploads: map<string, string>
    var trackFile: TrackFile

    constructor (vectorTable: Option<seq<VectorEntry>>, uploads: map<string, string>, trackFile: TrackFile)
      ensures this.vectorTable == vectorTable && this.uploads == uploads && this.trackFile == trackFile
    {
      this.vectorTable := vectorTable;
      this.uploads := uploads;
      this.trackFile := trackFile;
    }
  }

  function DiskOf(store: Store, ws: Workspace): Disk
    reads store, ws
  {
    Disk(store.Snapshot(), ws.vectorTable, ws.uploads, ws.trackFile)
  }

  function WorldOf(store: Store, ws: Workspace, manifest: map<string, string>): World
    reads store, ws
  {
    World(store.Snapshot(), ws.vectorTable, ws.uploads, manifest)
  }

  /** `ingest_pdf_folder` over the store and the workspace; the events are what `on_progress` receives. */
  method IngestPdfFolder(store: Store, ws: Workspace, folderExists: bool, files: seq<PdfFile>,
                         parseDate: string -> Option<Slug.Date>, persistTracking: bool, clearExisting: bool)
    returns (result: IngestResult)
    requires store.Valid()
    modifies store, ws
    ensures store.Valid()
    ensures (result, DiskOf(store, ws))
      == Ingest(old(DiskOf(store, ws)), folderExists, files, parseDate, persistTracking, clearExisting)
  {
    var stateToCode := Config.StateToCode();
    if !folderExists {
      return FolderNotFound;
    }
    result := IngestExisting(stateToCode, store, ws, files, parseDate, persistTracking, clearExisting);
  }

  /** `ingest_pdf_folder` past the folder check. */
  method IngestExisting(stateToCode: map<string, string>, store: Store, ws: Workspace, files: seq<PdfFile>,
                        parseDate: string -> Option<Slug.Date>, persistTracking: bool, clearExisting: bool)
    returns (result: IngestResult)
    requires stateToCode == Config.StateToCode()
    requires store.Valid()
    modifies store, ws
    ensures store.Valid()
    ensures (result, DiskOf(store, ws)) == Ingest(old(DiskOf(store, ws)), true, files, parseDate, persistTracking, clearExisting)
  {
    ghost var disk := DiskOf(store, ws);
    var loaded, indexed := StartAt(store, ws, clearExisting);
    // not JSON, or the first `indexed_data.get(rel_path)` on JSON that is not an object
    if !loaded || (ws.trackFile.TrackOtherJson? && |files| > 0) {
      AbortOf(disk, files, parseDate, persistTracking, clearExisting);
      return ManifestUnreadable;
    }
    var run := RunAt(stateToCode, store, ws, indexed, files, parseDate);
    IngestOf(disk, files, parseDate, persistTracking, clearExisting, run);
    result := FinishAt(ws, run, persistTracking);
  }

  /** After the loop: the tracking file written or deleted, and the summary. */
  method FinishAt(ws: Workspace, run: Run, persistTracking: bool) returns (result: IngestResult)
    modifies ws
    ensures ws.vectorTable == old(ws.vectorTable) && ws.uploads == old(ws.uploads)
    ensures ws.trackFile == if persistTracking then Persisted(old(ws.trackFile), run.world.manifest) else NoTrackFile
    ensures result == Finished(Summary(run.counters.processed, run.counters.skipped, run.counters.failed,
                                       run.counters.processed + run.counters.skipped + run.counters.failed), run.events)
  {
    if persistTracking {
      if !ws.trackFile.TrackOtherJson? {
        ws.trackFile := TrackObject(run.world.manifest);
      }
    } else {
      ws.trackFile := NoTrackFile;
    }
    var c := run.counters;
    result := Finished(Summary(c.processed, c.skipped, c.failed, c.processed + c.skipped + c.failed), run.events);
  }

  /** `Ingest` over an existing folder in terms of the run it makes. */
  lemma {:induction false} IngestOf(disk: Disk, files: seq<PdfFile>, parseDate: string -> Option<Slug.Date>, persistTracking: bool,
                 clearExisting: bool, run: Run)
    requires !UnreadableManifest(disk.trackFile, |files|)
    requires run == RunFiles(Config.StateToCode(), Run(Start(disk, clearExisting), Counters(0, 0, 0), []), files, parseDate)
    ensures Ingest(disk, true, files, parseDate, persistTracking, clearExisting)
         == (Finished(Summary(run.counters.processed, run.counters.skipped, run.counters.failed,
                              run.counters.processed + run.counters.skipped + run.counters.failed), run.events),
             Disk(run.world.db, run.world.vectors, run.world.uploads,
                  if persistTracking then Persisted(disk.trackFile, run.world.manifest) else NoTrackFile))
  {
    assert Ingest(disk, true, files, parseDate, persistTracking, clearExisting) == Finish(disk, run, persistTracking);
  }

  /** `Ingest` when the tracking file cannot be read. */
  lemma {:induction false} AbortOf(disk: Disk, files: seq<PdfFile>, parseDate: string -> Option<Slug.Date>,
                                   persistTracking: bool, clearExisting: bool)
    requires UnreadableManifest(disk.trackFile, |files|)
    ensures Ingest(disk, true, files, parseDate, persistTracking, clearExisting) == Abort(disk, clearExisting)
  {
  }

  /**
   * The set-up before the loop; the result is `indexed_data`, and `loaded` is
   * false when `json.loads` raises.
   */
  method StartAt(store: Store, ws: Workspace, clearExisting: bool) returns (loaded: bool, indexed: map<string, string>)
    requires store.Valid()
    modifies store, ws
    ensures store.Valid() && store.initialized
    ensures ws.trackFile == old(ws.trackFile)
    ensures loaded <==> !ws.trackFile.TrackNotJson?
    ensures WorldOf(store, ws, indexed) == Start(old(DiskOf(store, ws)), clearExisting)
  {
    store.InitDb();
    ws.vectorTable := None;
    if clearExisting {
      var _ := store.ClearAll();
    }
    match ws.trackFile
    case NoTrackFile => loaded, indexed := true, map[];
    case TrackObject(entries) => loaded, indexed := true, entries;
    case TrackOtherJson => loaded, indexed := true, map[];
    case TrackNotJson => loaded, indexed := false, map[];
  }

  /**
   * The loop over the files, from the state `manifest` and the objects hold;
   * the run returned holds the final manifest, the counters and the events.
   */
  method RunAt(stateToCode: map<string, string>, store: Store, ws: Workspace, manifest: map<string, string>,
               files: seq<PdfFile>, parseDate: string -> Option<Slug.Date>)
    returns (run: Run)
    requires store.Valid() && store.initialized
    modifies store, ws
    ensures store.Valid() && store.initialized
    ensures ws.trackFile == old(ws.trackFile)
    ensures run.world == WorldOf(store, ws, run.world.manifest)
    ensures run == RunFiles(stateToCode, Run(old(WorldOf(store, ws, manifest)), Counters(0, 0, 0), []), files, parseDate)
  {
    ghost var start := Run(WorldOf(store, ws, manifest), Counters(0, 0, 0), []);
    var indexed := manifest;
    var processed, skipped, failed := 0, 0, 0;
    var events: seq<Event> := [];
    var i := 0;
    while i < |files|
      invariant 0 <= i <= |files|
      invariant store.Valid() && store.initialized
      invariant ws.trackFile == old(ws.trackFile)
      invariant Run(WorldOf(store, ws, indexed), Counters(processed, skipped, failed), events)
        == RunFiles(stateToCode, start, files[..i], parseDate)
    {
      indexed, processed, skipped, failed, events :=
        RunStepAt(stateToCode, store, ws, indexed, processed, skipped, failed, events, files[i], parseDate);
      RunFilesSnoc(stateToCode, start, files, i, parseDate);
      i := i + 1;
    }
    assert files[..|files|] == files;
    run := Run(WorldOf(store, ws, indexed), Counters(processed, skipped, failed), events);
  }

  /** The run over one more file of `files` is one more step. */
  lemma RunFilesSnoc(stateToCode: map<string, string>, start: Run, files: seq<PdfFile>, i: nat,
                     parseDate: string -> Option<Slug.Date>)
    requires start.world.db.initialized && i < |files|
    ensures RunFiles(stateToCode, start, files[..i + 1], parseDate)
         == RunStep(stateToCode, RunFiles(stateToCode, start, files[..i], parseDate), files[i], parseDate)
  {
    assert files[..i + 1][..i] == files[..i];
  }

  /** One pass of the loop: the file, then its counter and its event. */
  method RunStepAt(stateToCode: map<string, string>, store: Store, ws: Workspace, manifest: map<string, string>, processed: nat, skipped: nat,
                   failed: nat, events: seq<Event>, f: PdfFile, parseDate: string -> Option<Slug.Date>)
    returns (manifest': map<string, string>, processed': nat, skipped': nat, failed': nat, events': seq<Event>)
    requires store.Valid() && store.initialized
    modifies store, ws
    ensures store.Valid() && store.initialized
    ensures ws.trackFile == old(ws.trackFile)
    ensures Run(WorldOf(store, ws, manifest'), Counters(processed', skipped', failed'), events')
      == RunStep(stateToCode, Run(old(WorldOf(store, ws, manifest)), Counters(processed, skipped, failed), events), f, parseDate)
  {
    ghost var before := Run(WorldOf(store, ws, manifest), Counters(processed, skipped, failed), events);
    var outcome;
    outcome, manifest' := ProcessFileAt(stateToCode, store, ws, manifest, f, parseDate);
    RunStepOf(stateToCode, before, f, parseDate, WorldOf(store, ws, manifest'), outcome);
    processed', skipped', failed' := processed, skipped, failed;
    match outcome {
      case Processed => processed' := processed + 1;
      case Failed(_) => failed' := failed + 1;
      case _ => skipped' := skipped + 1;
    }
    events' := events + [EventOf(outcome, f.relPath)];
  }

  /** `RunStep` in terms of what `ProcessFile` gave. */
  lemma RunStepOf(stateToCode: map<string, string>, run: Run, f: PdfFile, parseDate: string -> Option<Slug.Date>,
                  w: World, o: Outcome)
    requires run.world.db.initialized
    requires (w, o) == ProcessFile(stateToCode, run.world, f, parseDate)
    ensures RunStep(stateToCode, run, f, parseDate) == Run(w, Count(run.counters, o), run.events + [EventOf(o, f.relPath)])
  {
  }

  /** The loop body for one file, `manifest` being `indexed_data`. */
  method ProcessFileAt(stateToCode: map<string, string>, store: Store, ws: Workspace, manifest: map<string, string>, f: PdfFile,
                       parseDate: string -> Option<Slug.Date>)
    returns (outcome: Outcome, manifest': map<string, string>)
    requires store.Valid() && store.initialized
    modifies store, ws
    ensures store.Valid() && store.initialized
    ensures ws.trackFile == old(ws.trackFile)
    ensures (WorldOf(store, ws, manifest'), outcome)
      == ProcessFile(stateToCode, old(WorldOf(store, ws, manifest)), f, parseDate)
  {
    if Get(manifest, f.relPath) == Some(f.hash) {
      return Unchanged, manifest;
    }
    if Fires(f, Extract) {
      return Interrupted(f.fault), manifest;
    }
    var prepared := Prepare(stateToCode, f.metadata, f.name, parseDate);
    if prepared.None? {
      return MissingMetadata, manifest;
    }
    outcome, manifest' := AdmitAt(store, ws, manifest, f, prepared.value);
  }

  /** The copy into the uploads folder, `insert_document`, and the rest. */
  method AdmitAt(store: Store, ws: Workspace, manifest: map<string, string>, f: PdfFile, p: Prepared)
    returns (outcome: Outcome, manifest': map<string, string>)
    requires store.Valid() && store.initialized
    modifies store, ws
    ensures store.Valid() && store.initialized
    ensures ws.trackFile == old(ws.trackFile)
    ensures (WorldOf(store, ws, manifest'), outcome) == Admit(old(WorldOf(store, ws, manifest)), f, p)
  {
    if Fires(f, Copy) {
      return Interrupted(f.fault), manifest;
    }
    ws.uploads := ws.uploads[p.storedPath := f.hash];
    if Fires(f, Insert) {
      return Interrupted(f.fault), manifest;
    }
    ghost var copied := WorldOf(store, ws, manifest);
    var docId := store.InsertDocument(f.relPath, p.storedPath, p.code, p.waiver, Get(f.metadata, "Program Title"),
                                      ApplicationType(f.metadata), IsoOf(p.approved), YearOf(p.approved), Some(p.extra));
    assert WorldOf(store, ws, manifest) == copied.(db := InsertRow(copied.db, f, p));
    outcome, manifest' := IndexAt(store, ws, manifest, f, p, docId.value);
  }

  /** The page loop, `signal.alarm(0)`, the vector write and the manifest entry. */
  method IndexAt(store: Store, ws: Workspace, manifest: map<string, string>, f: PdfFile, p: Prepared, docId: nat)
    returns (outcome: Outcome, manifest': map<string, string>)
    requires store.Valid() && store.initialized
    modifies store, ws
    ensures store.Valid() && store.initialized
    ensures ws.trackFile == old(ws.trackFile)
    ensures (WorldOf(store, ws, manifest'), outcome) == Index(old(WorldOf(store, ws, manifest)), f, p, docId)
  {
    var stop := PageStop(f);
    var buffer := ChunkPages(store, docId, p.code, f.relPath, f.pages, if stop.Some? then stop.value else |f.pages|);
    if stop.Some? {
      return Interrupted(f.fault), manifest;
    }
    if buffer != [] {
      if Fires(f, VectorWrite) {
        return Interrupted(f.fault), manifest;
      }
      ws.vectorTable := WriteVectors(ws.vectorTable, buffer);
    }
    manifest' := manifest[f.relPath := f.hash];
    outcome := Processed;
  }

  /** `for i, page in enumerate(doc_pdf)` over the first `stop` pages. */
  method ChunkPages(store: Store, docId: nat, code: string, rel: string, pages: seq<string>, stop: nat)
    returns (buffer: seq<VectorEntry>)
    requires store.Valid() && store.initialized && stop <= |pages|
    modifies store
    ensures store.Valid() && store.initialized
    ensures (store.Snapshot(), buffer) == Chunked(old(store.Snapshot()), docId, code, rel, Texts(pages), stop)
  {
    buffer := [];
    var i := 0;
    while i < stop
      invariant 0 <= i <= stop
      invariant store.Valid() && store.initialized
      invariant (store.Snapshot(), buffer) == Chunked(old(store.Snapshot()), docId, code, rel, Texts(pages), i)
    {
      buffer := ChunkAt(store, buffer, docId, code, rel, Strip(pages[i]), i + 1);
      i := i + 1;
    }
  }

  /** One pass of the page loop: the chunk row and its vector entry, if the page has text. */
  method ChunkAt(store: Store, buffer: seq<VectorEntry>, docId: nat, code: string, rel: string, text: string, n: nat)
    returns (buffer': seq<VectorEntry>)
    requires store.Valid() && store.initialized && n >= 1
    modifies store
    ensures store.Valid() && store.initialized
    ensures (store.Snapshot(), buffer') == ChunkStep(old(store.Snapshot()), buffer, docId, code, rel, text, n)
  {
    buffer' := buffer;
    if text != "" {
      var chunkId := store.InsertChunk(docId, text, n, n - 1);
      buffer' := buffer + [VectorEntry(text, chunkId.value, docId, code, rel, n)];
    }
  }

  // ---------------------------------------------------------------------------
  // Properties: the page loop
  // ---------------------------------------------------------------------------

  /** The raw indices of the pages among `texts[..n]` that have text, in order. */
  function NonEmptyPages(texts: seq<string>, n: nat): (r: seq<nat>)
    requires n <= |texts|
    ensures forall k | 0 <= k < |r| :: r[k] < n
    decreases n
  {
    if n == 0 then []
    else NonEmptyPages(texts, n - 1) + (if texts[n - 1] != "" then [n - 1] else [])
  }

  /** The chunk row a buffered entry stands for. */
  function RowsOf(docId: nat, buffer: seq<VectorEntry>): seq<ChunkRow>
    decreases |buffer|
  {
    if buffer == [] then []
    else
      var e := buffer[|buffer| - 1];
      RowsOf(docId, buffer[..|buffer| - 1]) + [ChunkRow(e.chunkId, docId, e.page, e.page - 1, e.text)]
  }

  /** Only pages with text are listed. */
  lemma {:induction false} NonEmptyPagesHaveText(texts: seq<string>, n: nat)
    requires n <= |texts|
    ensures forall k | 0 <= k < |NonEmptyPages(texts, n)| :: texts[NonEmptyPages(texts, n)[k]] != ""
    decreases n
  {
    if n > 0 {
      NonEmptyPagesHaveText(texts, n - 1);
      var idx0 := NonEmptyPages(texts, n - 1);
      var idx := NonEmptyPages(texts, n);
      forall k | 0 <= k < |idx| ensures texts[idx[k]] != "" {
        if k < |idx0| {
          assert idx[k] == idx0[k];
        } else {
          assert idx[k] == n - 1;
        }
      }
    }
  }

  /** Every page with text is listed. */
  lemma {:induction false} NonEmptyPagesComplete(texts: seq<string>, n: nat)
    requires n <= |texts|
    ensures forall j | 0 <= j < n && texts[j] != "" :: j in NonEmptyPages(texts, n)
    decreases n
  {
    if n > 0 {
      NonEmptyPagesComplete(texts, n - 1);
      var idx0 := NonEmptyPages(texts, n - 1);
      var idx := NonEmptyPages(texts, n);
      forall j | 0 <= j < n && texts[j] != "" ensures j in idx {
        if j < n - 1 {
          assert j in idx0;
        } else {
          assert idx[|idx| - 1] == j;
        }
      }
    }
  }

  /** The pages are listed in increasing order, so each once. */
  lemma {:induction false} NonEmptyPagesIncreasing(texts: seq<string>, n: nat)
    requires n <= |texts|
    ensures forall a, b | 0 <= a < b < |NonEmptyPages(texts, n)| :: NonEmptyPages(texts, n)[a] < NonEmptyPages(texts, n)[b]
    decreases n
  {
    if n > 0 {
      NonEmptyPagesIncreasing(texts, n - 1);
      var idx0 := NonEmptyPages(texts, n - 1);
      var idx := NonEmptyPages(texts, n);
      forall a, b | 0 <= a < b < |idx| ensures idx[a] < idx[b] {
        assert idx[a] == idx0[a];
        if b < |idx0| {
          assert idx[b] == idx0[b];
        } else {
          assert idx[b] == n - 1;
        }
      }
    }
  }

  /**
   * The page loop leaves the documents alone and appends one chunk row per
   * buffered entry, consecutive fresh ids following the sequence, one entry per
   * page with text.
   */
  lemma {:induction false} ChunkedRows(db: Db, docId: nat, code: string, rel: string, texts: seq<string>, n: nat)
    requires db.initialized && n <= |texts|
    ensures Chunked(db, docId, code, rel, texts, n).0.documents == db.documents
    ensures Chunked(db, docId, code, rel, texts, n).0.documentSeq == db.documentSeq
    ensures Chunked(db, docId, code, rel, texts, n).0.chunks == db.chunks + RowsOf(docId, Chunked(db, docId, code, rel, texts, n).1)
    ensures Chunked(db, docId, code, rel, texts, n).0.chunkSeq == db.chunkSeq + |Chunked(db, docId, code, rel, texts, n).1|
    ensures |Chunked(db, docId, code, rel, texts, n).1| == |NonEmptyPages(texts, n)|
    decreases n
  {
    if n > 0 {
      ChunkedRows(db, docId, code, rel, texts, n - 1);
      var r1 := Chunked(db, docId, code, rel, texts, n - 1);
      var text := texts[n - 1];
      if text != "" {
        var e := VectorEntry(text, NextChunkId(r1.0), docId, code, rel, n);
        assert (r1.1 + [e])[..|r1.1|] == r1.1;
        assert RowsOf(docId, r1.1 + [e]) == RowsOf(docId, r1.1) + [ChunkRow(e.chunkId, docId, n, n - 1, text)];
      }
    }
  }

  /** The chunk sequence advances by one per buffered entry, and one entry is buffered per page with text. */
  lemma {:induction false} ChunkedCount(db: Db, docId: nat, code: string, rel: string, texts: seq<string>, n: nat)
    requires db.initialized && n <= |texts|
    ensures Chunked(db, docId, code, rel, texts, n).0.chunkSeq == db.chunkSeq + |Chunked(db, docId, code, rel, texts, n).1|
    ensures |Chunked(db, docId, code, rel, texts, n).1| == |NonEmptyPages(texts, n)|
    decreases n
  {
    if n > 0 {
      ChunkedCount(db, docId, code, rel, texts, n - 1);
    }
  }

  /** Entry `k` of the buffer, for the `k`-th page with text, raw index `i`. */
  predicate EntryFor(e: VectorEntry, texts: seq<string>, i: nat, chunkId: nat, docId: nat, code: string, rel: string)
    requires i < |texts|
  {
    e == VectorEntry(texts[i], chunkId, docId, code, rel, i + 1)
  }

  /** All entries of a buffer are those of the pages `pages` lists, with consecutive ids from `first`. */
  predicate EntriesFor(buffer: seq<VectorEntry>, pages: seq<nat>, texts: seq<string>, first: nat, docId: nat, code: string,
                       rel: string)
  {
    && |buffer| == |pages|
    && forall k | 0 <= k < |pages| :: pages[k] < |texts| && EntryFor(buffer[k], texts, pages[k], first + k, docId, code, rel)
  }

  /** Appending one entry for one more page keeps `EntriesFor`. */
  lemma EntriesForSnoc(buffer: seq<VectorEntry>, pages: seq<nat>, texts: seq<string>, first: nat, docId: nat,
                       code: string, rel: string, i: nat)
    requires EntriesFor(buffer, pages, texts, first, docId, code, rel)
    requires i < |texts|
    ensures EntriesFor(buffer + [VectorEntry(texts[i], first + |buffer|, docId, code, rel, i + 1)], pages + [i],
                       texts, first, docId, code, rel)
  {
    var b := buffer + [VectorEntry(texts[i], first + |buffer|, docId, code, rel, i + 1)];
    var p := pages + [i];
    forall k | 0 <= k < |p| ensures p[k] < |texts| && EntryFor(b[k], texts, p[k], first + k, docId, code, rel) {
      if k < |pages| {
        assert b[k] == buffer[k] && p[k] == pages[k];
      }
    }
  }

  /**
   * Entry `k` of the buffer is the `k`-th page with text: its text, the `k`-th
   * fresh chunk id, the document id and `page = i + 1` for raw index `i`. Its
   * chunk row, `RowsOf`, therefore has `order_index = i`.
   */
  lemma {:induction false} ChunkedEntries(db: Db, docId: nat, code: string, rel: string, texts: seq<string>, n: nat)
    requires db.initialized && n <= |texts|
    ensures EntriesFor(Chunked(db, docId, code, rel, texts, n).1, NonEmptyPages(texts, n), texts, db.chunkSeq + 1,
                       docId, code, rel)
    decreases n
  {
    if n > 0 {
      ChunkedEntries(db, docId, code, rel, texts, n - 1);
      ChunkedCount(db, docId, code, rel, texts, n - 1);
      if texts[n - 1] != "" {
        var r1 := Chunked(db, docId, code, rel, texts, n - 1);
        EntriesForSnoc(r1.1, NonEmptyPages(texts, n - 1), texts, db.chunkSeq + 1, docId, code, rel, n - 1);
      }
    }
  }

  /** The rows `RowsOf` lists, entry by entry. */
  lemma {:induction false} RowsOfEntries(docId: nat, buffer: seq<VectorEntry>)
    ensures |RowsOf(docId, buffer)| == |buffer|
    ensures forall k | 0 <= k < |buffer| ::
      RowsOf(docId, buffer)[k] == ChunkRow(buffer[k].chunkId, docId, buffer[k].page, buffer[k].page - 1, buffer[k].text)
    decreases |buffer|
  {
    if buffer != [] {
      var init := buffer[..|buffer| - 1];
      RowsOfEntries(docId, init);
      assert forall k | 0 <= k < |init| :: init[k] == buffer[k];
    }
  }

  // ---------------------------------------------------------------------------
  // Properties: one file
  // ---------------------------------------------------------------------------

  /**
   * With the table the run builds, the gate lets a file through exactly when its
   * state names one of the fifty states and its waiver number is non-empty; the
   * code it derives is that state's two-letter code.
   */
  lemma PrepareGate(metadata: map<string, string>, name: string, parseDate: string -> Option<Slug.Date>)
    ensures Prepare(Config.StateToCode(), metadata, name, parseDate).None?
        <==> Config.StateCode(Get(metadata, "State").GetOr("")).None? || Get(metadata, "Waiver Number").GetOr("") == ""
    ensures Prepare(Config.StateToCode(), metadata, name, parseDate).Some? ==>
      && Prepare(Config.StateToCode(), metadata, name, parseDate).value.code
         == Config.StateCode(Get(metadata, "State").GetOr("")).value
      && |Prepare(Config.StateToCode(), metadata, name, parseDate).value.code| == 2
  {
    Config.StateCodeNonEmpty(Get(metadata, "State").GetOr(""));
  }

  /**
   * What the gate derives for a file it lets through: the code the table gives
   * the lower-cased state, the waiver number, the parsed approved date, the
   * stored path `uploads/<code>/<upper-cased name>`, and `extra`: every field
   * but the five excluded ones.
   */
  lemma PrepareFields(stateToCode: map<string, string>, metadata: map<string, string>, name: string,
                      parseDate: string -> Option<Slug.Date>)
    requires Prepare(stateToCode, metadata, name, parseDate).Some?
    ensures Get(stateToCode, Lower(Get(metadata, "State").GetOr("")))
         == Some(Prepare(stateToCode, metadata, name, parseDate).value.code)
    ensures Prepare(stateToCode, metadata, name, parseDate).value.code != ""
    ensures Prepare(stateToCode, metadata, name, parseDate).value.waiver == Get(metadata, "Waiver Number").GetOr("") != ""
    ensures Prepare(stateToCode, metadata, name, parseDate).value.approved
         == parseDate(Get(metadata, "Approved Effective Date").GetOr(""))
    ensures Prepare(stateToCode, metadata, name, parseDate).value.storedPath
         == Slug.PathText(Slug.UploadPath(Slug.UPLOADS_DIR, Prepare(stateToCode, metadata, name, parseDate).value.code,
              Upper(Slug.WaiverPart(Get(metadata, "Waiver Number").GetOr(""))) + "_"
              + Upper(Slug.DatePart(Prepare(stateToCode, metadata, name, parseDate).value.approved))
              + Upper(Slug.ExtPart(name))))
    ensures Prepare(stateToCode, metadata, name, parseDate).value.extra.Keys == metadata.Keys - ExcludeKeys
    ensures forall k | k in Prepare(stateToCode, metadata, name, parseDate).value.extra ::
      Prepare(stateToCode, metadata, name, parseDate).value.extra[k] == metadata[k]
  {
    var code := Get(stateToCode, Lower(Get(metadata, "State").GetOr("")));
    var waiver := Get(metadata, "Waiver Number").GetOr("");
    var approved := parseDate(Get(metadata, "Approved Effective Date").GetOr(""));
    var stored := Slug.BuildUploadPath(code.value, waiver, approved, name);
    assert Prepare(stateToCode, metadata, name, parseDate).value
        == Prepared(code.value, waiver, approved, Slug.PathText(stored),
                    map k | k in metadata && k !in ExcludeKeys :: metadata[k]);
  }

  /** Past the manifest, extraction and the gate, a file is handed to `Admit`. */
  lemma ProcessFileAdmits(stateToCode: map<string, string>, w: World, f: PdfFile,
                          parseDate: string -> Option<Slug.Date>)
    requires w.db.initialized
    requires Get(w.manifest, f.relPath) != Some(f.hash) && !Fires(f, Extract)
    requires Prepare(stateToCode, f.metadata, f.name, parseDate).Some?
    ensures ProcessFile(stateToCode, w, f, parseDate) == Admit(w, f, Prepare(stateToCode, f.metadata, f.name, parseDate).value)
  {
  }

  /** A processed file got past the manifest, extraction and the gate. */
  lemma ProcessedPassedGate(stateToCode: map<string, string>, w: World, f: PdfFile,
                            parseDate: string -> Option<Slug.Date>)
    requires w.db.initialized
    ensures ProcessFile(stateToCode, w, f, parseDate).1 == Processed ==>
      && Get(w.manifest, f.relPath) != Some(f.hash) && !Fires(f, Extract)
      && Prepare(stateToCode, f.metadata, f.name, parseDate).Some?
  {
  }

  /**
   * Past the gate, a file is either processed or interrupted by its fault; only
   * a processed file gains its manifest entry, and it got past the copy and the
   * document row.
   */
  lemma AdmitOutcome(w: World, f: PdfFile, p: Prepared)
    requires w.db.initialized
    ensures Admit(w, f, p).1 == Processed || (f.fault != NoFault && Admit(w, f, p).1 == Interrupted(f.fault))
    ensures Admit(w, f, p).0.manifest == if Admit(w, f, p).1 == Processed then w.manifest[f.relPath := f.hash] else w.manifest
    ensures Admit(w, f, p).1 == Processed ==> !Fires(f, Copy) && !Fires(f, Insert)
  {
  }

  /** Past the copy and the document row, `Admit` goes on with the page loop. */
  lemma AdmitIndexes(w: World, f: PdfFile, p: Prepared)
    requires w.db.initialized && !Fires(f, Copy) && !Fires(f, Insert)
    ensures Admit(w, f, p)
         == Index(w.(uploads := w.uploads[p.storedPath := f.hash], db := InsertRow(w.db, f, p)), f, p, NextDocumentId(w.db))
  {
    assert w.(uploads := w.uploads[p.storedPath := f.hash]).(db := InsertRow(w.db, f, p))
        == w.(uploads := w.uploads[p.storedPath := f.hash], db := InsertRow(w.db, f, p));
  }

  /**
   * A file is skipped as unchanged exactly when the manifest holds its hash, and
   * for missing metadata exactly when it gets past extraction and fails the gate;
   * neither kind of skip changes anything.
   */
  lemma SkipsWriteNothing(stateToCode: map<string, string>, w: World, f: PdfFile,
                          parseDate: string -> Option<Slug.Date>)
    requires w.db.initialized
    ensures var r := ProcessFile(stateToCode, w, f, parseDate);
      && (r.1 == Unchanged <==> Get(w.manifest, f.relPath) == Some(f.hash))
      && (r.1 == MissingMetadata <==>
            Get(w.manifest, f.relPath) != Some(f.hash) && !Fires(f, Extract)
            && Prepare(stateToCode, f.metadata, f.name, parseDate).None?)
      && (r.1 == Unchanged || r.1 == MissingMetadata ==> r.0 == w)
  {
    var prepared := Prepare(stateToCode, f.metadata, f.name, parseDate);
    if Get(w.manifest, f.relPath) != Some(f.hash) && !Fires(f, Extract) && prepared.Some? {
      ProcessFileAdmits(stateToCode, w, f, parseDate);
      AdmitOutcome(w, f, prepared.value);
    }
  }

  /** The manifest gains the file's hash when the file is processed, and is left alone otherwise. */
  lemma ManifestOnlyOnSuccess(stateToCode: map<string, string>, w: World, f: PdfFile,
                              parseDate: string -> Option<Slug.Date>)
    requires w.db.initialized
    ensures ProcessFile(stateToCode, w, f, parseDate).0.manifest
         == if ProcessFile(stateToCode, w, f, parseDate).1 == Processed then w.manifest[f.relPath := f.hash] else w.manifest
  {
    var prepared := Prepare(stateToCode, f.metadata, f.name, parseDate);
    if Get(w.manifest, f.relPath) == Some(f.hash) {
    } else if Fires(f, Extract) {
    } else if prepared.Some? {
      ProcessFileAdmits(stateToCode, w, f, parseDate);
      AdmitOutcome(w, f, prepared.value);
    }
  }

  /** The page loop from the document row on, with the rows it writes spelled out. */
  lemma IndexRows(w: World, f: PdfFile, p: Prepared, docId: nat, n: nat)
    requires w.db.initialized && n == (if PageStop(f).Some? then PageStop(f).value else |f.pages|)
    ensures var r := Index(w, f, p, docId);
      var buffer := Chunked(w.db, docId, p.code, f.relPath, Texts(f.pages), n).1;
      && r.0.db == Chunked(w.db, docId, p.code, f.relPath, Texts(f.pages), n).0
      && r.0.db.documents == w.db.documents
      && r.0.db.chunks == w.db.chunks + RowsOf(docId, buffer)
      && |buffer| == |NonEmptyPages(Texts(f.pages), n)|
      && r.0.uploads == w.uploads
      && (r.1 == Processed <==> PageStop(f).None? && (buffer == [] || !Fires(f, VectorWrite)))
      && r.0.vectors == (if r.1 == Processed && buffer != [] then Some(w.vectors.GetOr([]) + buffer) else w.vectors)
  {
    ChunkedRows(w.db, docId, p.code, f.relPath, Texts(f.pages), n);
  }

  /**
   * A processed file has written, after the rows already there, its document row
   * with the next id and then one chunk row per non-empty page pointing at that
   * row; the chunks reached the vector table, created on the first write and
   * appended to afterwards, only if there is at least one; the file was copied to
   * its stored path.
   */
  lemma ProcessedFileWrites(stateToCode: map<string, string>, w: World, f: PdfFile,
                            parseDate: string -> Option<Slug.Date>)
    requires w.db.initialized
    requires ProcessFile(stateToCode, w, f, parseDate).1 == Processed
    ensures Prepare(stateToCode, f.metadata, f.name, parseDate).Some?
    ensures var r := ProcessFile(stateToCode, w, f, parseDate);
      var p := Prepare(stateToCode, f.metadata, f.name, parseDate).value;
      var docId := NextDocumentId(w.db);
      var buffer := Chunked(InsertRow(w.db, f, p), docId, p.code, f.relPath, Texts(f.pages), |f.pages|).1;
      && PageStop(f).None?
      && r.0.db.documents == w.db.documents + [DocumentRow(docId, f.relPath, p.storedPath, p.code, p.waiver,
           Get(f.metadata, "Program Title"), ApplicationType(f.metadata), IsoOf(p.approved), YearOf(p.approved), p.extra)]
      && r.0.db.chunks == w.db.chunks + RowsOf(docId, buffer)
      && |buffer| == |NonEmptyPages(Texts(f.pages), |f.pages|)|
      && r.0.vectors == (if buffer == [] then w.vectors else Some(w.vectors.GetOr([]) + buffer))
      && (buffer != [] ==> (ModeFor(w.vectors) == Overwrite <==> w.vectors.None?))
      && r.0.uploads == w.uploads[p.storedPath := f.hash]
      && r.0.manifest == w.manifest[f.relPath := f.hash]
  {
    ProcessedPassedGate(stateToCode, w, f, parseDate);
    var p := Prepare(stateToCode, f.metadata, f.name, parseDate).value;
    ProcessFileAdmits(stateToCode, w, f, parseDate);
    AdmitOutcome(w, f, p);
    AdmitIndexes(w, f, p);
    var inserted := w.(uploads := w.uploads[p.storedPath := f.hash], db := InsertRow(w.db, f, p));
    IndexRows(inserted, f, p, NextDocumentId(w.db), |f.pages|);
  }

  /**
   * A vector-write failure fails the whole file after its rows were written:
   * the document row and its chunks stay, the vector table and the manifest do
   * not change.
   */
  lemma VectorWriteFailureKeepsRows(stateToCode: map<string, string>, w: World, f: PdfFile,
                                    parseDate: string -> Option<Slug.Date>, message: string)
    requires w.db.initialized
    requires f.fault == Raise(VectorWrite, message)
    requires Get(w.manifest, f.relPath) != Some(f.hash)
    requires Prepare(stateToCode, f.metadata, f.name, parseDate).Some?
    requires NonEmptyPages(Texts(f.pages), |f.pages|) != []
    ensures ProcessFile(stateToCode, w, f, parseDate).1 == Failed(message)
    ensures |ProcessFile(stateToCode, w, f, parseDate).0.db.documents| == |w.db.documents| + 1
    ensures |ProcessFile(stateToCode, w, f, parseDate).0.db.chunks| == |w.db.chunks| + |NonEmptyPages(Texts(f.pages), |f.pages|)|
    ensures ProcessFile(stateToCode, w, f, parseDate).0.vectors == w.vectors
    ensures ProcessFile(stateToCode, w, f, parseDate).0.manifest == w.manifest
  {
    var p := Prepare(stateToCode, f.metadata, f.name, parseDate).value;
    ProcessFileAdmits(stateToCode, w, f, parseDate);
    AdmitIndexes(w, f, p);
    var inserted := w.(uploads := w.uploads[p.storedPath := f.hash], db := InsertRow(w.db, f, p));
    IndexRows(inserted, f, p, NextDocumentId(w.db), |f.pages|);
    RowsOfEntries(NextDocumentId(w.db), Chunked(inserted.db, NextDocumentId(w.db), p.code, f.relPath, Texts(f.pages), |f.pages|).1);
  }

  /**
   * There is no transaction: a file interrupted before page `i` keeps its
   * document row and the chunks of the non-empty pages before `i`, and a timeout
   * there is counted as a skip.
   */
  lemma InterruptedAmongPagesKeepsRows(stateToCode: map<string, string>, w: World, f: PdfFile,
                                       parseDate: string -> Option<Slug.Date>, i: nat)
    requires w.db.initialized
    requires PageStop(f) == Some(i)
    requires Get(w.manifest, f.relPath) != Some(f.hash)
    requires Prepare(stateToCode, f.metadata, f.name, parseDate).Some?
    ensures ProcessFile(stateToCode, w, f, parseDate).1 == Interrupted(f.fault)
    ensures f.fault.Timeout? ==> Count(Counters(0, 0, 0), ProcessFile(stateToCode, w, f, parseDate).1) == Counters(0, 1, 0)
    ensures |ProcessFile(stateToCode, w, f, parseDate).0.db.documents| == |w.db.documents| + 1
    ensures |ProcessFile(stateToCode, w, f, parseDate).0.db.chunks| == |w.db.chunks| + |NonEmptyPages(Texts(f.pages), i)|
    ensures ProcessFile(stateToCode, w, f, parseDate).0.vectors == w.vectors
    ensures ProcessFile(stateToCode, w, f, parseDate).0.manifest == w.manifest
  {
    var p := Prepare(stateToCode, f.metadata, f.name, parseDate).value;
    ProcessFileAdmits(stateToCode, w, f, parseDate);
    AdmitIndexes(w, f, p);
    var inserted := w.(uploads := w.uploads[p.storedPath := f.hash], db := InsertRow(w.db, f, p));
    IndexRows(inserted, f, p, NextDocumentId(w.db), i);
    RowsOfEntries(NextDocumentId(w.db), Chunked(inserted.db, NextDocumentId(w.db), p.code, f.relPath, Texts(f.pages), i).1);
  }

  /** Whatever happens to a file, the rows already in the tables stay, and at most one document row is added. */
  lemma FileKeepsEarlierRows(stateToCode: map<string, string>, w: World, f: PdfFile,
                             parseDate: string -> Option<Slug.Date>)
    requires w.db.initialized
    ensures var r := ProcessFile(stateToCode, w, f, parseDate);
      && |w.db.documents| <= |r.0.db.documents| <= |w.db.documents| + 1
      && r.0.db.documents[..|w.db.documents|] == w.db.documents
      && |w.db.chunks| <= |r.0.db.chunks|
      && r.0.db.chunks[..|w.db.chunks|] == w.db.chunks
  {
    var prepared := Prepare(stateToCode, f.metadata, f.name, parseDate);
    if Get(w.manifest, f.relPath) != Some(f.hash) && !Fires(f, Extract) && prepared.Some? && !Fires(f, Copy)
       && !Fires(f, Insert) {
      var p := prepared.value;
      var copied := w.(uploads := w.uploads[p.storedPath := f.hash]);
      var inserted := copied.(db := InsertRow(copied.db, f, p));
      var n := if PageStop(f).Some? then PageStop(f).value else |f.pages|;
      IndexRows(inserted, f, p, NextDocumentId(w.db), n);
      var added := RowsOf(NextDocumentId(w.db), Chunked(inserted.db, NextDocumentId(w.db), p.code, f.relPath, Texts(f.pages), n).1);
      assert (w.db.chunks + added)[..|w.db.chunks|] == w.db.chunks;
      assert (w.db.documents + [inserted.db.documents[|w.db.documents|]])[..|w.db.documents|] == w.db.documents;
    }
  }

  /** The vector table is only ever extended: once it exists, later writes append to it. */
  lemma FileExtendsVectors(stateToCode: map<string, string>, w: World, f: PdfFile,
                           parseDate: string -> Option<Slug.Date>)
    requires w.db.initialized
    ensures var r := ProcessFile(stateToCode, w, f, parseDate);
      && (w.vectors.Some? ==> r.0.vectors.Some?)
      && |w.vectors.GetOr([])| <= |r.0.vectors.GetOr([])|
      && r.0.vectors.GetOr([])[..|w.vectors.GetOr([])|] == w.vectors.GetOr([])
  {
    var prepared := Prepare(stateToCode, f.metadata, f.name, parseDate);
    if Get(w.manifest, f.relPath) != Some(f.hash) && !Fires(f, Extract) && prepared.Some? && !Fires(f, Copy)
       && !Fires(f, Insert) {
      var p := prepared.value;
      ProcessFileAdmits(stateToCode, w, f, parseDate);
      AdmitIndexes(w, f, p);
      var copied := w.(uploads := w.uploads[p.storedPath := f.hash]);
      var inserted := copied.(db := InsertRow(copied.db, f, p));
      var n := if PageStop(f).Some? then PageStop(f).value else |f.pages|;
      IndexRows(inserted, f, p, NextDocumentId(w.db), n);
      var buffer := Chunked(inserted.db, NextDocumentId(w.db), p.code, f.relPath, Texts(f.pages), n).1;
      assert (w.vectors.GetOr([]) + buffer)[..|w.vectors.GetOr([])|] == w.vectors.GetOr([]);
    }
  }

  // ---------------------------------------------------------------------------
  // Properties: the run
  // ---------------------------------------------------------------------------

  /** The counters recomputed from the event names. */
  function Tally(events: seq<Event>): Counters
    decreases |events|
  {
    if events == [] then Counters(0, 0, 0)
    else
      var c := Tally(events[..|events| - 1]);
      match events[|events| - 1].name
      case "processed" => c.(processed := c.processed + 1)
      case "error" => c.(failed := c.failed + 1)
      case _ => c.(skipped := c.skipped + 1)
  }

  predicate KnownEvent(e: Event) {
    e.name in {"skip", "skip_missing_metadata", "timeout", "error", "processed"}
  }

  /** The event a file emits is counted by `Tally` as the file's outcome is by `Count`. */
  lemma TallyStep(events: seq<Event>, o: Outcome, path: string)
    ensures Tally(events + [EventOf(o, path)]) == Count(Tally(events), o)
    ensures KnownEvent(EventOf(o, path))
  {
    assert (events + [EventOf(o, path)])[..|events|] == events;
  }

  /**
   * What a run adds to `start`: one event per file, for its own path and of one
   * of the five kinds, in file order, and one count per file.
   */
  predicate RunShaped(start: Run, files: seq<PdfFile>, r: Run) {
    && r.counters.processed + r.counters.skipped + r.counters.failed
       == start.counters.processed + start.counters.skipped + start.counters.failed + |files|
    && |r.events| == |start.events| + |files|
    && r.events[..|start.events|] == start.events
    && (forall i | 0 <= i < |files| ::
          r.events[|start.events| + i].path == files[i].relPath && KnownEvent(r.events[|start.events| + i]))
  }

  /** One more file keeps `RunShaped` and the tally of the events. */
  lemma RunShapedStep(start: Run, init: seq<PdfFile>, f: PdfFile, mid: Run, o: Outcome, next: Run)
    requires RunShaped(start, init, mid) && mid.counters == Tally(mid.events)
    requires next.counters == Count(mid.counters, o) && next.events == mid.events + [EventOf(o, f.relPath)]
    ensures RunShaped(start, init + [f], next) && next.counters == Tally(next.events)
  {
    TallyStep(mid.events, o, f.relPath);
    var files := init + [f];
    assert next.events[..|start.events|] == mid.events[..|start.events|];
    forall i | 0 <= i < |files|
      ensures next.events[|start.events| + i].path == files[i].relPath && KnownEvent(next.events[|start.events| + i])
    {
      if i < |init| {
        assert files[i] == init[i];
        assert next.events[|start.events| + i] == mid.events[|start.events| + i];
      }
    }
  }

  /**
   * Every file adds one to exactly one counter and emits exactly one event, for
   * its own path and of one of the five kinds, in file order; the counters are
   * those the event names give.
   */
  lemma {:induction false} RunCounts(stateToCode: map<string, string>, start: Run, files: seq<PdfFile>,
                                     parseDate: string -> Option<Slug.Date>)
    requires start.world.db.initialized
    requires start.counters == Tally(start.events)
    ensures RunShaped(start, files, RunFiles(stateToCode, start, files, parseDate))
    ensures RunFiles(stateToCode, start, files, parseDate).counters == Tally(RunFiles(stateToCode, start, files, parseDate).events)
    decreases |files|
  {
    if files == [] {
      assert start.events[..|start.events|] == start.events;
    } else {
      var init := files[..|files| - 1];
      var f := files[|files| - 1];
      RunCounts(stateToCode, start, init, parseDate);
      var mid := RunFiles(stateToCode, start, init, parseDate);
      var (w, o) := ProcessFile(stateToCode, mid.world, f, parseDate);
      RunStepOf(stateToCode, mid, f, parseDate, w, o);
      assert files == init + [f];
      RunShapedStep(start, init, f, mid, o, RunFiles(stateToCode, start, files, parseDate));
    }
  }

  /**
   * Re-running over files the manifest already holds with their hashes changes
   * nothing and counts every file as skipped.
   */
  lemma {:induction false} RerunSkipsAll(stateToCode: map<string, string>, start: Run, files: seq<PdfFile>,
                                         parseDate: string -> Option<Slug.Date>)
    requires start.world.db.initialized
    requires forall i | 0 <= i < |files| :: Get(start.world.manifest, files[i].relPath) == Some(files[i].hash)
    ensures var r := RunFiles(stateToCode, start, files, parseDate);
      && r.world == start.world
      && r.counters == start.counters.(skipped := start.counters.skipped + |files|)
    decreases |files|
  {
    if files != [] {
      var init := files[..|files| - 1];
      assert forall i | 0 <= i < |init| :: init[i] == files[i];
      RerunSkipsAll(stateToCode, start, init, parseDate);
    }
  }

  /** Across a run the vector table only grows. */
  lemma {:induction false} RunExtendsVectors(stateToCode: map<string, string>, start: Run, files: seq<PdfFile>,
                                             parseDate: string -> Option<Slug.Date>)
    requires start.world.db.initialized
    ensures var r := RunFiles(stateToCode, start, files, parseDate);
      && (start.world.vectors.Some? ==> r.world.vectors.Some?)
      && |start.world.vectors.GetOr([])| <= |r.world.vectors.GetOr([])|
      && r.world.vectors.GetOr([])[..|start.world.vectors.GetOr([])|] == start.world.vectors.GetOr([])
    decreases |files|
  {
    if files != [] {
      var init := files[..|files| - 1];
      RunExtendsVectors(stateToCode, start, init, parseDate);
      var mid := RunFiles(stateToCode, start, init, parseDate);
      FileExtendsVectors(stateToCode, mid.world, files[|files| - 1], parseDate);
      var a, b, c := start.world.vectors.GetOr([]), mid.world.vectors.GetOr([]),
        RunFiles(stateToCode, start, files, parseDate).world.vectors.GetOr([]);
      assert c[..|a|] == c[..|b|][..|a|];
    }
  }

  /**
   * The whole run: a missing folder changes nothing; otherwise the vector
   * table starts absent, so the first write creates it; the summary's total is
   * the number of files, one event per file, and the tracking file ends as the
   * manifest or deleted.
   */
  lemma {:induction false} IngestSummary(disk: Disk, folderExists: bool, files: seq<PdfFile>, parseDate: string -> Option<Slug.Date>,
                      persistTracking: bool, clearExisting: bool)
    ensures var (result, after) := Ingest(disk, folderExists, files, parseDate, persistTracking, clearExisting);
      && (!folderExists ==> result == FolderNotFound && after == disk)
      && (folderExists && UnreadableManifest(disk.trackFile, |files|) ==> result == ManifestUnreadable)
      && (folderExists && !UnreadableManifest(disk.trackFile, |files|) ==>
            && result.Finished?
            && Start(disk, clearExisting).vectors.None?
            && result.summary.total == result.summary.processed + result.summary.skipped + result.summary.failed
            && result.summary.total == |files| == |result.events|
            && (forall i | 0 <= i < |files| :: result.events[i].path == files[i].relPath)
            && Tally(result.events) == Counters(result.summary.processed, result.summary.skipped, result.summary.failed)
            && (persistTracking && disk.trackFile.TrackOtherJson? ==> after.trackFile == TrackOtherJson)
            && (persistTracking && !disk.trackFile.TrackOtherJson? ==> after.trackFile.TrackObject?)
            && (!persistTracking ==> after.trackFile.NoTrackFile?))
  {
    if folderExists && !UnreadableManifest(disk.trackFile, |files|) {
      var run := RunFiles(Config.StateToCode(), Run(Start(disk, clearExisting), Counters(0, 0, 0), []), files, parseDate);
      IngestOf(disk, files, parseDate, persistTracking, clearExisting, run);
      RunCounts(Config.StateToCode(), Run(Start(disk, clearExisting), Counters(0, 0, 0), []), files, parseDate);
    }
  }

  /**
   * A tracking file that is not JSON, or JSON that is not an object when some
   * file is looked up in it, makes the call raise after the set-up: the vector
   * table is already dropped and, by default, the tables are already emptied;
   * the uploads folder and the tracking file are as they were.
   */
  lemma UnreadableManifestAborts(disk: Disk, files: seq<PdfFile>, parseDate: string -> Option<Slug.Date>,
                                 persistTracking: bool, clearExisting: bool)
    requires UnreadableManifest(disk.trackFile, |files|)
    ensures var (result, after) := Ingest(disk, true, files, parseDate, persistTracking, clearExisting);
      && result == ManifestUnreadable
      && after.vectors.None?
      && after.db.initialized
      && (clearExisting ==> after.db.documents == [] && after.db.chunks == [])
      && (!clearExisting ==> after.db.documents == disk.db.documents && after.db.chunks == disk.db.chunks)
      && after.uploads == disk.uploads
      && after.trackFile == disk.trackFile
  {
  }

  /**
   * A second run with `clear_existing` over an unchanged folder skips every
   * file by its hash, but the tables were cleared and the vector table dropped
   * at its start: it ends with no documents, no chunks and no vector table.
   */
  lemma {:induction false} RerunEmptiesStores(disk: Disk, files: seq<PdfFile>, parseDate: string -> Option<Slug.Date>,
                           persistTracking: bool)
    requires !disk.trackFile.TrackNotJson?
    requires forall i | 0 <= i < |files| :: Get(ManifestOf(disk.trackFile), files[i].relPath) == Some(files[i].hash)
    ensures var (result, after) := Ingest(disk, true, files, parseDate, persistTracking, true);
      && result.Finished? && result.summary == Summary(0, |files|, 0, |files|)
      && after.db.documents == [] && after.db.chunks == []
      && after.vectors.None?
  {
    if |files| > 0 {
      assert Get(ManifestOf(disk.trackFile), files[0].relPath) == Some(files[0].hash);
    }
    var run := RunFiles(Config.StateToCode(), Run(Start(disk, true), Counters(0, 0, 0), []), files, parseDate);
    IngestOf(disk, files, parseDate, persistTracking, true, run);
    RerunSkipsAll(Config.StateToCode(), Run(Start(disk, true), Counters(0, 0, 0), []), files, parseDate);
  }
}
