# Waiver document ingestion, modelled in Dafny

This project models the ingestion core of a treatment-planning assistant.
The assistant reads Medicaid 1915(c) waiver applications (PDFs) and a
state-by-state spreadsheet of waivers. It stores them in three places: a
local SQLite store, a LanceDB vector table and a Neo4j knowledge graph.
Later it answers questions over what it stored.

The model covers the following:

- **Batch PDF ingest** (`PdfIngest`). It walks a folder of PDFs and skips a
  file whose MD5 hash equals the one recorded in the `indexed_files.json`
  manifest. It gates each file on the extracted state and waiver number and
  copies it to `uploads/<state>/<NAME>`. It writes one document row and one
  chunk row per page with text, and appends the chunks to the `policy_docs`
  vector table. Every file is sorted into exactly one of the counters
  `processed`, `skipped` or `failed`. A timeout counts as skipped.
- **The SQLite store** (`Storage`): `init_db`, `clear_all`, `insert_document`,
  `insert_chunk` and `list_recent_documents`, with SQLite's `AUTOINCREMENT`
  ids, which are never reused.
- **The Django management command** `extract_rename_move_to_uploads`
  (`DjangoIngest`). It runs the same per-file pipeline, with three
  differences:
  - the rows are written inside `transaction.atomic()`;
  - the older documents with the same waiver number are deleted first;
  - every chunk also gets an embedding row.

  A run starts by emptying every table and ends by removing its tracking file.
- **Stored file names** (`Slug`): `_slugify` and `_build_upload_path`. The batch
  ingester and the upload page share them.
- **Server text helpers** (`Utils`):
  - the anchor-driven section capture of `extract_specific_sections`, with
    the `SECTIONS_TO_EXTRACT` configuration;
  - the length-threshold flags of `process_logic_flags`;
  - the field defaults and application-type precedence of
    `extract_waiver_info`.
- **The sentence chunker** (`Chunking`): `semantic_chunks`.
- **The spreadsheet-to-graph ingest** (`GraphIngest`): `_safe_embed` /
  `safe_embed`, `get_provider_config`, and the row → properties/themes
  transform of both `ingest_statewise_kg` variants.
- **Graph retrieval post-processing** (`Retriever`): records become waiver
  nodes, `LOCATED_IN` edges and `HAS_THEME` edges.
- **The RAG pipeline's middle part** (`RagPipeline`): the hit filter, the top-5
  ranking, the numbered context and the subgraph request.
- **Configuration** (`Config`): the `US_STATES` table, the name → code map
  both ingesters derive from it, and `update_config`.
- **The upload page helpers** (`UploadPage`): the entity map fallback, the
  edited form, `extra`, the property dictionary and the page count.
- **File hashing** (`FileHash`): the 8192-byte read loop.

Two modelling styles are used:

- **State that the source updates in place is a class.** The SQLite file is
  `Storage.Store`. The Django tables are `DjangoIngest.Database`. The vector
  table, the uploads folder and the tracking file are `PdfIngest.Workspace`
  and `DjangoIngest.Files`. The module globals of `update_config` are
  `Config.Globals`, and the dictionary of `process_logic_flags` is
  `Utils.FieldDict`.
- **Each loop of the source is a method with invariants.** It is proved equal
  to a function over values (`ProcessFile`, `RunFiles`, `Groups`, `ScanPages`,
  and so on). The properties are lemmas about those functions.

The outside world is represented in three ways:

- **Inputs.** PDF text extraction, the regular expressions of the extractors,
  the `re.split` sentence split, the date parser and the MD5 digest are
  inputs or parameters. A file is a record of its relative path, its hash,
  its extracted fields, its page texts and a fault oracle. The oracle names
  the step at which the alarm fires or an exception is raised.
- **Parameters.** The embedding service is a function that gives a vector or
  `None`.
- **Returned values.** Cypher queries, LanceDB writes and ORM calls appear
  as the values they write.

Behaviour of the code that the model follows:

- **A failed vector write fails the whole file.** The write comes after
  the file's document and chunk rows are written, and it fails the file
  with those rows kept (`core/ingestion/pdf_ingest.py:178-202`). See
  `PdfIngest.VectorWriteFailureKeepsRows`.
- **A second run does not keep the rows.** Every run drops the vector
  table, and by default (`clear_existing=True`) it clears both tables
  (`core/ingestion/pdf_ingest.py:79-88`). A rerun over an unchanged folder
  skips every file by its hash and ends with no rows and no vector table.
  See `PdfIngest.RerunEmptiesStores`.
- **An unreadable tracking file aborts after the reset.** `indexed_files.json`
  is read after the stores are reset (`core/ingestion/pdf_ingest.py:79-91`,
  `server/core/management/commands/extract_rename_move_to_uploads.py:57-71`).
  Text that is not JSON makes `json.loads` raise. JSON that is not an object
  makes the first file's `indexed_data.get` raise. Either way the call ends
  with the stores already emptied. See `PdfIngest.UnreadableManifestAborts`
  and `DjangoIngest.UnreadableManifestAborts`.
- **The extractor's keys differ from the ones the ingester reads.**
  `pdf_ingest.py` imports `extract_waiver_info` from `core.utils`, which is
  not part of the repository. The server's `extract_waiver_info` returns
  "Application Number", not the "Waiver Number" the ingester reads.
  Extraction is therefore an input field map in `PdfIngest` and
  `DjangoIngest`, and the server extractor is modelled on its own in
  `Utils`.
- **The Django command as written does not load.** Its imports at
  `server/core/management/commands/extract_rename_move_to_uploads.py:15-16`
  name `WaiverDocument`, which `server/core/models.py` does not define (its
  classes are `Document`, `Chunk`, `Embedding` and `ImageAsset`, at :24, :45,
  :53 and :60). They also name `parse_effective_date`, which
  `server/core/utils.py` holds only as commented-out code (:22). Loading the
  module therefore raises `ImportError` before `handle` runs. Were those
  imports resolved, every file would still fault at extraction. The command
  calls `extract_waiver_info(str(pdf_path))` (:99), but the extractor takes an
  open document and calls `doc.load_page` (`server/core/utils.py:195-199`),
  which a `str` does not have. So every file would raise `AttributeError` and
  take the `except Exception` path. `DjangoIngest` models the command as
  intended, with the extractor's result as an input field map. Under the
  imports-resolved reading of the code, every file's fault oracle is an
  exception at extraction.
- **`WaiverDocument` does not exist.** The Django command imports this model
  from `core.models` at
  `server/core/management/commands/extract_rename_move_to_uploads.py:15`,
  and that import fails, as the previous note says. The model takes the
  fields of `WaiverDocument` from the `create` call
  (`server/core/management/commands/extract_rename_move_to_uploads.py:128-136`).
  Its rows are assumed to cascade to their chunks and embeddings, as the
  `Document` foreign keys of `Chunk` and `Embedding` do
  (`server/core/models.py:45-57`).

## Model

| member | source | states |
|---|---|---|
| FileHash.BlocksCoverFile | core/ingestion/pdf_ingest.py:31-36 | the successive 8192-byte reads cover the file exactly and in order; every block is non-empty and at most 8192 bytes; every block but the last is full |
| FileHash.HashFile | core/ingestion/pdf_ingest.py:31-36 | the read loop's digest is the hasher fed with exactly those blocks, in order |
| Config.StatesTable | core/config.py:23-37 | the table has the fifty (code, name) rows in the source's order |
| Config.StatesDistinct | core/config.py:23-37 | 50 rows; no code twice; no lower-cased name twice |
| Config.StateToCode | core/config.py:23-37 | `{name.lower(): code}`: every lower-cased name maps to its own row's code, and nothing else is a key |
| Config.StateToCodeSize | core/config.py:23-37 | the derived map has exactly 50 keys, so no name is lost to a collision |
| Config.StateToCodeInjective | core/config.py:23-37 | two different names never map to the same code |
| Config.StateCode | core/ingestion/pdf_ingest.py:74 | a lookup by name in any ASCII case finds a code iff the name is one of the fifty, and then it is that row's code |
| Config.StateCodeNonEmpty | core/ingestion/pdf_ingest.py:115-118 | a code found has two characters, so the `not state_code` test never rejects it |
| Config.Globals.UpdateConfig | core/config.py:40-43 | the kwargs loop leaves the globals equal to `Updated(old globals, kwargs)` |
| Config.UpdatedFrame | core/config.py:40-43 | no global is added or removed; each global takes the last non-`None` value passed for it, and every other global keeps its value |
| Slug.CollapseRuns | core/ingestion/pdf_ingest.py:47 | only `[a-z0-9-]` remain, no `--`, and the `[a-z0-9]` characters are those of the input, in order |
| Slug.TrimLeadingDashes | core/ingestion/pdf_ingest.py:48 | a suffix of the input that does not start with `-` and keeps its `[a-z0-9]` characters |
| Slug.TrimTrailingDashes | core/ingestion/pdf_ingest.py:48 | a prefix of the input that does not end with `-` and keeps its `[a-z0-9]` characters |
| Slug.Slugify | core/ingestion/pdf_ingest.py:45-48 | the result is non-empty, only `[a-z0-9-]`, with no edge hyphen and no `--`; its alphanumerics are those of the lower-cased input; when the input has none, the result is exactly `unknown` |
| Slug.SlugCharsOfStrip | core/ingestion/pdf_ingest.py:46 | stripping whitespace removes no character the slug keeps |
| Slug.TrimKeepsShape | core/ingestion/pdf_ingest.py:47-48 | trimming a collapsed string gives a slug, and it is empty iff the string has no alphanumeric |
| Slug.SlugifyIdempotent | core/ingestion/pdf_ingest.py:45-48 | slugifying a slug's output again changes nothing |
| Slug.SlugIsFixpoint | core/ingestion/pdf_ingest.py:45-48 | every string of slug shape is its own slug |
| Slug.DaysInMonth | core/ingestion/pdf_ingest.py:55 | a month has 28 to 31 days, and February has 29 exactly in a Gregorian leap year, as a `date` counts them |
| Slug.IsoDate | core/ingestion/pdf_ingest.py:55 | a formatted date is `YYYY-MM-DD`: ten characters, hyphens at positions 4 and 7, and the four-, two- and two-digit groups denote the year, the month and the day |
| Slug.IsoDateInjective | core/ingestion/pdf_ingest.py:55 | two dates format to the same text exactly when they are the same date |
| Slug.Suffix | core/ingestion/pdf_ingest.py:52 | `Path(name).suffix` is empty or a tail of the name of at least two characters starting with `.` |
| Slug.LastDot | core/ingestion/pdf_ingest.py:52 | the index of the last `.`, or -1 when there is none |
| Slug.BuildUploadPath | core/ingestion/pdf_ingest.py:51-57 | the path is `UPLOADS_DIR/<state or unknown_state>/`, and the name is the upper-cased `<slug or unknown_waiver>_<date or no_date><suffix or .pdf>` |
| Slug.UploadNameHasNoLowerCase | core/ingestion/pdf_ingest.py:56 | the file name holds no lower-case ASCII letter (the folder is not upper-cased) |
| Slug.UploadNameOfKnownFields | pages/1_Document_Upload_and_Ingest.py:22-28 | with a waiver number and a date, the name is `SLUG_YYYY-MM-DD.SUFFIX`, and the date text is kept as is |
| Storage.InitTables | core/storage.py:13-41 | `CREATE TABLE IF NOT EXISTS`: afterwards the tables exist; an existing database is unchanged; rows and sequences are kept |
| Storage.ClearTables | core/storage.py:44-47 | both tables are empty and both AUTOINCREMENT sequences are kept |
| Storage.AddDocument | core/storage.py:50-82 | one row appended with id `sequence + 1`, above every existing id, with `extra or {}` stored; chunks untouched; validity kept |
| Storage.AddChunk | core/storage.py:85-94 | one row appended with the given fields and id `sequence + 1`, whatever the document id is; documents untouched |
| Storage.IdsNotReusedAfterClear | core/storage.py:18 | after `clear_all`, the next document id is still above every id the table held before |
| Storage.ChunkIdsNotReusedAfterClear | core/storage.py:34 | the same for chunk ids |
| Storage.LimitCount | core/storage/sqlite_storage.py:105 | `LIMIT` keeps the smaller of the row count and a non-negative limit; a negative limit keeps every row |
| Storage.RecentDocuments | core/storage/sqlite_storage.py:97-119 | the six projected columns of the newest rows, newest first, as many as `LIMIT` keeps |
| Storage.RecentAreNewest | core/storage/sqlite_storage.py:102-106 | on a valid table, the result is in strictly descending id order, and every row left out has a smaller id than every row returned |
| Storage.Store.constructor | core/storage.py:8-10 | a database file with no tables and no issued ids |
| Storage.Store.InitDb | core/storage.py:13-41 | the file becomes `InitTables` of the old one; no id is issued |
| Storage.Store.ClearAll | core/storage.py:44-47 | with the tables, they become `ClearTables` of the old ones; without them, the statement fails and nothing changes |
| Storage.Store.InsertDocument | core/storage.py:50-82 | the file becomes `AddDocument`; the id returned was never issued before and is larger than every id issued before; it fails with no change when there are no tables |
| Storage.Store.InsertChunk | core/storage.py:85-94 | the file becomes `AddChunk`; the chunk id returned is fresh and above every earlier one |
| Storage.Store.ListRecentDocuments | core/storage/sqlite_storage.py:97-119 | runs `init_db` first, changes neither table, and returns `RecentDocuments` of the documents |
| PdfIngest.PageStop | core/ingestion/pdf_ingest.py:151-174 | the page before which the file is interrupted, present iff its fault fires at one of its pages |
| PdfIngest.Interrupted | core/ingestion/pdf_ingest.py:193-202 | a timeout gives `TimedOut`; any other exception gives `Failed` with its message |
| PdfIngest.EventOf | core/ingestion/pdf_ingest.py:105-202 | the progress event carries the file's path, and an error text iff the file failed |
| PdfIngest.ModeFor | core/ingestion/pdf_ingest.py:179 | `overwrite` iff the vector table does not exist |
| PdfIngest.WriteVectors | core/ingestion/pdf_ingest.py:178-186 | after the write, the table is the old entries, or none, followed by the buffer |
| PdfIngest.Texts | core/ingestion/pdf_ingest.py:153 | each page's text is stripped |
| PdfIngest.NonEmptyPages | core/ingestion/pdf_ingest.py:152-155 | the listed pages are below `n` |
| PdfIngest.NonEmptyPagesHaveText | core/ingestion/pdf_ingest.py:154-155 | only pages whose stripped text is non-empty are listed |
| PdfIngest.NonEmptyPagesComplete | core/ingestion/pdf_ingest.py:152-157 | every page with text is listed |
| PdfIngest.NonEmptyPagesIncreasing | core/ingestion/pdf_ingest.py:152 | the pages are listed in increasing order, each once |
| PdfIngest.ChunkedRows | core/ingestion/pdf_ingest.py:150-174 | the page loop leaves the documents alone; it appends one chunk row per buffered entry, with consecutive fresh ids; one entry per page with text |
| PdfIngest.ChunkedCount | core/ingestion/pdf_ingest.py:157-162 | the chunk sequence advances by one per page with text |
| PdfIngest.ChunkedEntries | core/ingestion/pdf_ingest.py:157-174 | entry k is the k-th page with text: its text, the k-th fresh chunk id, the document id, the state code, the path, and `page = i + 1` for raw index i |
| PdfIngest.RowsOfEntries | core/ingestion/pdf_ingest.py:157-162 | the chunk row of entry k holds its chunk id, the document id, `page`, `order_index = page - 1` and the text |
| PdfIngest.PrepareGate | core/ingestion/pdf_ingest.py:114-122 | with the run's table, a file fails the gate iff its state names none of the fifty states or its waiver number is missing or empty; the code derived is that state's two-letter code |
| PdfIngest.PrepareFields | core/ingestion/pdf_ingest.py:124-134 | past the gate: the table's code for the lower-cased state; the waiver number; the parsed approved date; the stored path `uploads/<code>/<NAME>`; `extra` is every field but the five excluded ones |
| PdfIngest.ProcessFileAdmits | core/ingestion/pdf_ingest.py:101-134 | a file past the manifest, extraction and the gate goes on to the copy and the document row |
| PdfIngest.ProcessedPassedGate | core/ingestion/pdf_ingest.py:105-122 | a processed file had a new hash, was extracted and passed the gate |
| PdfIngest.AdmitOutcome | core/ingestion/pdf_ingest.py:134-202 | past the gate, a file is processed or interrupted by its own fault; it enters the manifest iff processed; a processed file passed the copy and the document row |
| PdfIngest.AdmitIndexes | core/ingestion/pdf_ingest.py:134-148 | with no fault at the copy or the insert, the file is copied, its row inserted with the next id, and the page loop follows |
| PdfIngest.SkipsWriteNothing | core/ingestion/pdf_ingest.py:103-122 | skipped as unchanged iff the manifest holds its hash; skipped for missing metadata iff it was extracted and fails the gate; neither skip changes anything |
| PdfIngest.ManifestOnlyOnSuccess | core/ingestion/pdf_ingest.py:188 | the manifest gains the file's hash iff it is processed, and is unchanged otherwise |
| PdfIngest.IndexRows | core/ingestion/pdf_ingest.py:150-191 | from the document row on: the chunk rows of the pages before the stop; uploads untouched; processed iff not interrupted and no failing vector write; the vector table extended only then |
| PdfIngest.ProcessedFileWrites | core/ingestion/pdf_ingest.py:134-189 | a processed file appended its document row with the next id, then one chunk row per page with text pointing at it; the vector table gained the chunks only if there are any (overwrite iff it did not exist); the file was copied; the manifest holds its hash |
| PdfIngest.VectorWriteFailureKeepsRows | core/ingestion/pdf_ingest.py:178-202 | a failing vector write fails the file; its document row and chunk rows stay; the vector table and the manifest are unchanged |
| PdfIngest.InterruptedAmongPagesKeepsRows | core/ingestion/pdf_ingest.py:151-198 | with no transaction, a file interrupted before page i keeps its document row and the chunks of the pages with text before i; a timeout there counts as skipped |
| PdfIngest.FileKeepsEarlierRows | core/ingestion/pdf_ingest.py:101-202 | whatever happens to a file, the earlier rows stay as a prefix, and at most one document row is added |
| PdfIngest.FileExtendsVectors | core/ingestion/pdf_ingest.py:178-186 | the vector table only grows: once it exists, it keeps its entries as a prefix |
| PdfIngest.TallyStep | core/ingestion/pdf_ingest.py:105-202 | the event a file emits is one of the five kinds, and counting it by name agrees with the outcome's counter |
| PdfIngest.RunShapedStep | core/ingestion/pdf_ingest.py:101-202 | one more file keeps the run's shape: one count and one event per file, in order |
| PdfIngest.RunCounts | core/ingestion/pdf_ingest.py:101-202 | every file adds one to exactly one counter and emits exactly one event, of one of the five kinds, for its own path and in file order; the counters are what the event names give |
| PdfIngest.RerunSkipsAll | core/ingestion/pdf_ingest.py:105-109 | over files whose hashes the manifest holds, the run changes nothing and counts every file as skipped |
| PdfIngest.RunExtendsVectors | core/ingestion/pdf_ingest.py:178-186 | across a run, the vector table only grows |
| PdfIngest.IngestSummary | core/ingestion/pdf_ingest.py:76-214 | a missing folder changes nothing; an unreadable tracking file raises; otherwise the vector table starts absent, `total = processed + skipped + failed = number of files = number of events`, and the tracking file ends written (the manifest object, or the non-object JSON read back) or deleted as `persist_tracking` says |
| PdfIngest.UnreadableManifestAborts | core/ingestion/pdf_ingest.py:79-105 | a tracking file that is not JSON, or JSON that is not an object when some file is looked up, raises after the set-up: the vector table is dropped, by default the tables are emptied, and the uploads and the tracking file are as before |
| PdfIngest.AbortOf | core/ingestion/pdf_ingest.py:90-105 | with an unreadable tracking file, the outcome is the abort after `Start` |
| PdfIngest.RerunEmptiesStores | core/ingestion/pdf_ingest.py:84-109 | a second run over an unchanged folder with `clear_existing` skips every file but ends with no documents, no chunks and no vector table |
| PdfIngest.IngestOf | core/ingestion/pdf_ingest.py:204-214 | over an existing folder with a readable tracking file, the summary is the run's counters with their total, and the tracking file is written back or absent |
| PdfIngest.Workspace.constructor | core/ingestion/pdf_ingest.py:83-91 | the vector table, the uploads folder and the tracking file as given |
| PdfIngest.IngestPdfFolder | core/ingestion/pdf_ingest.py:60-214 | the method over the store and the workspace ends with the result and the disk that `Ingest` gives, the abort on an unreadable tracking file included |
| PdfIngest.IngestExisting | core/ingestion/pdf_ingest.py:79-214 | past the folder check, the same |
| PdfIngest.StartAt | core/ingestion/pdf_ingest.py:79-91 | `init_db`, the vector table dropped, `clear_all` if asked, the manifest read: the state `Start` gives; the load fails exactly when the file is not JSON |
| PdfIngest.RunAt | core/ingestion/pdf_ingest.py:101-202 | the loop over the files ends in the state and with the counters and events of `RunFiles` |
| PdfIngest.RunStepAt | core/ingestion/pdf_ingest.py:101-202 | one pass of the loop is `RunStep` |
| PdfIngest.ProcessFileAt | core/ingestion/pdf_ingest.py:102-202 | the loop body is `ProcessFile` |
| PdfIngest.AdmitAt | core/ingestion/pdf_ingest.py:133-191 | the copy, the insert and the rest are `Admit` |
| PdfIngest.IndexAt | core/ingestion/pdf_ingest.py:150-191 | the page loop, the vector write and the manifest entry are `Index` |
| PdfIngest.ChunkPages | core/ingestion/pdf_ingest.py:150-174 | the page loop over the first pages is `Chunked` |
| PdfIngest.FinishAt | core/ingestion/pdf_ingest.py:204-214 | the tracking file becomes the manifest (or keeps the non-object JSON it held), or is removed; the summary's total is the sum of the counters |
| DjangoIngest.DeleteEverything | server/core/management/commands/extract_rename_move_to_uploads.py:66-68 | the three tables are empty and their sequences kept |
| DjangoIngest.Filter | server/core/management/commands/extract_rename_move_to_uploads.py:113 | a bulk delete leaves no more rows than it found |
| DjangoIngest.FilterMembers | server/core/management/commands/extract_rename_move_to_uploads.py:113 | a bulk delete keeps exactly the rows it should keep |
| DjangoIngest.DeleteApplication | server/core/management/commands/extract_rename_move_to_uploads.py:113 | the delete by waiver number keeps the sequences |
| DjangoIngest.DeleteApplicationRemoves | server/core/management/commands/extract_rename_move_to_uploads.py:113 | every document with the number is removed and every other kept; the chunks and embeddings of the removed documents go with them and all others stay; distinct numbers stay distinct |
| DjangoIngest.DeleteApplicationValid | server/core/management/commands/extract_rename_move_to_uploads.py:113 | every remaining id stays within its sequence |
| DjangoIngest.FilterUnique | server/core/management/commands/extract_rename_move_to_uploads.py:113 | deleting documents keeps the waiver numbers of the others distinct |
| DjangoIngest.CreateDocument | server/core/management/commands/extract_rename_move_to_uploads.py:128-136 | one document appended with the next id, the given fields and no file yet; the other tables are untouched |
| DjangoIngest.SaveFilePath | server/core/management/commands/extract_rename_move_to_uploads.py:138-139 | only the row with the id records the file name |
| DjangoIngest.CreateChunk | server/core/management/commands/extract_rename_move_to_uploads.py:149-154 | one chunk appended with the next id and the given fields |
| DjangoIngest.CreateEmbedding | server/core/management/commands/extract_rename_move_to_uploads.py:155-160 | one embedding appended: `kind = "text"`, `vector_id = 0`, its chunk and its document |
| DjangoIngest.WrittenTables | server/core/management/commands/extract_rename_move_to_uploads.py:113-139 | before the page loop, the older documents with the number are gone with their chunks and embeddings; one new document records the saved file; only the document sequence advanced; ids stay valid |
| DjangoIngest.PagesChunks | server/core/management/commands/extract_rename_move_to_uploads.py:143-154 | the page loop leaves the documents and appends one chunk per buffered entry |
| DjangoIngest.PagesEmbeddings | server/core/management/commands/extract_rename_move_to_uploads.py:155-160 | one embedding per buffered entry, pointing at its chunk, with consecutive fresh ids |
| DjangoIngest.PagesEntries | server/core/management/commands/extract_rename_move_to_uploads.py:143-172 | entry k is the k-th page with text with the k-th fresh chunk id: the same entries as `ingest_pdf_folder` |
| DjangoIngest.PagesValid | server/core/management/commands/extract_rename_move_to_uploads.py:143-172 | the page loop keeps every id within its sequence |
| DjangoIngest.GateAgrees | server/core/management/commands/extract_rename_move_to_uploads.py:100-125 | the gate lets the same files through as `ingest_pdf_folder`'s, with the same code, number, date and `extra` |
| DjangoIngest.HandleFileAdmits | server/core/management/commands/extract_rename_move_to_uploads.py:87-113 | a new file that was extracted and passed the gate goes through the atomic block |
| DjangoIngest.AtomicCommits | server/core/management/commands/extract_rename_move_to_uploads.py:99-188 | with no fault in the block and no failing vector write, the block commits: tables, media, vector table and manifest as written |
| DjangoIngest.AtomicOutcome | server/core/management/commands/extract_rename_move_to_uploads.py:95-198 | processed or interrupted by its own fault; in the manifest iff processed; the tables are those before the block or those it wrote |
| DjangoIngest.SkipsWriteNothing | server/core/management/commands/extract_rename_move_to_uploads.py:91-110 | unchanged iff the manifest holds the hash; missing metadata iff extracted and fails the gate; neither changes anything |
| DjangoIngest.ManifestOnlyOnSuccess | server/core/management/commands/extract_rename_move_to_uploads.py:188 | `indexed_data` gains the file's hash iff it is processed |
| DjangoIngest.FaultInBlockRollsBack | server/core/management/commands/extract_rename_move_to_uploads.py:99-198 | a timeout or exception inside `transaction.atomic()` leaves the tables, the vector table and the manifest as they were; the media file stays once saved |
| DjangoIngest.VectorWriteFailureKeepsRows | server/core/management/commands/extract_rename_move_to_uploads.py:178-198 | a failing vector write comes after the commit: failed, rows and media kept, vector table and manifest unchanged |
| DjangoIngest.PagedDocuments | server/core/management/commands/extract_rename_move_to_uploads.py:113-136 | the block leaves the other documents and one new document, the only one with the file's waiver number |
| DjangoIngest.PagedRows | server/core/management/commands/extract_rename_move_to_uploads.py:113-172 | the chunks and embeddings of the other documents stay; one chunk and one embedding are added per page with text |
| DjangoIngest.ProcessedCommits | server/core/management/commands/extract_rename_move_to_uploads.py:95-188 | a processed file passed the gate, and the block committed |
| DjangoIngest.ProcessedFileWrites | server/core/management/commands/extract_rename_move_to_uploads.py:113-188 | a processed file leaves exactly one document for its number, the new one; the older ones are gone with their rows; one chunk, one embedding and one vector entry per page with text; the media, the vector table and the manifest hold the file |
| DjangoIngest.PagedKeepsInvariant | server/core/management/commands/extract_rename_move_to_uploads.py:113-172 | fresh ids and distinct waiver numbers are kept by the block |
| DjangoIngest.HandleFileKeepsInvariant | server/core/management/commands/extract_rename_move_to_uploads.py:87-198 | every file keeps fresh ids and distinct waiver numbers |
| DjangoIngest.RunKeepsInvariant | server/core/management/commands/extract_rename_move_to_uploads.py:87-198 | one outcome per file, after the earlier ones, and the invariant kept across the run |
| DjangoIngest.MissingFolderStillResets | server/core/management/commands/extract_rename_move_to_uploads.py:61-81 | a missing folder still leaves no rows and no vector table; media and tracking file are as before; it is reported as such unless the tracking file is not JSON, which raises first |
| DjangoIngest.FinishedRun | server/core/management/commands/extract_rename_move_to_uploads.py:55-206 | with a readable tracking file: one outcome per file; at most one document per waiver number; the tracking file removed, so the next run starts from an empty manifest |
| DjangoIngest.UnreadableManifestAborts | server/core/management/commands/extract_rename_move_to_uploads.py:57-91 | a tracking file that is not JSON, or JSON that is not an object when some file is looked up, raises after the deletes: no rows and no vector table remain; media and tracking file are as before |
| DjangoIngest.HandleOf | server/core/management/commands/extract_rename_move_to_uploads.py:79-206 | over an existing folder with a readable tracking file, the disk afterwards is the run's, with no tracking file |
| DjangoIngest.Database.constructor | server/core/management/commands/extract_rename_move_to_uploads.py:15 | the tables as given |
| DjangoIngest.Database.DeleteAll | server/core/management/commands/extract_rename_move_to_uploads.py:66-68 | the tables become `DeleteEverything` of the old ones |
| DjangoIngest.Database.DeleteByApplicationNumber | server/core/management/commands/extract_rename_move_to_uploads.py:113 | the tables become `DeleteApplication` of the old ones |
| DjangoIngest.Database.CreateWaiverDocument | server/core/management/commands/extract_rename_move_to_uploads.py:128-136 | returns the next id; the tables become `CreateDocument` |
| DjangoIngest.Database.SaveFile | server/core/management/commands/extract_rename_move_to_uploads.py:138-139 | the tables become `SaveFilePath` |
| DjangoIngest.Database.NewChunk | server/core/management/commands/extract_rename_move_to_uploads.py:149-154 | returns the next chunk id; the tables become `CreateChunk` |
| DjangoIngest.Database.NewEmbedding | server/core/management/commands/extract_rename_move_to_uploads.py:155-160 | the tables become `CreateEmbedding` |
| DjangoIngest.Database.Rollback | server/core/management/commands/extract_rename_move_to_uploads.py:99 | the tables are back at the savepoint taken when the block began |
| DjangoIngest.Files.constructor | server/core/management/commands/extract_rename_move_to_uploads.py:61-71 | the media, the vector table and the tracking file as given |
| DjangoIngest.HandleCommand | server/core/management/commands/extract_rename_move_to_uploads.py:55-206 | the method over the database and the files ends with the result and the disk that `Handle` gives, the abort on an unreadable tracking file included |
| DjangoIngest.RunAt | server/core/management/commands/extract_rename_move_to_uploads.py:87-198 | the loop over the files is `RunFiles` |
| DjangoIngest.RunStepOf | server/core/management/commands/extract_rename_move_to_uploads.py:87-198 | one pass records the file's outcome after the earlier ones |
| DjangoIngest.HandleFileAt | server/core/management/commands/extract_rename_move_to_uploads.py:88-198 | the loop body is `HandleFile` |
| DjangoIngest.AtomicAt | server/core/management/commands/extract_rename_move_to_uploads.py:99-198 | the atomic block, with rollback on a fault, and what follows it, is `Atomic` |
| DjangoIngest.PagesAt | server/core/management/commands/extract_rename_move_to_uploads.py:142-172 | the page loop is `Pages` |
| DjangoIngest.PageAt | server/core/management/commands/extract_rename_move_to_uploads.py:144-172 | one page is `PageStep` |
| DjangoIngest.SyncAt | server/core/management/commands/extract_rename_move_to_uploads.py:175-188 | `alarm(0)`, the LanceDB sync and the manifest entry are `Sync` |
| Utils.SectionsToExtract | server/core/utils.py:168-189 | four sections; the stop anchor of the first is the start anchor of the second |
| Utils.SectionsToExtractKeys | server/core/utils.py:168-189 | the four keys are distinct and non-empty |
| Utils.FirstStart | server/core/utils.py:250-254 | the first entry, in configuration order, whose start anchor occurs in the block, or none when no anchor occurs |
| Utils.Finish | server/core/utils.py:265-266 | captured values are kept; every configured key is present; a key not captured is `Not Found` |
| Utils.ExtractSpecificSections | server/core/utils.py:233-267 | the nested page and block loops return `SectionsOf` the pages |
| Utils.HandleBlock | server/core/utils.py:243-263 | the body of the block loop is `ScanBlock` |
| Utils.FindStart | server/core/utils.py:250-254 | the `items()` loop with its `break` is `FirstStart` |
| Utils.SectionsKeys | server/core/utils.py:265-266 | the result has exactly the configured keys, and a key never captured maps to `Not Found` |
| Utils.ScanBlocksKeys | server/core/utils.py:246 | results only ever hold configured keys |
| Utils.ScanBlockCloses | server/core/utils.py:244-247 | an open section whose stop anchor occurs stores its newline-joined capture, replacing an earlier value; nothing stays open unless the block opens another section |
| Utils.ScanBlockOpens | server/core/utils.py:249-255 | with no section open, the first matching entry opens with an empty capture; the start block itself is never captured; capture starts at once only without a `content_after` marker |
| Utils.ChainedAnchorsReopen | server/core/utils.py:170-176 | with the configured sections, the block holding the transition heading closes the additional-criteria section and opens the transition-plan section at once |
| Utils.ScanBlockWhileOpen | server/core/utils.py:244-263 | while a section is open, start anchors are ignored; before the marker nothing is captured, the marker block included; once ready, each non-empty block is appended |
| Utils.CaptureRun | server/core/utils.py:262-263 | blocks without the stop anchor, read while ready, append exactly their non-empty texts, in order |
| Utils.WaitRun | server/core/utils.py:257-260 | blocks with neither the stop anchor nor the marker, read before the marker, change nothing |
| Utils.SectionCaptured | server/core/utils.py:243-263 | a whole capture without a marker: the value is the newline-join of the non-empty blocks between the start and stop blocks |
| Utils.SectionCapturedAfterMarker | server/core/utils.py:243-263 | with a marker: the blocks before the marker, and the marker block itself, are left out of the value |
| Utils.StoredOnlyAtStop | server/core/utils.py:244-247 | a key gains a value only at a block holding that section's stop anchor, so a section still open at the end stores nothing |
| Utils.LogicFlags | server/core/utils.py:269-282 | exactly the three flag keys are added, and every other key keeps its value |
| Utils.LogicFlagsThresholds | server/core/utils.py:270-282 | each flag takes its "long" value iff its section is present with at least 15 characters; a missing section counts as empty |
| Utils.FlagKeysDistinct | server/core/utils.py:270-281 | no flag written is a section a later test of the same call reads |
| Utils.FieldDict.constructor | server/core/utils.py:269 | the dictionary as given |
| Utils.FieldDict.ProcessLogicFlags | server/core/utils.py:269-282 | the dictionary is updated in place to `LogicFlags` of its old contents, and the same object is returned |
| Utils.WaiverInfoKeys | server/core/utils.py:203-231 | the result has exactly the seven fields |
| Utils.WaiverInfoUnmatched | server/core/utils.py:205-229 | a field whose pattern does not match is `Not Found` |
| Utils.WaiverInfoTrimmed | server/core/utils.py:206-229 | no value starts or ends with whitespace |
| Utils.WaiverInfoFields | server/core/utils.py:205-229 | each field is its match's stripped group, or `Not Found` |
| Utils.ApplicationTypePrecedence | server/core/utils.py:222-226 | Amendment over Renewal over New, else `Not Found`, each iff its phrases match |
| Chunking.SemanticChunks | server/core/ingestion/chunking.py:4-12 | the loop returns `Chunks` of the parts |
| Chunking.JoinEach | server/core/ingestion/chunking.py:10-11 | one chunk per group, each joined with single spaces |
| Chunking.WordTotalSnoc | server/core/ingestion/chunking.py:9 | appending a part adds its word count |
| Chunking.GroupsFlatten | server/core/ingestion/chunking.py:7-11 | the groups concatenate to the parts: nothing is lost or reordered |
| Chunking.GroupsNonEmpty | server/core/ingestion/chunking.py:10-11 | no group is empty, and there is a group iff the buffer and the parts are not both empty |
| Chunking.GroupsOverflow | server/core/ingestion/chunking.py:9-10 | every group but the last has more than `max_tokens` words |
| Chunking.GroupsPrefixes | server/core/ingestion/chunking.py:8-10 | no proper prefix of a group has more than `max_tokens` words: the buffer is emitted as soon as it overflows |
| Chunking.ChunksPreserveText | server/core/ingestion/chunking.py:5-12 | the chunks joined with spaces equal the parts joined with spaces |
| Chunking.ChunksAreGreedy | server/core/ingestion/chunking.py:4-12 | the groups are the greedy split of the parts, and there is a chunk iff there is a part |
| Chunking.LastChunkIsLeftover | server/core/ingestion/chunking.py:11 | the last chunk is the leftover buffer: the parts after the last overflowing group |
| GraphIngest.EmbedArgument | core/ingestion/graph_ingest.py:18-21 | no call for empty text; otherwise a non-empty prefix of at most 7000 characters, the whole text when it is short enough |
| GraphIngest.SafeEmbed | core/ingestion/graph_ingest.py:18-25 | empty text gives `None` without calling the embedder |
| GraphIngest.SafeEmbedSeesPrefix | core/ingestion/graph_ingest.py:21-23 | only the first 7000 characters decide the embedding |
| GraphIngest.ProviderConfig | core/ingestion/graph_ingest.py:12-15 | OpenAI with 1536 dimensions iff the provider is `openai`, otherwise Ollama with 1024 |
| GraphIngest.IndexDimensions | server/core/management/commands/ingest_statewise_kg.py:24-51 | the option is lower-cased first: 1536 iff it reads `openai` in any case, 1024 otherwise |
| GraphIngest.CellFound | core/ingestion/graph_ingest.py:57-66 | a non-empty value comes from a cell of that column; an absent column reads as empty |
| GraphIngest.CollectThemes | core/ingestion/graph_ingest.py:73-82 | the column loop returns `Themes` of the row |
| GraphIngest.IngestStatewiseKg | core/ingestion/graph_ingest.py:56-90 | returns `IngestRows`; `created` equals the number of rows written and of `row_ingested` events, each naming its row's number |
| GraphIngest.ThemesAppend | core/ingestion/graph_ingest.py:74 | theme selection keeps column order |
| GraphIngest.ThemesAreThemeCells | core/ingestion/graph_ingest.py:74-82 | every theme is a non-blank cell of a column other than the two key columns, with the embedding of `col: value` |
| GraphIngest.ThemeCellsAreThemes | core/ingestion/graph_ingest.py:74-82 | every such cell yields a theme |
| GraphIngest.IngestRowsAppend | core/ingestion/graph_ingest.py:56 | rows are ingested in spreadsheet order |
| GraphIngest.IngestOneRow | core/ingestion/graph_ingest.py:57-84 | a blank application number skips the row; otherwise one waiver with the stripped number, `AMENDMENT` iff the amendment cell is non-empty, and its themes |
| GraphIngest.IngestedNumbersNonBlank | server/core/management/commands/ingest_statewise_kg.py:75-77 | every ingested waiver has a non-empty number with no surrounding whitespace |
| GraphIngest.CreatedCountsIngestible | core/ingestion/graph_ingest.py:85 | `created` is the number of rows with a non-blank application number |
| Retriever.Or | server/core/rag/retriever.py:72-75 | Python's `or`: an absent or empty value falls back |
| Retriever.ExecuteRawCypher | server/core/rag/retriever.py:56-106 | the call returns `SubgraphOf` the query's outcome: the empty graph when the query raises, the `AttributeError` when a record raises, the records' nodes and edges otherwise |
| Retriever.BuildGraph | server/core/rag/retriever.py:69-101 | the records loop stops with the error exactly when some record raises, and otherwise builds `Nodes` and `Edges` of the records |
| Retriever.AddRecord | server/core/rag/retriever.py:69-101 | a record raises exactly when its id or title falls through to an `app` that is not a dictionary; otherwise it appends its node and its edges, or nothing for an unknown id |
| Retriever.AppendThemeEdges | server/core/rag/retriever.py:95-101 | the themes loop appends one edge per named theme |
| Retriever.QueryFailureIsEmpty | server/core/rag/retriever.py:60-64 | a query that raises gives no nodes and no edges |
| Retriever.OneRecord | server/core/rag/retriever.py:72-87 | the call raises iff `app` is present but not a dictionary and the id or the title is falsy; a missing `app` never raises; otherwise a node iff the fallback id is not `unknown_id`; defaults `Untitled`, `Unknown State`, `[]`, 0 |
| Retriever.RaiseDiscardsGraph | server/core/rag/retriever.py:69-106 | one raising record makes the whole call raise, whatever the records before it gave |
| Retriever.DictAppsReturn | server/core/rag/retriever.py:72-73 | records whose `app` is missing or a dictionary never raise: the call returns their nodes and edges |
| Retriever.ThemeEdgesShape | server/core/rag/retriever.py:95-101 | one `HAS_THEME` edge per named theme, every one from the node's id |
| Retriever.EdgeCount | server/core/rag/retriever.py:89-101 | edges = nodes + named themes of the emitted nodes |
| Retriever.EdgesFromNodes | server/core/rag/retriever.py:79-101 | every edge starts at an emitted node, and no node has the id `unknown_id` |
| Retriever.LocatedInPerNode | server/core/rag/retriever.py:89-93 | the `LOCATED_IN` edges are, in order, one per node, from its id to its state |
| RagPipeline.FilterHits | server/core/rag/pipeline.py:23 | no filters, or an empty dictionary, leave the hits as they are |
| RagPipeline.KeepHitsMembers | server/core/rag/pipeline.py:25-27 | a hit is kept iff every set filter equals the document's field |
| RagPipeline.KeepHitsAppend | server/core/rag/pipeline.py:25 | filtering keeps hit order |
| RagPipeline.UnsetFiltersKeepAll | server/core/rag/pipeline.py:24-27 | filters with none of the three keys set keep every hit |
| RagPipeline.TopHits | server/core/rag/pipeline.py:29 | at most five hits, a prefix of the hits |
| RagPipeline.ContextLines | server/core/rag/pipeline.py:29-31 | one context line per top hit, numbered from 1 |
| RagPipeline.Sources | server/core/rag/pipeline.py:29-37 | one source per top hit, ranked from 1 |
| RagPipeline.Paths | server/core/rag/pipeline.py:44 | the sources' paths, in order |
| RagPipeline.Ask | server/core/rag/pipeline.py:20-45 | `ask` between the search and the model returns `Plan` |
| RagPipeline.RankHits | server/core/rag/pipeline.py:28-37 | the enumerate loop returns `ContextLines` and `Sources` |
| RagPipeline.PlanSources | server/core/rag/pipeline.py:29-44 | at most five sources, ranked 1..n in hit order; the subgraph is asked for exactly their paths in rank order |
| RagPipeline.ContextLineShape | server/core/rag/pipeline.py:31 | a line is its `[#i] ` marker followed by at most the first 1200 characters of the chunk |
| RagPipeline.NoContextIffNoHits | server/core/rag/pipeline.py:38 | the context is `(no context)` iff no hit remains |
| UploadPage.DefaultEntityMap | pages/1_Document_Upload_and_Ingest.py:40-53 | the twelve default entries |
| UploadPage.EntityMapOf | pages/1_Document_Upload_and_Ingest.py:75-79 | text that is not valid JSON falls back to the default map |
| UploadPage.Extra | pages/1_Document_Upload_and_Ingest.py:101-103 | `extra` holds exactly the extracted keys the map does not name, with their values |
| UploadPage.FixedProps | pages/1_Document_Upload_and_Ingest.py:107-114 | the six fixed keys |
| UploadPage.Props | pages/1_Document_Upload_and_Ingest.py:105-115 | the fixed values win; every other edited value is kept |
| UploadPage.EditedKeys | pages/1_Document_Upload_and_Ingest.py:81-85 | the form has one value per distinct property name of the map, and nothing else |
| UploadPage.EditedValue | pages/1_Document_Upload_and_Ingest.py:83-85 | the property of the last entry naming it holds the user's input for that entry, else the value extracted under its key, else `""` |
| UploadPage.ExtraPartitions | pages/1_Document_Upload_and_Ingest.py:101-103 | each extracted key is either mapped or in `extra`, never both |
| UploadPage.FixedPropsValues | pages/1_Document_Upload_and_Ingest.py:107-114 | each fixed key holds the value the page computed |
| UploadPage.SubmitProps | pages/1_Document_Upload_and_Ingest.py:90-115 | the saved properties are the edited ones plus the six fixed keys, fixed values winning; the stored path is under the uploads folder |
| UploadPage.TotalPagesIsCeiling | pages/1_Document_Upload_and_Ingest.py:128 | at least one page; every document fits; the last page is not empty |

## Left out

- Config.StateCode: case mapping is ASCII-only. Python's `str.lower` also maps
  non-ASCII letters, such as KELVIN SIGN to `k`, so a state name written with
  one would find its code in the source and none in the model.
- Slug.Slugify: case mapping is ASCII-only. Non-ASCII letters that Python's
  `lower` turns into `[a-z]` (KELVIN SIGN) are dropped, as any other
  character outside `[a-z0-9]` is.
- Slug.BuildUploadPath: case mapping is ASCII-only. Python's `upper` maps
  `ß` to `SS` and `é` to `É`; the model leaves non-ASCII letters as they are.
  The root is the fixed text `uploads`, standing for `BASE_DIR / "uploads"`,
  the default of `config.UPLOADS_DIR`. The model does not follow the
  `UPLOADS_DIR` environment variable or a later `update_config`. The suffix
  is taken from the whole file name, not from its last path component.
- Slug.IsoDate: years below 1000 are zero-padded to four digits, as
  `date.isoformat()` pads them. `strftime("%Y")` pads them or not depending on
  the platform's C library, so for those years a stored name may differ.
- Slug.PathText: the three parts are joined with `/` as text, not with
  pathlib's rules. A state that is an absolute path would replace the root
  with pathlib, and one ending in `/` or equal to `.` would collapse. The
  model gives `uploads/<state>/<NAME>` for each of them.
- PdfIngest.PrepareGate: the state lookup uses the ASCII-only lowering of
  `Config.StateCode`.
- DjangoIngest.GateAgrees: the state lookup uses the ASCII-only lowering of
  `Config.StateCode`.
- PdfIngest.PrepareFields: the stored path is `Slug.PathText` of the fixed
  root. `relative_to(config.BASE_DIR)` raises `ValueError` when the uploads
  folder lies outside the base directory, which fails the file after the
  copy. That failure is not modelled.
- UploadPage.SubmitProps: the stored path is `Slug.PathText` of the fixed
  root, with the same text join. The `ValueError` of `relative_to` after
  the move, for an uploads folder outside the base directory, is not
  modelled.
- The tracking file's object entries are path → hash strings. An entry whose
  value is not a string never equals a hash, so it behaves like a different
  hash. That is not represented.
- Retriever.ExecuteRawCypher: each record field has the type it is read as.
  Values of another type are not modelled: a non-dictionary `app` is the
  one exception, and it raises. Examples are a number as `waiver_id`, or a
  string or a dictionary as `themes`, which `for t in themes` would iterate.

- Reading a file for its hash happens before the `try`, so an exception there
  would end the whole run. The model assumes every file can be read.
- MD5 itself: the hasher's state, its update step and its digest are
  parameters of `FileHash`. Elsewhere a file's hash is a field of its record.
  `generate_doc_id` and the upload page's `_hash_bytes` are the same digest
  of the whole content.
- PDF text extraction (PyMuPDF), the regular expressions of the two
  `extract_waiver_info` versions, and the `re.split` sentence split of
  `semantic_chunks`. Page texts, block texts, match results and sentence parts
  are inputs.
- `parse_effective_date` is not part of this model: it exists only as
  commented-out code. The date parser is a parameter, `string -> Option<Date>`.
- The `SIGALRM` mechanism: an oracle per file names the step at which the alarm
  fires or an exception is raised. The alarm is not disarmed on the
  missing-metadata and generic-exception paths, so a pending alarm can fire
  while the next file is processed. That signal-level carry-over is not
  modelled.
- LanceDB, the embedding services, the language model and Neo4j are external.
  A vector entry carries the chunk text and its metadata, but no vector.
  Cypher text is not interpreted. The graph write is the record the model
  returns; the retriever's records are an input.
- The Django ORM's file storage: `upload_to` and `get_available_name`
  renaming are not modelled. The media storage is a map from the saved name
  to the content's hash.
- `DjangoIngest.Sync`: LanceDB's mode choice in the Django command is
  `Path(db_path).exists()` on the database directory, not a check that the
  table exists. The model writes the table as created-or-appended either way.
  The final contents are the same.
- The progress callback and the console messages: the batch ingester's events
  are returned as a sequence. The Django command's messages are reduced to the
  outcome of each file.
- Floating point: the score `round(h["score"], 4)` is kept as given. Scores are
  `real`.
- `list_recent_documents`: SQLite's reading of a non-integer limit is not
  modelled; the limit is an integer.
- `_get_embedder` and the provider switch of the batch ingester select a
  service only; they change no stored value.
- The upload page's entity map is assumed to parse to a JSON object. A JSON
  value of another kind would make `.items()` raise, and that case is not modelled.
- The Streamlit widgets, the temporary file and its `shutil.move`, and the
  `upsert_document` and `count_documents` calls. The form's inputs and the
  document count are parameters.
- `_cypher_ingest`'s MERGE/CREATE semantics in Neo4j. The model states what
  is passed to it per row.
