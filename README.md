# push_dash back end: a Dafny model of its core

push_dash is a dashboard over four risk datasets: issues, controls, external
loss and internal loss. Each dataset is a SQLite table of raw records
(`<dataset>_raw`). Beside it sits one result table per AI function
(`<dataset>_<function>`), which caches one JSON payload and a `created_at`
stamp per record id.

This project models the back end's core in Dafny 4.11 and proves properties
of that model:

- the static dataset configuration;
- the resolver's cache-or-compute pattern, its bulk lookup and its cache
  clearing;
- the resumable bulk runner with its progress file;
- the batch processor: chunked compute, taxonomy rewrite, cascade delete and
  status counts;
- the pipe-delimited taxonomy strings;
- CSV ingestion: validation, batches and insert-or-ignore;
- the CSV export of cached AI outputs, with record hydration and an ordered
  header;
- the base DAO, which shapes items, presence flags, pages and detail views.

## Modules

- **Values** (`values.dfy`) holds the decoded JSON values.
  - A Python dict is a `Dict`: a list of keys in insertion order plus a map.
  - `Put`, `SetDefault` and `Update` model item assignment, `setdefault` and
    `update`.
  - `Result` and `Option` model errors and `None`.
  - `Error` names every exception the core raises.
- **Seqs** and **Strings** (`seqs.dfy`, `strings.dfy`) hold the sequence and
  string helpers:
  - chunking;
  - code-point ordering and `sorted`;
  - `split` and `join`;
  - `strip`;
  - order-preserving dedupe.
- **Store** (`store.dfy`) stands for the SQLite database.
  - A table name maps to one of three kinds of table:
    - a raw table: id to raw row;
    - a result table: id to (payload, created_at);
    - a token table: a list of (id, token) rows.
  - A query on a missing table is the `NoSuchTable` error.
  - `DeleteRows` returns the number of rows removed.
- **DatasetConfigs** (`dataset_config.dfy`): `DatasetConfig`, `DATASET_CONFIG`,
  `get_dataset_config`.
- **Resolver** (`resolver.dfy`): `FunctionResolver` is a class over a
  `Database`. The compute function is a parameter whose call may raise, and
  a ghost log records every compute call.
- **BulkProcess** (`bulk_process.dfy`): `chunked`, `CacheManager` over a
  `ProgressFile`, `_process_single`, `run_bulk_process`.
- **BatchUtils** (`batch_utils.dfy`): `BatchProcessor`. The thread pool is a
  sequential fold over the chunks.
- **Taxonomy** (`taxonomy.dfy`): normalise, parse, validate, merge and
  compare taxonomy strings.
- **CsvIngest** (`csv_ingest.dfy`): `CSVIngester`. The files are a map from
  path to parsed rows.
- **BulkExport** (`bulk_export.dfy`): `_hydrate_record`,
  `_serialize_for_csv`, the field registry and `export_ai_data`.
- **Dao** (`dao.dfy`): `BaseDAO`.

Each operation that changes state is a method. Its `ensures` ties the result
and the new tables to a specification function of the old tables. The
properties are lemmas about those functions.

### Where the code disagrees with itself

- The resolver's function map serves three functions per dataset. The
  configuration lists four: the fourth is `slow_enrichment`, which the
  resolver does not serve. The model keeps both lists as written.
  Consequences:
  - resolving `slow_enrichment` always fails with "invalid function";
  - the detail view always reports `slow_enrichment` as null.
- `batch_utils.py` uses its own key-field map and function table names:
  `ai_taxonomy`, `ai_root_causes`, `ai_enrichment` and `similar_<dataset>`.
  It also reads the `description` and `nfr_taxonomy` columns. The model uses
  those names as written.
  - The schema in `backend/db.py` has neither column. It creates no
    `ai_*`, `similar_*` or `<dataset>_taxonomy_map` table. It keys
    external_loss and internal_loss by `reference_id_code` and `event_id`,
    not by `ext_loss_id` and `loss_id` as `batch_utils.py` does.
  - Against that schema, the raw-table queries of `batch_utils.py` fail
    with "no such column". The model instead assumes the columns exist:
    a raw row's `description` and `nfrTaxonomy` are `Null` unless set.
- `_process_single` in `bulk_process.py` calls `resolve` without `user_id`
  and without awaiting it. See "## Findings".

## Model

| member | source | states |
|---|---|---|
| DatasetConfigs.GetDatasetConfig | backend/dataset_config.py:72-77 | a known name gives its entry, and any other name gives an UnknownDataset error; each entry's table is `<dataset>_raw`, it lists four distinct AI functions, and it has subtheme and category columns |
| DatasetConfigs.ConfigsInvariant | backend/dataset_config.py:24-69 | the configured names are exactly the four datasets; every entry has table `<name>_raw`, four distinct AI functions, optional columns present, and delimiter "," |
| DatasetConfigs.Defaults | backend/dataset_config.py:20-21 | `category_field` defaults to None and `theme_delimiter` defaults to "," |
| DatasetConfigs.DatasetNamesDistinct | backend/dataset_config.py:24-69 | the dataset names in dict order are distinct and are exactly the keys of the table |
| Resolver.FunctionMapShape | backend/services/resolver.py:22-43 | the resolver serves exactly the configured datasets, with three distinct functions each, all of them configured AI functions |
| Resolver.CachedResult | backend/services/resolver.py:46-62 | a missing table is an error; otherwise the entry is present exactly when the id has a row, and it is that row |
| Resolver.StoreResult | backend/services/resolver.py:64-77 | an upsert replaces only the id's entry in the named table and leaves every other table and entry as it was |
| Resolver.StoreThenFetch | backend/services/resolver.py:64-77 | reading an id right after storing it returns the stored entry |
| Resolver.Context | backend/services/resolver.py:109-120 | a decoded blob is the context itself, an undecodable blob is a MalformedJson error, and no blob gives the fallback dict |
| Resolver.FallbackFields | backend/services/resolver.py:112-120 | the fallback dict holds key, title and theme; category and subtheme are added only when those columns are configured |
| Resolver.InvalidNamesFirst | backend/services/resolver.py:90-94 | an unknown dataset or function fails with its error whatever the tables hold, with nothing written and nothing computed |
| Resolver.NotFoundBeforeCache | backend/services/resolver.py:103-106 | a missing raw record fails with "not found" even when the cache table holds an entry for the id |
| Resolver.CacheHit | backend/services/resolver.py:124-132 | without refresh, a cached entry is returned as source "cache" with its payload and created_at; there is no write and no compute call |
| Resolver.MissComputesAndStores | backend/services/resolver.py:134-151 | on a miss or a refresh, the computed payload is stored for the id alone and returned as source "computed" with the stored created_at; every other table and entry is unchanged |
| Resolver.ComputeFailureChangesNothing | backend/services/resolver.py:135-141 | a compute that raises gives ComputeFailed and leaves the tables unchanged |
| Resolver.ComputeThenHit | backend/services/resolver.py:124-151 | after a successful resolve, resolving again without refresh is a cache hit that returns the same payload and created_at |
| Resolver.FunctionResolver.Resolve | backend/services/resolver.py:80-151 | the result and the new tables are those of the resolve specification, and the compute log grows by exactly the one call that specification makes, if any |
| Resolver.CollectResultsMeaning | backend/services/resolver.py:166-168 | the lookups succeed exactly when every function's table exists; the keys are the functions and each value is the cached entry or None; otherwise the error is the first missing table |
| Resolver.AllResultsMeaning | backend/services/resolver.py:153-170 | an unknown dataset is an error; otherwise there is one key per served function, each holding its cached entry or None |
| Resolver.FunctionResolver.GetAllResults | backend/services/resolver.py:153-170 | the result is the all-results specification over the current tables, and nothing is written |
| Resolver.Targets | backend/services/resolver.py:186-189 | a given function names one table; no function names every served function's table, in order |
| Resolver.TargetsDistinct | backend/services/resolver.py:186 | the tables to clear are distinct |
| Resolver.KeyFilter | backend/services/resolver.py:191-196 | an empty or absent id deletes all rows, and any other id deletes that id's rows |
| Resolver.ClearKeys | backend/services/resolver.py:188-198 | clearing keeps the set of tables |
| Resolver.ClearUntouched | backend/services/resolver.py:188-198 | tables that are not cleared are unchanged |
| Resolver.ClearEmpties | backend/services/resolver.py:191-196 | after clearing, each cleared table is empty (no id) or has no row for the id |
| Resolver.ClearCounts | backend/services/resolver.py:184-200 | the count returned is the number of rows removed from the cleared tables |
| Resolver.ClearNothing | backend/services/resolver.py:184-200 | clearing empty tables returns 0 |
| Resolver.ClearInvalidDataset | backend/services/resolver.py:179-180 | an unknown dataset fails and changes nothing |
| Resolver.FunctionResolver.ClearCache | backend/services/resolver.py:172-200 | the result and the new tables are those of the clear specification |
| BulkProcess.Chunked | backend/cli_tool/bulk_process.py:21-26 | a size of 0 or less is an error; otherwise the chunks concatenate back to the input, and every chunk but the last has exactly `size` ids |
| BulkProcess.LoadSpec | backend/cli_tool/bulk_process.py:40-55 | a missing or undecodable file is ignored and a non-dict raises; the saved ids are adopted only when dataset, function and refresh flag all match, and an id value `set()` cannot take raises |
| BulkProcess.IdsIn | backend/cli_tool/bulk_process.py:53 | `set()` of the saved ids: None, a bool or an int is not iterable; a string gives its characters, a dict its keys, a list exactly its string items; a list holding a list or dict is unhashable, naming the first such item's type |
| BulkProcess.IdsInStrList | backend/cli_tool/bulk_process.py:53-66 | a saved list of id strings gives back exactly those ids |
| BulkProcess.SaveThenLoad | backend/cli_tool/bulk_process.py:40-70 | loading what `save` wrote, under the same configuration, gives back the processed set |
| BulkProcess.SavedSorted | backend/cli_tool/bulk_process.py:66 | the saved id list is strictly sorted |
| BulkProcess.OtherRunIgnored | backend/cli_tool/bulk_process.py:48-55 | a file saved for a different dataset, function or refresh flag is ignored |
| BulkProcess.CacheManager.Load | backend/cli_tool/bulk_process.py:40-55 | `processed` becomes the adopted ids, or stays as it was when the file is ignored or fails to load |
| BulkProcess.CacheManager.Mark | backend/cli_tool/bulk_process.py:57-58 | the id is added and nothing else changes, so marking twice is the same as marking once |
| BulkProcess.CacheManager.Save | backend/cli_tool/bulk_process.py:60-70 | the file then holds the tagged document with the sorted processed ids |
| BulkProcess.CacheManager.Clear | backend/cli_tool/bulk_process.py:72-74 | the file is then absent |
| BulkProcess.Candidates | backend/cli_tool/bulk_process.py:127-133 | with refresh, the candidates are all ids; otherwise they are exactly the ids with no stored result (order: CandidatesAppend) |
| BulkProcess.NotIn | backend/cli_tool/bulk_process.py:135 | the pending ids are exactly the members of the candidates not yet processed (order: NotInAppend) |
| BulkProcess.NotInAppend | backend/cli_tool/bulk_process.py:133-135 | filtering distributes over concatenation; with `NotInOne` (a single id is kept exactly when it is not in the set) this makes the pending list the order-preserving filter of the candidates |
| BulkProcess.CandidatesAppend | backend/cli_tool/bulk_process.py:127-133 | the candidates of a concatenation are those of each part, in the same order |
| BulkProcess.NotInSorted | backend/cli_tool/bulk_process.py:133-135 | filtering a strictly sorted id list keeps it strictly sorted |
| BulkProcess.ProgressAccounts | backend/cli_tool/bulk_process.py:136-138 | the initial progress plus the number of pending ids equals the number of ids |
| BulkProcess.PlanAccounts | backend/cli_tool/bulk_process.py:117-138 | the pending ids come in ascending order, and with the initial progress they account for every raw record |
| BulkProcess.FailedMembers | backend/cli_tool/bulk_process.py:165-168 | the failures are exactly the ids whose processing failed |
| BulkProcess.FailingRun | backend/cli_tool/bulk_process.py:155-168 | when every resolve fails without writing, the run fails on every id and leaves every table as it was |
| BulkProcess.FailedEmpty | backend/cli_tool/bulk_process.py:177-181 | there are no failures exactly when every id succeeded |
| BulkProcess.SucceededAppend | backend/cli_tool/bulk_process.py:155-170 | the ids marked over two runs of chunks are the union of the ids marked in each |
| BulkProcess.ResolveEachAppend | backend/cli_tool/bulk_process.py:155-164 | resolving the ids chunk by chunk is the same as resolving them all in order |
| BulkProcess.ProcessSingle | backend/cli_tool/bulk_process.py:77-97 | the result is whether the resolve succeeded, and the tables are the ones the resolve leaves |
| BulkProcess.SlowEnrichmentNeverResolves | backend/cli_tool/bulk_process.py:108-111 | `slow_enrichment` passes the configuration check, yet resolving it always fails with "invalid function" and changes nothing |
| BulkProcess.SlowEnrichmentRunFails | backend/cli_tool/bulk_process.py:155-168 | a run of `slow_enrichment` fails every id and leaves the tables unchanged |
| BulkProcess.RunBulkProcess | backend/cli_tool/bulk_process.py:100-181 | the checks, in order: configuration, function name, raw ids, progress file, stored results. No records and nothing to do end early, the latter clearing a non-empty progress file. Otherwise every pending id is resolved in order, successes are marked and failures listed. The file is cleared when nothing failed and holds the saved progress otherwise, also when chunking fails |
| BulkProcess.RunChunks | backend/cli_tool/bulk_process.py:153-173 | after the chunk loop, the failures are the failed ids and the processed set has gained the successful ones; the file holds the saved progress |
| BatchUtils.KeyFieldsAreConfigured | backend/utils/batch_utils.py:51-59 | the processor accepts exactly the four configured datasets |
| BatchUtils.Described | backend/utils/batch_utils.py:71-76 | listed ids that have no raw row are dropped; the others keep their description |
| BatchUtils.Uncomputed | backend/utils/batch_utils.py:79-87 | the items kept are exactly those with no row in the function's table |
| BatchUtils.WorkSkipsComputed | backend/utils/batch_utils.py:63-87 | every work item has a raw row, is listed when a list is given, and has no stored result unless recomputing is forced |
| BatchUtils.NothingToDo | backend/utils/batch_utils.py:89-96 | an empty work list reports "no items" and writes nothing |
| BatchUtils.RunBatch | backend/utils/batch_utils.py:159-192 | processed = successful + failed = the batch length, with one error per failure |
| BatchUtils.RunBatchPayloads | backend/utils/batch_utils.py:168-185 | for distinct ids, each computed item's payload is upserted under its id, and the other rows are kept |
| BatchUtils.RunBatchSuccesses | backend/utils/batch_utils.py:168-192 | for distinct ids, the success count is the number of items whose compute returned a payload |
| BatchUtils.RunBatchNoTable | backend/utils/batch_utils.py:180-190 | without the result table every item fails and the tables are unchanged |
| BatchUtils.RunChunksSequential | backend/utils/batch_utils.py:110-132 | merging chunk tallies gives the counts and tables of processing every item in order; at most ten errors per chunk are kept, and each belongs to a failure |
| BatchUtils.NoWorkers | backend/utils/batch_utils.py:89-110 | a non-empty work list with a non-positive worker count fails when the thread pool is created, and nothing is written |
| BatchUtils.ComputeTotals | backend/utils/batch_utils.py:98-148 | with a positive worker count and batch size, total = processed = successful + failed = the work-list length, and the tables are those of processing the work list in order |
| BatchUtils.BatchProcessor.WorkList | backend/utils/batch_utils.py:58-87 | the work list is the one the work specification gives for the current tables |
| BatchUtils.BatchProcessor.ProcessBatch | backend/utils/batch_utils.py:150-197 | the tally and the new tables are those of the batch specification |
| BatchUtils.BatchProcessor.RunAll | backend/utils/batch_utils.py:110-140 | the merged tally and the new tables are those of the chunks run one after another |
| BatchUtils.BatchProcessor.BatchComputeAiFunction | backend/utils/batch_utils.py:28-148 | the result and the new tables are those of the compute specification: an unknown dataset fails, an empty work list reports "no items", a non-positive worker count then raises as the thread pool does, and a zero batch size raises as `range` does |
| BatchUtils.SetTaxonomy | backend/utils/batch_utils.py:242-247 | only the id's `nfr_taxonomy` changes, and only if the id has a row |
| BatchUtils.ReplaceTokensEffect | backend/utils/batch_utils.py:249-262 | the id's token rows become the non-empty pieces of the normalised string, in order; other ids' rows are kept |
| BatchUtils.UpdateOneEffect | backend/utils/batch_utils.py:235-264 | with both tables present an update succeeds: the record holds the normalised string, the id's token rows are its parsed tokens, and other tables are unchanged |
| BatchUtils.AbsentRecordCounted | backend/utils/batch_utils.py:242-264 | an id with no raw row is still counted as updated, and its raw table is unchanged |
| BatchUtils.UpdateNoRawTable | backend/utils/batch_utils.py:242-269 | without the raw table an update fails and changes nothing |
| BatchUtils.UpdateAll | backend/utils/batch_utils.py:235-269 | updated + failed = the number of updates, with one error per failure |
| BatchUtils.BatchProcessor.BatchUpdateTaxonomy | backend/utils/batch_utils.py:199-272 | an unknown dataset fails and changes nothing; otherwise the report and the tables are those of applying the updates in order |
| BatchUtils.CleanTargets | backend/utils/batch_utils.py:308-322 | the raw table comes first; with cascade it is followed by the four function tables and the taxonomy map |
| BatchUtils.AiFunctionsDistinct | backend/utils/batch_utils.py:312-316 | the four function names are distinct |
| BatchUtils.DeleteAll | backend/utils/batch_utils.py:324-335 | deleted + failed = the number of ids, with one error per failure |
| BatchUtils.DeleteOneEffect | backend/utils/batch_utils.py:324-330 | with every table present, the id leaves each cleaned table, with cascade the derived ones too, and no other table changes |
| BatchUtils.BatchProcessor.BatchDelete | backend/utils/batch_utils.py:274-338 | an unknown dataset fails and changes nothing; otherwise the report and the tables are those of deleting the ids in order |
| BatchUtils.BatchProcessor.GetBatchStatus | backend/utils/batch_utils.py:452-506 | total is the raw row count; each function's computed is its table's row count, or 0 when the table is missing, and pending = total - computed |
| Taxonomy.ParseTaxonomy | backend/utils/taxonomy.py:29-41 | "" parses to [], and no token is empty or has surrounding blanks |
| Taxonomy.ParseJoin | backend/utils/taxonomy.py:38-41 | joining clean tokens with '\|' and parsing the result gives them back |
| Taxonomy.NormalizeTaxonomy | backend/utils/taxonomy.py:4-27 | the result is the normal form of the input; None and "" give "" |
| Taxonomy.NormalizedTokens | backend/utils/taxonomy.py:17-27 | the normal form splits into distinct, non-empty, stripped tokens: every case-mapped input token once, in first-occurrence order |
| Taxonomy.StrippedTokens | backend/utils/taxonomy.py:17 | the kept tokens are non-empty and carry no surrounding blanks, and none holds a '\|' when the pieces hold none |
| Taxonomy.UniqueTokens | backend/utils/taxonomy.py:19-25 | the loop keeps each token's first occurrence, in order: the result is duplicate-free and holds the same tokens |
| Taxonomy.NormalizeIdempotent | backend/utils/taxonomy.py:4-27 | normalising a normalised string changes nothing, given an idempotent case mapping |
| Taxonomy.ValidateTaxonomy | backend/utils/taxonomy.py:43-66 | "" is valid; otherwise the input is valid exactly when it has tokens and, given a non-empty valid set, all of them are in it; the message names the invalid tokens |
| Taxonomy.MergeTaxonomies | backend/utils/taxonomy.py:68-82 | the result is the merge specification of the inputs |
| Taxonomy.MergeDedupes | backend/utils/taxonomy.py:77-82 | the merge is the '\|'-join of the deduplicated, case-mapped tokens of all inputs |
| Taxonomy.MergeDuplicateFree | backend/utils/taxonomy.py:77-82 | the tokens of a merge are distinct and clean |
| Taxonomy.CompareTaxonomies | backend/utils/taxonomy.py:84-101 | common, only_in_first and only_in_second are the intersection and the two differences of the token sets; they are pairwise disjoint and their union is all_unique |
| CsvIngest.RequiredConfigured | backend/utils/csv_ingest.py:24-32 | every configured dataset requires its key, title, theme and subtheme columns, with the key first |
| CsvIngest.ValidateRow | backend/utils/csv_ingest.py:34-48 | a row is valid exactly when every required field is present and non-empty; otherwise the message names the first missing field |
| CsvIngest.Prepare | backend/utils/csv_ingest.py:74-98 | every row is either prepared for the insert or leaves one error |
| CsvIngest.PreparedValid | backend/utils/csv_ingest.py:74-98 | every prepared row comes from a row that validates, keyed by its key column |
| CsvIngest.PrepareErrors | backend/utils/csv_ingest.py:74-79 | the number of errors is the number of invalid rows |
| CsvIngest.InsertOrIgnore | backend/utils/csv_ingest.py:104-109 | existing rows are kept unchanged, and the keys of the batch are added |
| CsvIngest.FirstOccurrenceWins | backend/utils/csv_ingest.py:104-109 | for a new key, the first row carrying it is the one stored |
| CsvIngest.BatchEffect | backend/utils/csv_ingest.py:63-118 | one error per invalid row, plus one if the insert fails, in which case nothing changes; a successful insert counts every valid row, keeps existing rows and touches no other table |
| CsvIngest.DuplicateCountedAndIgnored | backend/utils/csv_ingest.py:104-112 | a valid row whose key is already stored counts as successful and leaves the table unchanged |
| CsvIngest.CsvIngester.ValidateBatch | backend/utils/csv_ingest.py:74-98 | the loop prepares exactly the valid rows and logs one error per invalid row, and the failure count is the number of errors |
| CsvIngest.CsvIngester.ProcessBatch | backend/utils/csv_ingest.py:63-118 | the counts and the new tables are those of the batch specification |
| CsvIngest.IngestBatches | backend/utils/csv_ingest.py:136-151 | the batches are full except the last, which holds the remainder, and together they are the rows in order |
| CsvIngest.IngestAccounts | backend/utils/csv_ingest.py:120-162 | an unknown dataset or a missing file fails and writes nothing; otherwise total = successful + failed = the file's row count, and at most 100 errors are reported |
| CsvIngest.CsvIngester.RunRows | backend/utils/csv_ingest.py:130-151 | the batching loop leaves the totals and tables of running the fixed-size batches in order |
| CsvIngest.CsvIngester.IngestDataset | backend/utils/csv_ingest.py:120-162 | the report and the new tables are those of the ingest specification |
| CsvIngest.IngestAllEntries | backend/utils/csv_ingest.py:164-181 | there is one entry per dataset; it fails exactly when the dataset's file is missing, and then it carries the error and zero counts |
| CsvIngest.CsvIngester.IngestAll | backend/utils/csv_ingest.py:164-181 | the entries and the new tables are those of ingesting the datasets in order |
| BulkExport.HydrateBlobWins | backend/cli_tool/bulk_export.py:28-51 | a dict blob is merged key by key, in its own order, and its values win over every fallback column |
| BulkExport.HydrateRawData | backend/cli_tool/bulk_export.py:33-36 | a non-dict value, or undecodable text, is stored under "raw_data" as the first key |
| BulkExport.HydrateFallbacks | backend/cli_tool/bulk_export.py:38-51 | the record holds the blob's fields and every fallback field; a field the blob lacks takes the first fallback that names it, with None becoming "" |
| BulkExport.SerializeForCsv | backend/cli_tool/bulk_export.py:56-62 | None becomes "", a dict or list becomes its JSON text, and anything else becomes `str(value)` |
| BulkExport.FallbackCell | backend/cli_tool/bulk_export.py:40-62 | a fallback column serialises to its text, or "" for None |
| BulkExport.FieldRegistry.Register | backend/cli_tool/bulk_export.py:110-113 | a new field is appended once; `seen_fields` stays the set of `field_order`, which stays duplicate-free in first-registration order |
| BulkExport.FieldRegistry.RegisterAll | backend/cli_tool/bulk_export.py:134-135 | registering fields one by one keeps the registry valid and records them in order |
| BulkExport.HeaderShape | backend/cli_tool/bulk_export.py:107-139 | the header lists each field once, the key field first and in first-registration order; the AI function's column comes last when no record has that field |
| BulkExport.MissingCount | backend/cli_tool/bulk_export.py:160-165 | for distinct ids, the missing count is the number of ids with no stored result |
| BulkExport.ExportAccounts | backend/cli_tool/bulk_export.py:65-173 | an unknown dataset or function fails. An empty table writes only the fixed header and returns 0, 0. Otherwise there is one row per raw record, the header is duplicate-free with the key first, and missing is the number of records with no stored result |
| BulkExport.ExportSucceeds | backend/cli_tool/bulk_export.py:65-173 | for a configured dataset and function, the export succeeds exactly when the raw table exists and, when it has rows, the result table too; a missing raw table fails with its name |
| BulkExport.ExportCells | backend/cli_tool/bulk_export.py:153-165 | row i is the i-th record in key order; each field cell is the serialised record value, and the function's cell is the payload's JSON or "" |
| BulkExport.EmptyHeaderFields | backend/cli_tool/bulk_export.py:91-100 | an empty export's base fields are the key and the configured columns, deduplicated |
| BulkExport.RegisterSet | backend/cli_tool/bulk_export.py:117-128 | exactly the names that are set are registered, in order |
| BulkExport.RegisterLeading | backend/cli_tool/bulk_export.py:115-128 | the key field and the configured and generic columns are registered first, in that order |
| BulkExport.HydrateAll | backend/cli_tool/bulk_export.py:130-135 | each raw row is hydrated in key order, and its keys are registered in order |
| BulkExport.WriteRows | backend/cli_tool/bulk_export.py:147-173 | a missing result table is an error; otherwise the rows written and the missing count are those of the export specification |
| BulkExport.ExportAiData | backend/cli_tool/bulk_export.py:65-173 | the result is the export specification over the current tables |
| Dao.PresenceMeaning | backend/dao/base.py:45-54 | one boolean per configured function, in order, true exactly when that function's table has a row for the id; a missing table is the error of the first such table |
| Dao.ItemMeaning | backend/dao/base.py:23-43 | errors come in the order bad JSON, then a missing presence table, then a non-dict record. On success the key maps to the id, "record" to the record ({} when there is no blob), "ai_status" to the flags, and each dataset column to the record's value or else the column |
| Dao.ListPageMeaning | backend/dao/base.py:72-85 | the total is the table's row count, independent of offset and limit; the page holds at most `limit` items, and item i is the item of the (offset+i)-th key in key order |
| Dao.PagesConcat | backend/dao/base.py:77-84 | two consecutive pages together are the page of the combined limit |
| Dao.WindowElements | backend/dao/base.py:77-84 | `LIMIT ? OFFSET ?`: an offset past the end gives no rows, a negative limit means no limit, and the page is the slice from the offset |
| Dao.CollectMeaning | backend/dao/base.py:70-85 | the item list succeeds exactly when every item does, and otherwise fails with the first item's error |
| Dao.AiPayloadsMeaning | backend/dao/base.py:101-105 | one key per configured function, in order, holding its cached payload or null |
| Dao.DetailsMeaning | backend/dao/base.py:87-125 | a missing raw table is an error, and an unknown id gives None. The AI map has one key per configured function: its cached payload when the resolver serves it, null otherwise, so `slow_enrichment` is always null |
| Dao.ItemMatchesDetails | backend/dao/base.py:23-120 | an item and the detail view of the same row agree on every field except "ai_status", which only the item carries |
| Dao.ConfigNames | backend/dataset_config.py:24-69 | no configured column is named "ai_status" or "record", the category column is set, and the AI functions are distinct |
| Dao.BaseDAO.Open | backend/dao/base.py:13-20 | an unknown dataset name gives UnknownDataset; any other name gives a fresh DAO bound to that dataset's configuration |
| Dao.BaseDAO.GetAiPresence | backend/dao/base.py:45-54 | the result is the presence specification over the current tables |
| Dao.BaseDAO.RowToItem | backend/dao/base.py:23-43 | the result is the item specification for the row |
| Dao.BaseDAO.ListAll | backend/dao/base.py:72-85 | the result is the page specification over the current tables |
| Dao.BaseDAO.ReadItems | backend/dao/base.py:85 | the page's rows become items in order, stopping at the first failure |
| Dao.BaseDAO.GetDetails | backend/dao/base.py:87-125 | the result is the detail specification over the current tables |
| Store.DeleteRows | backend/services/resolver.py:191-198 | the table keeps its kind; without an id it is emptied and every row it held is counted |
| Store.DeleteCount | backend/services/resolver.py:191-198 | the reported count is exactly the number of rows the DELETE removed |
| Store.DeleteRemoves | backend/services/resolver.py:191-193 | after deleting an id no row for it is left, and deleting an absent id counts nothing |
| Store.DeleteKeeps | backend/services/resolver.py:191-193 | deleting an id keeps every row of every other id |

## Left out

- backend/db.py is not part of this model.
  - The APSW connection, the schema and FTS are left out.
  - Column names and key-field names are not modelled: every table is keyed
    by record id.
  - `cursor.rowcount` is taken to be the number of rows a DELETE removed.
    Whether the APSW cursor has that attribute is not modelled; if it does
    not, `clear_cache` (`Resolver.FunctionResolver.ClearCache`), the only
    reader of `rowcount`, would raise AttributeError instead.
  - `created_at` on raw rows is not modelled. A raw row holds the id (its
    map key), `title`, `category`, `theme`, `subtheme`, the raw-data blob,
    `description` and `nfrTaxonomy`.
- JSON encoding is not modelled.
  - Stored payloads are decoded values, so `json.loads(json.dumps(x))` is
    taken to give back `x`.
  - A raw-data blob is absent, decoded, or undecodable text. An empty
    `raw_data` is falsy, so every reader takes its no-blob branch; the
    model writes it as `NoBlob`, and undecodable text is non-empty.
  - The JSON text of a value in an export cell is an uninterpreted `dumps`
    parameter.
- The file system, the CSV reader and writer, tqdm progress bars, and
  printed messages are left out.
  - The progress file is a state: absent, unreadable, or holding a value.
    Its atomic rename is one assignment.
  - CSV files are a map from path to parsed rows.
  - The export's output is the rows it would write.
  - The export returns its output path as given, or the default path. The
    source returns `expanduser().resolve()` of it, an absolute path.
- Clocks are a `now` parameter. Compute functions are uninterpreted parameters that
  may raise.
  - One clock reading stamps every row that a batch or a run stores. The
    source reads the clock once per stored row: per item in
    `_process_batch`, and per `resolve` call. Rows stored later therefore
    get later `created_at` values there, and the same value here.
- Concurrency is modelled as sequential loops. This covers the thread pool
  and `as_completed` ordering in `batch_compute_ai_function`, and the
  async/await and `asyncio.sleep` in the CLI tools.
- Results that the source builds as Python dicts are maps here. The
  dicts' insertion order is lost for `get_all_results`, `get_batch_status`
  and `ingest_all`.
- Floats are left out:
  - elapsed time and rate in `batch_compute_ai_function`;
  - percentages in `get_batch_status` and in `get_statistics`;
  - `similarity` in `compare_taxonomies`.
- Taxonomy.NormalizeTaxonomy: `str.title` is an abstract case mapping passed
  as a parameter. Idempotence is proved for any case mapping that is
  idempotent and keeps tokens clean.
- BulkProcess.LoadSpec: inherits the gap of `BulkProcess.IdsIn` below.
- BulkProcess.IdsIn: a saved list whose items include None, bools or
  numbers keeps only its strings here. In the source those items stay in
  the processed set: they never match an id, and sorting them with string
  ids makes the first `save` raise TypeError.
- BatchUtils.WorkSpec: without ids, the raw rows are taken in ascending id
  order. The source's query has no `ORDER BY`, so it gets them in the
  database's order. The set of items and their count are the same.
- BatchUtils.RunBatch: one `now` stamps the `created_at` of every row
  the batch stores; the source reads the clock per item.
- BulkProcess.RunBulkProcess: one `now` stamps every result the run
  stores; the source's `resolve` reads the clock per call.
- BatchUtils.BatchProcessor.GetBatchStatus: does not state the percentage
  strings, which are floats.
- BatchUtils.BatchProcessor.BatchComputeAiFunction: the progress callback
  and the `status`, `elapsed_time` and `rate` fields are not modelled. An
  error raised while a chunk's future is collected is not modelled either:
  each chunk catches its own errors.
  One `now` stamps every row of every chunk; the source reads the clock
  per item.
- BulkExport.ExportAccounts: does not state the concrete column order of
  the header. `HeaderShape` states the order in general terms: key field
  first, each field in first-registration order, and the AI column last
  when new.
- Dao.DetailsMeaning: stated for any configuration with distinct AI
  functions that lists `slow_enrichment`. `Dao.ConfigNames` and
  `Resolver.FunctionMapShape` supply these requirements for every
  configured dataset.
- The following operations are left out:
  - `search_by_id`, because its `LIKE`/`LOWER` matching is string-pattern
    SQL;
  - `trigger_ai_function`, because it calls `resolve` with arguments that
    do not match its signature;
  - `get_statistics`, because it computes floats;
  - `batch_export`, because its output is built with pandas;
  - `get_ingestion_stats` and `stream_csv`, because they are file and SQL
    I/O.
  - None of these is among the modelled operations.
- The DAO subclasses, routers, models, app wiring and the mock AI
  generators are not part of this model.

## Findings

| source | as written | input that shows it | evidently intended | confidence | as-written member | corrected member |
|---|---|---|---|---|---|---|
| backend/cli_tool/bulk_process.py:85-97 | `_process_single` calls the async `resolve` without its required `user_id` argument and without `await`. Binding the call raises TypeError, and the handler turns that into False | any dataset, function and id: every pending id is recorded as a failure, none is marked, and the progress file is never cleared | await `resolve` with every argument, and report whether it succeeded | not executed | BulkProcess.ProcessSingleAsWritten, BulkProcess.AsWrittenEveryIdFails | BulkProcess.ProcessSingle |
