/**
 * CSV ingestion: validate each row, insert the valid rows of a batch with
 * INSERT OR IGNORE, split the file into batches with a final remainder, and
 * ingest every configured dataset.  The file system is a map from path to
 * the rows the CSV reader yields; a path it does not hold is a missing file.
 */
module CsvIngest {
  import opened Values
  import opened Seqs
  import opened Store
  import opened DatasetConfigs

  /** A row as the reader yields it: the header names in order, and the stripped cells. */
  datatype CsvRow = CsvRow(columns: seq<string>, cells: map<string, string>)

  /** `row.get(field, '')`; a field name that is None is never a key. */
  function Cell(row: CsvRow, field: Option<string>): string {
    if field.Some? && field.value in row.cells then row.cells[field.value] else ""
  }

  /** The row as the JSON object stored in `raw_data`. */
  function RowValue(row: CsvRow): Value {
    Obj(Dict(row.columns, map k | k in row.cells :: Str(row.cells[k])))
  }

  /** `_required_fields`: key, title, theme and subtheme columns, the last one possibly None. */
  function RequiredFields(config: DatasetConfig): seq<Option<string>> {
    [Some(config.keyField), Some(config.titleField), Some(config.themeField), config.subthemeField]
  }

  /** Every configured dataset names all four required columns, the key column first. */
  lemma RequiredConfigured(dataset: string)
    requires dataset in Configs
    ensures var fs := RequiredFields(Configs[dataset]);
            |fs| == 4 && fs[0] == Some(Configs[dataset].keyField) && forall f :: f in fs ==> f.Some? && f.value != ""
  {
  }

  /** How a field name prints in a message: `None` for a missing name. */
  function FieldName(f: Option<string>): string {
    if f.Some? then f.value else "None"
  }

  /** The field is a key of the row and its cell is not empty. */
  predicate Present(row: CsvRow, f: Option<string>) {
    f.Some? && f.value in row.cells && row.cells[f.value] != ""
  }

  /** The position of the first field that is not present, or the length when all are. */
  function FirstMissing(row: CsvRow, fields: seq<Option<string>>): (k: nat)
    ensures k <= |fields|
    ensures forall j :: 0 <= j < k ==> Present(row, fields[j])
    ensures k < |fields| ==> !Present(row, fields[k])
    decreases |fields|
  {
    if |fields| == 0 then 0
    else if !Present(row, fields[0]) then 0
    else 1 + FirstMissing(row, fields[1..])
  }

  datatype Validation = Validation(ok: bool, message: string)

  /**
   * `validate_row`: the first required field that is absent or empty is
   * named in the message; the key's own emptiness check comes after the
   * loop that has already checked it.
   */
  function ValidateRow(row: CsvRow, config: DatasetConfig): (r: Validation)
    ensures r.ok <==> forall f :: f in RequiredFields(config) ==> Present(row, f)
    ensures r.ok <==> r.message == ""
    ensures !r.ok ==>
              var fs := RequiredFields(config);
              var k := FirstMissing(row, fs);
              k < |fs| && r.message == "Missing required field: " + FieldName(fs[k])
  {
    var fs := RequiredFields(config);
    var k := FirstMissing(row, fs);
    if k < |fs| then
      Validation(false, "Missing required field: " + FieldName(fs[k]))
    else
      assert Present(row, fs[0]);
      if row.cells[config.keyField] == "" then Validation(false, "Empty " + config.keyField)
      else Validation(true, "")
  }

  /** A valid row, ready for the INSERT: its key and the raw row it becomes. */
  datatype Prepared = Prepared(key: string, row: RawRow)

  /** The columns a valid row fills; `category` only when the dataset has a category column. */
  function ToRawRow(row: CsvRow, config: DatasetConfig): RawRow {
    RawRow(
      title := Str(Cell(row, Some(config.titleField))),
      category := Str(if config.categoryField.Some? && config.categoryField.value != "" then Cell(row, config.categoryField) else ""),
      theme := Str(Cell(row, Some(config.themeField))),
      subtheme := Str(Cell(row, config.subthemeField)),
      rawData := Parsed(RowValue(row)))
  }

  /** The error logged for an invalid row: its key, or "unknown" when the row has no key column, then the message. */
  function ErrorLine(row: CsvRow, config: DatasetConfig, message: string): string {
    (if config.keyField in row.cells then row.cells[config.keyField] else "unknown") + ": " + message
  }

  /** The valid rows of a batch, prepared, and one error per invalid row, as `<key or 'unknown'>: <message>`. */
  datatype Preparation = Preparation(prepared: seq<Prepared>, errors: seq<string>)

  function Prepare(rows: seq<CsvRow>, config: DatasetConfig): (r: Preparation)
    ensures |r.prepared| + |r.errors| == |rows|
    decreases |rows|
  {
    if |rows| == 0 then Preparation([], [])
    else
      var before := Prepare(rows[..|rows| - 1], config);
      var row := rows[|rows| - 1];
      var v := ValidateRow(row, config);
      if v.ok then
        assert Present(row, RequiredFields(config)[0]);
        Preparation(before.prepared + [Prepared(row.cells[config.keyField], ToRawRow(row, config))], before.errors)
      else
        Preparation(before.prepared, before.errors + [ErrorLine(row, config, v.message)])
  }

  /** Every prepared row comes from a row of the batch that validates, keyed by its key column. */
  lemma {:induction false} PreparedValid(rows: seq<CsvRow>, config: DatasetConfig)
    ensures forall p :: p in Prepare(rows, config).prepared ==>
              exists row :: row in rows && ValidateRow(row, config).ok && config.keyField in row.cells &&
                p == Prepared(row.cells[config.keyField], ToRawRow(row, config))
    decreases |rows|
  {
    if |rows| > 0 {
      var init := rows[..|rows| - 1];
      PreparedValid(init, config);
      assert forall x :: x in init ==> x in rows;
    }
  }

  /** One more row: prepared when it validates, otherwise one more error. */
  lemma PrepareStep(rows: seq<CsvRow>, config: DatasetConfig, i: nat)
    requires i < |rows|
    ensures ValidateRow(rows[i], config).ok ==>
              && Present(rows[i], RequiredFields(config)[0])
              && Prepare(rows[..i + 1], config)
                 == Preparation(Prepare(rows[..i], config).prepared
                                  + [Prepared(rows[i].cells[config.keyField], ToRawRow(rows[i], config))],
                                Prepare(rows[..i], config).errors)
    ensures !ValidateRow(rows[i], config).ok ==>
              Prepare(rows[..i + 1], config)
              == Preparation(Prepare(rows[..i], config).prepared,
                             Prepare(rows[..i], config).errors
                               + [ErrorLine(rows[i], config, ValidateRow(rows[i], config).message)])
  {
    assert rows[..i + 1][..i] == rows[..i];
  }

  /** The number of rows that fail validation. */
  function Invalid(rows: seq<CsvRow>, config: DatasetConfig): nat
    decreases |rows|
  {
    if |rows| == 0 then 0
    else Invalid(rows[..|rows| - 1], config) + (if ValidateRow(rows[|rows| - 1], config).ok then 0 else 1)
  }

  /** Exactly the invalid rows leave an error. */
  lemma {:induction false} PrepareErrors(rows: seq<CsvRow>, config: DatasetConfig)
    ensures |Prepare(rows, config).errors| == Invalid(rows, config)
    decreases |rows|
  {
    if |rows| > 0 {
      PrepareErrors(rows[..|rows| - 1], config);
    }
  }

  /**
   * `INSERT OR IGNORE` of the prepared rows in order: a key already in the
   * table, or inserted earlier in the batch, keeps its row.
   */
  function InsertOrIgnore(existing: map<string, RawRow>, batch: seq<Prepared>): (r: map<string, RawRow>)
    ensures r.Keys == existing.Keys + set p | p in batch :: p.key
    ensures forall k :: k in existing ==> r[k] == existing[k]
    decreases |batch|
  {
    if |batch| == 0 then existing
    else
      var before := InsertOrIgnore(existing, batch[..|batch| - 1]);
      var p := batch[|batch| - 1];
      assert batch == batch[..|batch| - 1] + [p];
      if p.key in before then before else before[p.key := p.row]
  }

  /** A key new to the table gets the row of its first occurrence in the batch. */
  lemma {:induction false} FirstOccurrenceWins(existing: map<string, RawRow>, batch: seq<Prepared>, i: nat)
    requires i < |batch| && batch[i].key !in existing
    requires forall j :: 0 <= j < i ==> batch[j].key != batch[i].key
    ensures InsertOrIgnore(existing, batch)[batch[i].key] == batch[i].row
    decreases |batch|
  {
    var n := |batch| - 1;
    if i < n {
      FirstOccurrenceWins(existing, batch[..n], i);
    } else {
      var before := InsertOrIgnore(existing, batch[..n]);
      assert batch[i].key !in before by {
        forall j | 0 <= j < n ensures batch[..n][j].key != batch[i].key {
          assert batch[..n][j] == batch[j];
        }
      }
    }
  }

  /** The counts and errors of one `process_batch`. */
  datatype BatchCount = BatchCount(successful: nat, failed: nat, errors: seq<string>)

  datatype BatchRun = BatchRun(tables: Tables, count: BatchCount)

  /**
   * `process_batch` as a function of the tables: every row is counted once,
   * the valid ones as successful unless the INSERT fails, in which case they
   * all fail and one more error is recorded.
   */
  function BatchSpec(tables: Tables, rows: seq<CsvRow>, config: DatasetConfig): (r: BatchRun)
    ensures r.count.successful + r.count.failed == |rows|
  {
    var p := Prepare(rows, config);
    if p.prepared == [] then BatchRun(tables, BatchCount(0, |p.errors|, p.errors))
    else
      match RawRowsOf(tables, config.table)
      case Failure(e) =>
        BatchRun(tables, BatchCount(0, |p.errors| + |p.prepared|, p.errors + ["Batch insert error: " + Message(e)]))
      case Success(existing) =>
        BatchRun(tables[config.table := RawTable(InsertOrIgnore(existing, p.prepared))],
                 BatchCount(|p.prepared|, |p.errors|, p.errors))
  }

  /**
   * One error per invalid row, one more when the INSERT fails; a successful
   * INSERT keeps every existing row, adds the keys of the valid rows, and
   * touches no other table.
   */
  lemma BatchEffect(tables: Tables, rows: seq<CsvRow>, config: DatasetConfig)
    ensures var r := BatchSpec(tables, rows, config);
            var p := Prepare(rows, config);
            var insertFailed := p.prepared != [] && RawRowsOf(tables, config.table).Failure?;
            && |r.count.errors| == Invalid(rows, config) + (if insertFailed then 1 else 0)
            && (insertFailed ==> r.tables == tables && r.count.successful == 0)
            && (!insertFailed && p.prepared != [] ==>
                  && r.count.successful == |rows| - Invalid(rows, config)
                  && r.tables.Keys == tables.Keys
                  && (forall t :: t in tables && t != config.table ==> r.tables[t] == tables[t])
                  && r.tables[config.table].RawTable?
                  && (forall k :: k in tables[config.table].rows ==>
                        k in r.tables[config.table].rows &&
                        r.tables[config.table].rows[k] == tables[config.table].rows[k]))
  {
    PrepareErrors(rows, config);
  }

  /** A row whose key is already stored is counted as successful and leaves the stored row as it was. */
  lemma DuplicateCountedAndIgnored(tables: Tables, row: CsvRow, config: DatasetConfig)
    requires ValidateRow(row, config).ok
    requires config.table in tables && tables[config.table].RawTable?
    requires config.keyField in row.cells && row.cells[config.keyField] in tables[config.table].rows
    ensures var r := BatchSpec(tables, [row], config);
            && r.count == BatchCount(1, 0, [])
            && r.tables == tables
  {
    var p := Prepare([row], config);
    assert [row][..0] == [];
    assert p.prepared == [Prepared(row.cells[config.keyField], ToRawRow(row, config))];
    var existing := tables[config.table].rows;
    assert InsertOrIgnore(existing, p.prepared) == existing by {
      assert p.prepared[..0] == [];
    }
  }

  /**
   * The batch size in effect: the reader appends a row before comparing
   * `len(batch) >= batch_size`, so a size below one sends every row alone.
   */
  function EffectiveSize(batchSize: int): (s: nat)
    ensures s >= 1
    ensures batchSize >= 1 ==> s == batchSize
  {
    if batchSize >= 1 then batchSize else 1
  }

  /** The running totals of `ingest_dataset`. */
  datatype Totals = Totals(successful: nat, failed: nat, errors: seq<string>)

  datatype IngestRun = IngestRun(tables: Tables, totals: Totals)

  /** The batches processed in order, their counts added up and their errors concatenated. */
  function RunBatches(tables: Tables, batches: seq<seq<CsvRow>>, config: DatasetConfig): (r: IngestRun)
    ensures r.totals.successful + r.totals.failed == |Flatten(batches)|
    decreases |batches|
  {
    if |batches| == 0 then IngestRun(tables, Totals(0, 0, []))
    else
      var n := |batches| - 1;
      var before := RunBatches(tables, batches[..n], config);
      var b := BatchSpec(before.tables, batches[n], config);
      FlattenStep(batches, n);
      assert batches[..n + 1] == batches;
      IngestRun(b.tables, Totals(before.totals.successful + b.count.successful,
                                 before.totals.failed + b.count.failed,
                                 before.totals.errors + b.count.errors))
  }

  /** One more batch, processed on the tables the earlier ones left. */
  lemma RunBatchesSnoc(tables: Tables, done: seq<seq<CsvRow>>, batch: seq<CsvRow>, config: DatasetConfig)
    ensures var before := RunBatches(tables, done, config);
            var b := BatchSpec(before.tables, batch, config);
            RunBatches(tables, done + [batch], config)
              == IngestRun(b.tables, Totals(before.totals.successful + b.count.successful,
                                            before.totals.failed + b.count.failed,
                                            before.totals.errors + b.count.errors))
  {
    assert (done + [batch])[..|done|] == done;
  }

  /** `os.path.join(directory, name)` for a relative file name. */
  function PathJoin(directory: string, name: string): string {
    if directory == "" then name
    else if directory[|directory| - 1] == '/' then directory + name
    else directory + "/" + name
  }

  /** What `ingest_dataset` returns. */
  datatype IngestReport = IngestReport(dataset: string, successful: nat, failed: nat, total: nat, errors: seq<string>)

  datatype DatasetRun = DatasetRun(result: Result<IngestReport, Error>, tables: Tables)

  /**
   * `ingest_dataset` as a function of the tables and the files: the rows in
   * batches of the effective size, the last one holding the remainder.
   */
  function IngestSpec(tables: Tables, csvDir: string, files: map<string, seq<CsvRow>>, dataset: string,
                      batchSize: int): DatasetRun
  {
    match GetDatasetConfig(dataset)
    case Failure(e) => DatasetRun(Failure(e), tables)
    case Success(config) =>
      var path := PathJoin(csvDir, config.csvFilename);
      if path !in files then DatasetRun(Failure(CsvFileNotFound(path)), tables)
      else
        var run := RunBatches(tables, Chunks(files[path], EffectiveSize(batchSize)), config);
        var t := run.totals;
        DatasetRun(Success(IngestReport(dataset, t.successful, t.failed, t.successful + t.failed, Take(t.errors, 100))),
                   run.tables)
  }

  /**
   * Every row of the file lands in exactly one batch, so the total is the
   * number of rows, it is successful plus failed, and at most 100 errors
   * are reported; an unknown dataset or a missing file writes nothing.
   */
  lemma IngestAccounts(tables: Tables, csvDir: string, files: map<string, seq<CsvRow>>, dataset: string, batchSize: int)
    ensures var r := IngestSpec(tables, csvDir, files, dataset, batchSize);
            && (dataset !in DatasetNames ==> r == DatasetRun(Failure(UnknownDataset(dataset)), tables))
            && (dataset in DatasetNames ==>
                  var path := PathJoin(csvDir, Configs[dataset].csvFilename);
                  && (path !in files ==> r == DatasetRun(Failure(CsvFileNotFound(path)), tables))
                  && (path in files ==>
                        && r.result.Success?
                        && r.result.value.total == r.result.value.successful + r.result.value.failed == |files[path]|
                        && |r.result.value.errors| <= 100))
  {
    if dataset in DatasetNames {
      var path := PathJoin(csvDir, Configs[dataset].csvFilename);
      if path in files {
        ChunksFlatten(files[path], EffectiveSize(batchSize));
      }
    }
  }

  /** The batches are full except the last, which holds the remainder; none is empty. */
  lemma IngestBatches(rows: seq<CsvRow>, batchSize: int)
    ensures FixedSize(Chunks(rows, EffectiveSize(batchSize)), EffectiveSize(batchSize))
    ensures Flatten(Chunks(rows, EffectiveSize(batchSize))) == rows
  {
    ChunksShape(rows, EffectiveSize(batchSize));
    ChunksFlatten(rows, EffectiveSize(batchSize));
  }

  /** What `ingest_all` records for a dataset: its report, or the error with zero counts. */
  datatype IngestEntry =
    | Ingested(report: IngestReport)
    | IngestFailed(dataset: string, error: string, successful: nat, failed: nat)

  datatype AllRun = AllRun(results: map<string, IngestEntry>, tables: Tables)

  /** The entry for one dataset's outcome. */
  function EntryFor(name: string, r: Result<IngestReport, Error>): IngestEntry {
    if r.Success? then Ingested(r.value) else IngestFailed(name, Message(r.error), 0, 0)
  }

  /** A configured dataset's entry fails exactly when its file is missing; otherwise its total is the file's row count. */
  ghost predicate Reported(csvDir: string, files: map<string, seq<CsvRow>>, name: string, e: IngestEntry)
    requires name in DatasetNames
  {
    var path := PathJoin(csvDir, Configs[name].csvFilename);
    && (e.IngestFailed? <==> path !in files)
    && (e.IngestFailed? ==> e == IngestFailed(name, Message(CsvFileNotFound(path)), 0, 0))
    && (e.Ingested? ==> e.report.total == |files[path]|)
  }

  lemma EntryFacts(tables: Tables, csvDir: string, files: map<string, seq<CsvRow>>, name: string, batchSize: int)
    requires name in DatasetNames
    ensures Reported(csvDir, files, name, EntryFor(name, IngestSpec(tables, csvDir, files, name, batchSize).result))
  {
    IngestAccounts(tables, csvDir, files, name, batchSize);
  }

  /** The datasets ingested in order, each on the tables the previous ones left. */
  function IngestAllSpec(tables: Tables, csvDir: string, files: map<string, seq<CsvRow>>, names: seq<string>,
                         batchSize: int): (r: AllRun)
    ensures r.results.Keys == Elems(names)
    decreases |names|
  {
    if |names| == 0 then AllRun(map[], tables)
    else
      var n := |names| - 1;
      var before := IngestAllSpec(tables, csvDir, files, names[..n], batchSize);
      var d := IngestSpec(before.tables, csvDir, files, names[n], batchSize);
      assert names == names[..n] + [names[n]];
      AllRun(before.results[names[n] := EntryFor(names[n], d.result)], d.tables)
  }

  /**
   * `ingest_all` has one entry per configured dataset; a dataset fails
   * exactly when its file is missing, and then its entry names the path
   * and counts nothing.
   */
  lemma {:induction false} IngestAllEntries(tables: Tables, csvDir: string, files: map<string, seq<CsvRow>>,
                                            names: seq<string>, batchSize: int)
    requires forall x :: x in names ==> x in DatasetNames
    ensures AllReported(csvDir, files, names, IngestAllSpec(tables, csvDir, files, names, batchSize).results)
    decreases |names|
  {
    if |names| > 0 {
      var n := |names| - 1;
      var init, last := names[..n], names[n];
      InitLast(names);
      assert forall x :: x in init ==> x in names;
      IngestAllEntries(tables, csvDir, files, init, batchSize);
      var before := IngestAllSpec(tables, csvDir, files, init, batchSize);
      var e := EntryFor(last, IngestSpec(before.tables, csvDir, files, last, batchSize).result);
      EntryFacts(before.tables, csvDir, files, last, batchSize);
      IngestAllStep(tables, csvDir, files, names, batchSize);
      ReportedSnoc(csvDir, files, init, last, before.results, e);
    }
  }

  /** One more dataset: its entry is added to those of the datasets before it. */
  lemma IngestAllStep(tables: Tables, csvDir: string, files: map<string, seq<CsvRow>>, names: seq<string>, batchSize: int)
    requires |names| > 0
    ensures var before := IngestAllSpec(tables, csvDir, files, names[..|names| - 1], batchSize);
            var last := names[|names| - 1];
            IngestAllSpec(tables, csvDir, files, names, batchSize).results
              == before.results[last := EntryFor(last, IngestSpec(before.tables, csvDir, files, last, batchSize).result)]
  {
  }

  /** The entries of `names` are as `Reported` says. */
  ghost predicate AllReported(csvDir: string, files: map<string, seq<CsvRow>>, names: seq<string>,
                              results: map<string, IngestEntry>) {
    forall x :: x in names ==> x in DatasetNames && x in results && Reported(csvDir, files, x, results[x])
  }

  lemma ReportedSnoc(csvDir: string, files: map<string, seq<CsvRow>>, init: seq<string>, last: string,
                     results: map<string, IngestEntry>, e: IngestEntry)
    requires last in DatasetNames
    requires AllReported(csvDir, files, init, results) && Reported(csvDir, files, last, e)
    ensures AllReported(csvDir, files, init + [last], results[last := e])
  {
    forall x | x in init + [last]
      ensures x in DatasetNames && x in results[last := e] && Reported(csvDir, files, x, results[last := e][x])
    {
      if x != last {
        assert x in init;
      }
    }
  }

  /** `done` holds full batches of `size` rows and `batch` fewer, together the rows read so far. */
  ghost predicate Batching(done: seq<seq<CsvRow>>, batch: seq<CsvRow>, prefix: seq<CsvRow>, size: nat) {
    && Flatten(done) + batch == prefix
    && (forall j :: 0 <= j < |done| ==> |done[j]| == size)
    && |batch| < size
  }

  /** A row that leaves the batch short of `batch_size` is kept for later. */
  lemma KeepRow(done: seq<seq<CsvRow>>, batch: seq<CsvRow>, prefix: seq<CsvRow>, row: CsvRow, size: nat, batchSize: int)
    requires size == EffectiveSize(batchSize)
    requires Batching(done, batch, prefix, size) && |batch| + 1 < batchSize
    ensures Batching(done, batch + [row], prefix + [row], size)
  {
  }

  /** A row that brings the batch to `batch_size` closes it as a full chunk. */
  lemma CloseBatch(done: seq<seq<CsvRow>>, batch: seq<CsvRow>, prefix: seq<CsvRow>, row: CsvRow, size: nat, batchSize: int)
    requires size == EffectiveSize(batchSize)
    requires Batching(done, batch, prefix, size) && |batch| + 1 >= batchSize
    ensures Batching(done + [batch + [row]], [], prefix + [row], size)
  {
    FlattenOne(done, batch + [row]);
  }

  /** Full batches and a short remainder are the chunks of the rows they make up. */
  lemma LastBatch(done: seq<seq<CsvRow>>, batch: seq<CsvRow>, rows: seq<CsvRow>, size: nat)
    requires size > 0 && Flatten(done) + batch == rows && |batch| < size
    requires forall j :: 0 <= j < |done| ==> |done[j]| == size
    ensures Chunks(rows, size) == done + (if |batch| > 0 then [batch] else [])
  {
    ChunksAfterFull(done, batch, size);
    if |batch| == 0 {
      assert batch == [];
    }
  }

  /** The ingester over the shared database and a CSV directory. */
  class CsvIngester {
    const db: Database
    const csvDir: string

    constructor (db: Database, csvDir: string := "csv_data")
      ensures this.db == db && this.csvDir == csvDir
    {
      this.db := db;
      this.csvDir := csvDir;
    }

    /** The validation loop of `process_batch`: the valid rows prepared, and one error per invalid row. */
    static method ValidateBatch(rows: seq<CsvRow>, config: DatasetConfig)
      returns (batchData: seq<Prepared>, errors: seq<string>, failed: nat)
      ensures Prepare(rows, config) == Preparation(batchData, errors)
      ensures failed == |errors|
    {
      failed := 0;
      errors := [];
      batchData := [];
      for i := 0 to |rows|
        invariant Prepare(rows[..i], config) == Preparation(batchData, errors)
        invariant failed == |errors|
      {
        PrepareStep(rows, config, i);
        var v := ValidateRow(rows[i], config);
        if !v.ok {
          failed := failed + 1;
          errors := errors + [ErrorLine(rows[i], config, v.message)];
        } else {
          batchData := batchData + [Prepared(rows[i].cells[config.keyField], ToRawRow(rows[i], config))];
        }
      }
      assert rows[..|rows|] == rows;
    }

    /** `process_batch`. */
    method ProcessBatch(rows: seq<CsvRow>, config: DatasetConfig) returns (count: BatchCount)
      modifies db
      ensures BatchRun(db.tables, count) == BatchSpec(old(db.tables), rows, config)
    {
      var batchData, errors, failed := ValidateBatch(rows, config);
      var successful := 0;
      if batchData != [] {
        var existing := RawRowsOf(db.tables, config.table);
        if existing.Failure? {
          failed := failed + |batchData|;
          errors := errors + ["Batch insert error: " + Message(existing.error)];
        } else {
          db.tables := db.tables[config.table := RawTable(InsertOrIgnore(existing.value, batchData))];
          successful := |batchData|;
        }
      }
      count := BatchCount(successful, failed, errors);
    }

    /**
     * `ingest_dataset`; `files` stands for the file system and the CSV
     * reader.  Rows are collected until the batch is full, and what is left
     * at the end is processed as one more batch.
     */
    method IngestDataset(dataset: string, batchSize: int, files: map<string, seq<CsvRow>>)
      returns (r: Result<IngestReport, Error>)
      modifies db
      ensures var s := IngestSpec(old(db.tables), csvDir, files, dataset, batchSize);
              r == s.result && db.tables == s.tables
    {
      var c := GetDatasetConfig(dataset);
      if c.Failure? {
        return Failure(c.error);
      }
      var config := c.value;
      var path := PathJoin(csvDir, config.csvFilename);
      if path !in files {
        return Failure(CsvFileNotFound(path));
      }
      var totals := RunRows(files[path], batchSize, config);
      r := Success(IngestReport(dataset, totals.successful, totals.failed, totals.successful + totals.failed,
                                Take(totals.errors, 100)));
    }

    /**
     * The batching loop of `ingest_dataset`: rows are collected until the
     * batch is full, and what is left at the end is processed as one more
     * batch.
     */
    method RunRows(rows: seq<CsvRow>, batchSize: int, config: DatasetConfig) returns (totals: Totals)
      modifies db
      ensures IngestRun(db.tables, totals) == RunBatches(old(db.tables), Chunks(rows, EffectiveSize(batchSize)), config)
    {
      ghost var size := EffectiveSize(batchSize);
      ghost var tables0 := db.tables;
      totals := Totals(0, 0, []);
      var batch: seq<CsvRow> := [];
      ghost var done: seq<seq<CsvRow>> := [];
      for i := 0 to |rows|
        invariant Batching(done, batch, rows[..i], size)
        invariant IngestRun(db.tables, totals) == RunBatches(tables0, done, config)
      {
        assert rows[..i + 1] == rows[..i] + [rows[i]];
        batch, totals, done := CollectRow(rows[i], batch, batchSize, config, tables0, done, rows[..i], totals);
      }
      assert rows[..|rows|] == rows;
      LastBatch(done, batch, rows, size);
      if |batch| > 0 {
        totals := AddBatch(batch, config, tables0, done, totals);
      } else {
        assert Chunks(rows, size) == done;
      }
    }

    /** One row of the reader: appended to the batch, which is processed once it reaches `batch_size`. */
    method CollectRow(row: CsvRow, batch: seq<CsvRow>, batchSize: int, config: DatasetConfig, ghost tables0: Tables,
                      ghost done: seq<seq<CsvRow>>, ghost prefix: seq<CsvRow>, totals: Totals)
      returns (batch': seq<CsvRow>, totals': Totals, ghost done': seq<seq<CsvRow>>)
      requires Batching(done, batch, prefix, EffectiveSize(batchSize))
      requires IngestRun(db.tables, totals) == RunBatches(tables0, done, config)
      modifies db
      ensures Batching(done', batch', prefix + [row], EffectiveSize(batchSize))
      ensures IngestRun(db.tables, totals') == RunBatches(tables0, done', config)
    {
      if |batch| + 1 >= batchSize {
        CloseBatch(done, batch, prefix, row, EffectiveSize(batchSize), batchSize);
        totals' := AddBatch(batch + [row], config, tables0, done, totals);
        done' := done + [batch + [row]];
        batch' := [];
      } else {
        KeepRow(done, batch, prefix, row, EffectiveSize(batchSize), batchSize);
        batch' := batch + [row];
        totals' := totals;
        done' := done;
      }
    }

    /** Process one batch and add its counts and errors to the running totals. */
    method AddBatch(batch: seq<CsvRow>, config: DatasetConfig, ghost tables0: Tables, ghost done: seq<seq<CsvRow>>,
                    totals: Totals) returns (next: Totals)
      requires IngestRun(db.tables, totals) == RunBatches(tables0, done, config)
      modifies db
      ensures IngestRun(db.tables, next) == RunBatches(tables0, done + [batch], config)
    {
      RunBatchesSnoc(tables0, done, batch, config);
      var count := ProcessBatch(batch, config);
      next := Totals(totals.successful + count.successful, totals.failed + count.failed, totals.errors + count.errors);
    }

    /** `ingest_all`: every configured dataset in order, a failure recorded in its entry. */
    method IngestAll(batchSize: int, files: map<string, seq<CsvRow>>) returns (results: map<string, IngestEntry>)
      modifies db
      ensures var s := IngestAllSpec(old(db.tables), csvDir, files, DatasetNames, batchSize);
              results == s.results && db.tables == s.tables
    {
      results := map[];
      for i := 0 to |DatasetNames|
        invariant AllRun(results, db.tables) == IngestAllSpec(old(db.tables), csvDir, files, DatasetNames[..i], batchSize)
      {
        assert DatasetNames[..i + 1][..i] == DatasetNames[..i];
        var name := DatasetNames[i];
        var r := IngestDataset(name, batchSize, files);
        if r.Success? {
          results := results[name := Ingested(r.value)];
        } else {
          results := results[name := IngestFailed(name, Message(r.error), 0, 0)];
        }
      }
      assert DatasetNames[..|DatasetNames|] == DatasetNames;
    }
  }
}
