/**
 * The batch processor: compute an AI function for many records chunk by
 * chunk, rewrite NFR taxonomies, delete records with their derived rows, and
 * count what has been computed.  The thread pool is a sequential fold over
 * the chunks; every tally it merges is a sum, so the order does not matter.
 */
module BatchUtils {
  import opened Values
  import opened Seqs
  import opened Strings
  import opened Store
  import opened DatasetConfigs
  import opened Resolver
  import opened Taxonomy

  /** The datasets the processor knows, with their key columns. */
  const KeyFields: map<string, string> := map[
    "controls" := "control_id",
    "external_loss" := "ext_loss_id",
    "internal_loss" := "loss_id",
    "issues" := "issue_id"]

  /** The processor accepts exactly the configured datasets. */
  lemma KeyFieldsAreConfigured(dataset: string)
    ensures dataset in KeyFields <==> dataset in DatasetNames
  {
    ConfigsInvariant(dataset);
  }

  /** One unit of work: an id and the `description` column of its raw row. */
  datatype Item = Item(id: string, description: Value)

  /**
   * The ids that have a raw row, in the given order, each with its
   * description (an id without a row is dropped).
   */
  function Described(rows: map<string, RawRow>, ids: seq<string>): (r: seq<Item>)
    ensures forall it :: it in r ==> it.id in ids && it.id in rows && it.description == rows[it.id].description
    ensures forall i :: 0 <= i < |ids| && ids[i] in rows ==> Item(ids[i], rows[ids[i]].description) in r
    decreases |ids|
  {
    if |ids| == 0 then []
    else
      var init := Described(rows, ids[..|ids| - 1]);
      var id := ids[|ids| - 1];
      assert forall i :: 0 <= i < |ids| - 1 ==> ids[..|ids| - 1][i] == ids[i];
      init + (if id in rows then [Item(id, rows[id].description)] else [])
  }

  /** The items whose id has no row in the function's table, in order. */
  function Uncomputed(t: Table, items: seq<Item>): (r: seq<Item>)
    ensures forall it :: it in r <==> it in items && !HasRow(t, it.id)
    decreases |items|
  {
    if |items| == 0 then []
    else
      var init := Uncomputed(t, items[..|items| - 1]);
      var it := items[|items| - 1];
      assert items == items[..|items| - 1] + [it];
      init + (if HasRow(t, it.id) then [] else [it])
  }

  /**
   * The work list: every raw row (taken in key order) or the listed ids that
   * have one, then, unless recomputing, those without a stored result.  A
   * query runs only when there is something to ask about, so a missing table
   * fails only then.
   */
  ghost function WorkSpec(tables: Tables, dataset: string, func: string, ids: Option<seq<string>>,
                          force: bool): Result<seq<Item>, Error>
  {
    var raw := RawRowsOf(tables, dataset + "_raw");
    if raw.Failure? && (ids.None? || ids.value != []) then Failure(raw.error)
    else
      var items := if raw.Failure? then [] else Described(raw.value, if ids.None? then Sorted(raw.value.Keys) else ids.value);
      var table := TableName(dataset, func);
      if force || items == [] then Success(items)
      else if table !in tables then Failure(NoSuchTable(table))
      else Success(Uncomputed(tables[table], items))
  }

  /** The counters of `_process_batch` and of the merged result. */
  datatype Tally = Tally(processed: nat, successful: nat, failed: nat, errors: seq<string>)

  const NoTally := Tally(0, 0, 0, [])

  /** The tables after some items, and their tally. */
  datatype BatchRun = BatchRun(tables: Tables, tally: Tally)

  /**
   * One item: compute its payload and upsert it with the clock reading.  It
   * fails with "id: message" when the compute function raises or the
   * result table is missing.
   */
  function StoreItem(tables: Tables, table: string, compute: (string, Value) -> Computation, it: Item,
                     now: string): (Tables, Option<string>)
  {
    match compute(it.id, it.description)
    case Raised(m) => (tables, Some(it.id + ": " + m))
    case Computed(p) =>
      match StoreResult(tables, table, it.id, Entry(p, now + "Z"))
      case Failure(e) => (tables, Some(it.id + ": " + Message(e)))
      case Success(t) => (t, None)
  }

  /** Counting one more item. */
  function Count1(t: Tally, err: Option<string>): Tally {
    if err.None? then t.(processed := t.processed + 1, successful := t.successful + 1)
    else t.(processed := t.processed + 1, failed := t.failed + 1, errors := t.errors + [err.value])
  }

  /**
   * `_process_batch` as a function of the tables: every item is processed,
   * each one either succeeds or fails, and every failure leaves one error.
   */
  function RunBatch(tables: Tables, table: string, compute: (string, Value) -> Computation, batch: seq<Item>,
                    now: string): (r: BatchRun)
    ensures r.tally.processed == |batch| == r.tally.successful + r.tally.failed
    ensures |r.tally.errors| == r.tally.failed
    decreases |batch|
  {
    if |batch| == 0 then BatchRun(tables, NoTally)
    else
      var before := RunBatch(tables, table, compute, batch[..|batch| - 1], now);
      var (t, err) := StoreItem(before.tables, table, compute, batch[|batch| - 1], now);
      BatchRun(t, Count1(before.tally, err))
  }

  /** The ids of the items whose payload the compute function returns. */
  function ComputedIds(compute: (string, Value) -> Computation, batch: seq<Item>): set<string>
    decreases |batch|
  {
    if |batch| == 0 then {}
    else
      var it := batch[|batch| - 1];
      ComputedIds(compute, batch[..|batch| - 1]) + (if compute(it.id, it.description).Computed? then {it.id} else {})
  }

  ghost predicate DistinctIds(batch: seq<Item>) {
    forall i, j :: 0 <= i < j < |batch| ==> batch[i].id != batch[j].id
  }

  /** One item against a present result table: a raising compute changes nothing, a payload is upserted. */
  lemma StoreItemEffect(tables: Tables, table: string, compute: (string, Value) -> Computation, it: Item, now: string)
    requires table in tables && tables[table].ResultTable?
    ensures var c := compute(it.id, it.description);
            var s := StoreItem(tables, table, compute, it, now);
            && (c.Raised? ==> s == (tables, Some(it.id + ": " + c.message)))
            && (c.Computed? ==>
                  s == (tables[table := ResultTable(tables[table].entries[it.id := Entry(c.payload, now + "Z")])], None))
  {
  }

  /**
   * With the result table present, a batch rewrites that table only, and
   * upserts exactly the ids it computes: every other row stays as it was.
   */
  lemma {:induction false} RunBatchKeys(tables: Tables, table: string, compute: (string, Value) -> Computation,
                                        batch: seq<Item>, now: string)
    requires table in tables && tables[table].ResultTable?
    ensures var r := RunBatch(tables, table, compute, batch, now);
            && table in r.tables && r.tables[table].ResultTable?
            && r.tables == tables[table := r.tables[table]]
            && r.tables[table].entries.Keys == tables[table].entries.Keys + ComputedIds(compute, batch)
            && (forall k :: k in tables[table].entries && k !in ComputedIds(compute, batch) ==>
                  r.tables[table].entries[k] == tables[table].entries[k])
    decreases |batch|
  {
    if |batch| > 0 {
      var n := |batch| - 1;
      RunBatchKeys(tables, table, compute, batch[..n], now);
      var before := RunBatch(tables, table, compute, batch[..n], now);
      StoreItemEffect(before.tables, table, compute, batch[n], now);
    }
  }

  /** The result table stays a result table. */
  lemma {:induction false} RunBatchTable(tables: Tables, table: string, compute: (string, Value) -> Computation,
                                         batch: seq<Item>, now: string)
    requires table in tables && tables[table].ResultTable?
    ensures var r := RunBatch(tables, table, compute, batch, now);
            table in r.tables && r.tables[table].ResultTable?
    decreases |batch|
  {
    if |batch| > 0 {
      var n := |batch| - 1;
      RunBatchTable(tables, table, compute, batch[..n], now);
      var before := RunBatch(tables, table, compute, batch[..n], now);
      StoreItemEffect(before.tables, table, compute, batch[n], now);
    }
  }

  /** The ids of a batch's first items are distinct when all its ids are. */
  lemma DistinctInit(batch: seq<Item>, n: nat)
    requires DistinctIds(batch) && n <= |batch|
    ensures DistinctIds(batch[..n])
  {
    assert forall i :: 0 <= i < n ==> batch[..n][i] == batch[i];
  }

  /** With distinct ids, each computed item's row holds its own payload, stamped with the clock reading. */
  lemma {:induction false} RunBatchPayloads(tables: Tables, table: string, compute: (string, Value) -> Computation,
                                            batch: seq<Item>, now: string)
    requires table in tables && tables[table].ResultTable?
    requires DistinctIds(batch)
    ensures var r := RunBatch(tables, table, compute, batch, now);
            && table in r.tables && r.tables[table].ResultTable?
            && forall i :: 0 <= i < |batch| && compute(batch[i].id, batch[i].description).Computed? ==>
                 && batch[i].id in r.tables[table].entries
                 && r.tables[table].entries[batch[i].id] ==
                      Entry(compute(batch[i].id, batch[i].description).payload, now + "Z")
    decreases |batch|
  {
    if |batch| > 0 {
      var n := |batch| - 1;
      var init := batch[..n];
      DistinctInit(batch, n);
      RunBatchPayloads(tables, table, compute, init, now);
      RunBatchKeys(tables, table, compute, init, now);
      var before := RunBatch(tables, table, compute, init, now);
      StoreItemEffect(before.tables, table, compute, batch[n], now);
      var r := RunBatch(tables, table, compute, batch, now);
      forall i | 0 <= i < |batch| && compute(batch[i].id, batch[i].description).Computed?
        ensures batch[i].id in r.tables[table].entries &&
                r.tables[table].entries[batch[i].id] == Entry(compute(batch[i].id, batch[i].description).payload, now + "Z")
      {
        if i < n {
          assert init[i] == batch[i];
          assert batch[i].id != batch[n].id;
        }
      }
    }
  }

  /** With distinct ids, a batch succeeds once per computed id. */
  lemma {:induction false} RunBatchSuccesses(tables: Tables, table: string, compute: (string, Value) -> Computation,
                                             batch: seq<Item>, now: string)
    requires table in tables && tables[table].ResultTable?
    requires DistinctIds(batch)
    ensures RunBatch(tables, table, compute, batch, now).tally.successful == |ComputedIds(compute, batch)|
    decreases |batch|
  {
    if |batch| > 0 {
      var n := |batch| - 1;
      var init := batch[..n];
      DistinctInit(batch, n);
      RunBatchSuccesses(tables, table, compute, init, now);
      RunBatchTable(tables, table, compute, init, now);
      var before := RunBatch(tables, table, compute, init, now);
      StoreItemEffect(before.tables, table, compute, batch[n], now);
      ComputedIdsCount(compute, batch);
    }
  }

  /** With distinct ids, each computed item adds one id. */
  lemma ComputedIdsCount(compute: (string, Value) -> Computation, batch: seq<Item>)
    requires DistinctIds(batch) && |batch| > 0
    ensures var n := |batch| - 1;
            |ComputedIds(compute, batch)| ==
              |ComputedIds(compute, batch[..n])| + (if compute(batch[n].id, batch[n].description).Computed? then 1 else 0)
  {
    var n := |batch| - 1;
    var init := batch[..n];
    forall i | 0 <= i < n ensures init[i].id != batch[n].id {
      assert init[i] == batch[i];
    }
    ComputedIdsFrom(compute, init);
    assert batch[n].id !in ComputedIds(compute, init);
  }

  /** Every computed id belongs to some item of the batch. */
  lemma {:induction false} ComputedIdsFrom(compute: (string, Value) -> Computation, batch: seq<Item>)
    ensures forall k :: k in ComputedIds(compute, batch) ==> exists i :: 0 <= i < |batch| && batch[i].id == k
    decreases |batch|
  {
    if |batch| > 0 {
      var n := |batch| - 1;
      ComputedIdsFrom(compute, batch[..n]);
      forall k | k in ComputedIds(compute, batch) ensures exists i :: 0 <= i < |batch| && batch[i].id == k {
        if k in ComputedIds(compute, batch[..n]) {
          var i :| 0 <= i < n && batch[..n][i].id == k;
          assert batch[i].id == k;
        } else {
          assert batch[n].id == k;
        }
      }
    }
  }

  /** Without the result table every item fails and nothing is written. */
  lemma {:induction false} RunBatchNoTable(tables: Tables, table: string, compute: (string, Value) -> Computation,
                                           batch: seq<Item>, now: string)
    requires table !in tables
    ensures var r := RunBatch(tables, table, compute, batch, now);
            r.tables == tables && r.tally.successful == 0 && r.tally.failed == |batch|
    decreases |batch|
  {
    if |batch| > 0 {
      RunBatchNoTable(tables, table, compute, batch[..|batch| - 1], now);
    }
  }

  /** Both tallies added up, every error kept. */
  function Sum(a: Tally, b: Tally): Tally {
    Tally(a.processed + b.processed, a.successful + b.successful, a.failed + b.failed, a.errors + b.errors)
  }

  lemma SumCount1(x: Tally, y: Tally, err: Option<string>)
    ensures Count1(Sum(x, y), err) == Sum(x, Count1(y, err))
  {
    if err.Some? {
      assert (x.errors + y.errors) + [err.value] == x.errors + (y.errors + [err.value]);
    }
  }

  /** One more item: the batch so far, then that item stored and counted. */
  lemma RunBatchSnoc(tables: Tables, table: string, compute: (string, Value) -> Computation,
                     xs: seq<Item>, x: Item, now: string)
    ensures var before := RunBatch(tables, table, compute, xs, now);
            var s := StoreItem(before.tables, table, compute, x, now);
            RunBatch(tables, table, compute, xs + [x], now) == BatchRun(s.0, Count1(before.tally, s.1))
  {
    assert (xs + [x])[..|xs + [x]| - 1] == xs;
  }

  /** Processing two lists one after the other is processing their concatenation. */
  lemma {:induction false} RunBatchAppend(tables: Tables, table: string, compute: (string, Value) -> Computation,
                                          a: seq<Item>, b: seq<Item>, now: string)
    ensures var ra := RunBatch(tables, table, compute, a, now);
            var rb := RunBatch(ra.tables, table, compute, b, now);
            RunBatch(tables, table, compute, a + b, now) == BatchRun(rb.tables, Sum(ra.tally, rb.tally))
    decreases |b|
  {
    var ra := RunBatch(tables, table, compute, a, now);
    if |b| == 0 {
      assert a + b == a;
      assert ra.tally.errors + [] == ra.tally.errors;
    } else {
      var b' := b[..|b| - 1];
      var last := b[|b| - 1];
      assert b == b' + [last];
      assert a + b == (a + b') + [last];
      RunBatchAppend(tables, table, compute, a, b', now);
      var rb' := RunBatch(ra.tables, table, compute, b', now);
      var s := StoreItem(rb'.tables, table, compute, last, now);
      RunBatchSnoc(tables, table, compute, a + b', last, now);
      RunBatchSnoc(ra.tables, table, compute, b', last, now);
      SumCount1(ra.tally, rb'.tally, s.1);
    }
  }

  /** Adding a chunk's tally to the total: the counts add up, at most ten of its errors are kept. */
  function Merge(total: Tally, chunk: Tally): Tally {
    Tally(total.processed + chunk.processed, total.successful + chunk.successful, total.failed + chunk.failed,
          total.errors + Take(chunk.errors, 10))
  }

  /** The chunks processed one after another, their tallies merged. */
  function RunChunks(tables: Tables, table: string, compute: (string, Value) -> Computation,
                     chunks: seq<seq<Item>>, now: string): BatchRun
    decreases |chunks|
  {
    if |chunks| == 0 then BatchRun(tables, NoTally)
    else
      var before := RunChunks(tables, table, compute, chunks[..|chunks| - 1], now);
      var last := RunBatch(before.tables, table, compute, chunks[|chunks| - 1], now);
      BatchRun(last.tables, Merge(before.tally, last.tally))
  }

  /**
   * Chunking changes nothing but the error list: the tables and the counts
   * are those of processing all items in order, and at most ten errors per
   * chunk, each of them a failure's, are reported.
   */
  lemma {:induction false} RunChunksSequential(tables: Tables, table: string, compute: (string, Value) -> Computation,
                                               chunks: seq<seq<Item>>, now: string)
    ensures var r := RunChunks(tables, table, compute, chunks, now);
            var s := RunBatch(tables, table, compute, Flatten(chunks), now);
            && r.tables == s.tables
            && r.tally.processed == s.tally.processed
            && r.tally.successful == s.tally.successful
            && r.tally.failed == s.tally.failed
            && |r.tally.errors| <= r.tally.failed
            && |r.tally.errors| <= 10 * |chunks|
    decreases |chunks|
  {
    if |chunks| > 0 {
      var n := |chunks| - 1;
      RunChunksSequential(tables, table, compute, chunks[..n], now);
      FlattenStep(chunks, n);
      assert chunks[..n + 1] == chunks;
      RunBatchAppend(tables, table, compute, Flatten(chunks[..n]), chunks[n], now);
    }
  }

  /** What `batch_compute_ai_function` reports. */
  datatype Summary =
    | NoItems                             // status "success", "No items to process", every count 0
    | Completed(total: nat, tally: Tally) // status "completed"

  datatype ComputeRun = ComputeRun(result: Result<Summary, Error>, tables: Tables)

  /**
   * `batch_compute_ai_function` as a function of the tables: a thread pool
   * of `maxWorkers` workers, which refuses a non-positive count, then chunks
   * of `batchSize` items through `range(0, n, batchSize)`, which raises for
   * a zero step and yields nothing for a negative one.
   */
  ghost function ComputeSpec(tables: Tables, dataset: string, func: string, compute: (string, Value) -> Computation,
                             ids: Option<seq<string>>, force: bool, maxWorkers: int, batchSize: int,
                             now: string): ComputeRun
  {
    if dataset !in KeyFields then ComputeRun(Failure(InvalidDataset(dataset)), tables)
    else
      match WorkSpec(tables, dataset, func, ids, force)
      case Failure(e) => ComputeRun(Failure(e), tables)
      case Success(items) =>
        if items == [] then ComputeRun(Success(NoItems), tables)
        else if maxWorkers <= 0 then ComputeRun(Failure(NonPositiveWorkers), tables)
        else if batchSize == 0 then ComputeRun(Failure(ZeroRangeStep), tables)
        else if batchSize < 0 then ComputeRun(Success(Completed(|items|, NoTally)), tables)
        else
          var run := RunChunks(tables, TableName(dataset, func), compute, Chunks(items, batchSize), now);
          ComputeRun(Success(Completed(|items|, run.tally)), run.tables)
  }

  /**
   * With a positive worker count and batch size, every item of the work list is processed
   * exactly once: the total is the work list's length, processed equals
   * successful plus failed equals the total, and the tables are those of
   * processing the work list item by item.
   */
  lemma ComputeTotals(tables: Tables, dataset: string, func: string, compute: (string, Value) -> Computation,
                      ids: Option<seq<string>>, force: bool, maxWorkers: int, batchSize: int, now: string)
    requires maxWorkers > 0 && batchSize > 0
    requires dataset in KeyFields && WorkSpec(tables, dataset, func, ids, force).Success?
    ensures var items := WorkSpec(tables, dataset, func, ids, force).value;
            var c := ComputeSpec(tables, dataset, func, compute, ids, force, maxWorkers, batchSize, now);
            items != [] ==>
              && c.result.Success? && c.result.value.Completed?
              && c.result.value.total == |items|
              && c.result.value.tally.processed == |items|
              && c.result.value.tally.successful + c.result.value.tally.failed == |items|
              && |c.result.value.tally.errors| <= c.result.value.tally.failed
              && c.tables == RunBatch(tables, TableName(dataset, func), compute, items, now).tables
  {
    var items := WorkSpec(tables, dataset, func, ids, force).value;
    if items != [] {
      ChunksFlatten(items, batchSize);
      RunChunksSequential(tables, TableName(dataset, func), compute, Chunks(items, batchSize), now);
    }
  }

  /**
   * The items processed are ids with a raw row (listed ones, when a list is
   * given), and unless recomputing, none of them already has a result.
   */
  lemma WorkSkipsComputed(tables: Tables, dataset: string, func: string, ids: Option<seq<string>>, force: bool)
    requires WorkSpec(tables, dataset, func, ids, force).Success?
    ensures forall it :: it in WorkSpec(tables, dataset, func, ids, force).value ==>
              && dataset + "_raw" in tables && tables[dataset + "_raw"].RawTable?
              && it.id in tables[dataset + "_raw"].rows
              && (ids.Some? ==> it.id in ids.value)
              && (!force ==> !HasRow(tables[TableName(dataset, func)], it.id))
  {
  }

  /** An empty work list reports "No items to process" and writes nothing. */
  lemma NothingToDo(tables: Tables, dataset: string, func: string, compute: (string, Value) -> Computation,
                    ids: Option<seq<string>>, force: bool, maxWorkers: int, batchSize: int, now: string)
    requires dataset in KeyFields && WorkSpec(tables, dataset, func, ids, force) == Success([])
    ensures ComputeSpec(tables, dataset, func, compute, ids, force, maxWorkers, batchSize, now) == ComputeRun(Success(NoItems), tables)
  {
  }

  /**
   * A non-empty work list with no workers fails when the pool is created,
   * before any chunk runs, so nothing is written; the batch size is never
   * looked at.
   */
  lemma NoWorkers(tables: Tables, dataset: string, func: string, compute: (string, Value) -> Computation,
                  ids: Option<seq<string>>, force: bool, maxWorkers: int, batchSize: int, now: string)
    requires dataset in KeyFields && WorkSpec(tables, dataset, func, ids, force).Success?
    requires WorkSpec(tables, dataset, func, ids, force).value != [] && maxWorkers <= 0
    ensures ComputeSpec(tables, dataset, func, compute, ids, force, maxWorkers, batchSize, now)
            == ComputeRun(Failure(NonPositiveWorkers), tables)
  {
  }

  /** The per-id step of `batch_update_taxonomy`: normalised string, the tables afterwards, the error if any. */
  datatype TaxonomyUpdate = TaxonomyUpdate(tables: Tables, error: Option<Error>)

  /** `[t for t in pieces if t]`. */
  function NonEmpty(pieces: seq<string>): (r: seq<string>)
    ensures forall t :: t in r ==> t != "" && t in pieces
    ensures forall t :: t in pieces && t != "" ==> t in r
    decreases |pieces|
  {
    if |pieces| == 0 then []
    else (if pieces[0] != "" then [pieces[0]] else []) + NonEmpty(pieces[1..])
  }

  /** The rows a list of tokens inserts for an id. */
  function TokenRows(id: string, tokens: seq<string>): seq<TokenRow>
    decreases |tokens|
  {
    if |tokens| == 0 then [] else [TokenRow(id, tokens[0])] + TokenRows(id, tokens[1..])
  }

  /** The tokens a token table lists for an id, in row order. */
  function TokensOf(rows: seq<TokenRow>, id: string): seq<string>
    decreases |rows|
  {
    if |rows| == 0 then []
    else (if rows[0].id == id then [rows[0].token] else []) + TokensOf(rows[1..], id)
  }

  /** `UPDATE <raw> SET nfr_taxonomy = ? WHERE key = ?`: only the id's row, if there is one, changes. */
  function SetTaxonomy(rows: map<string, RawRow>, id: string, normalized: string): (r: map<string, RawRow>)
    ensures r.Keys == rows.Keys
    ensures id in rows ==> r[id] == rows[id].(nfrTaxonomy := Str(normalized))
    ensures forall k :: k in rows && k != id ==> r[k] == rows[k]
  {
    if id in rows then rows[id := rows[id].(nfrTaxonomy := Str(normalized))] else rows
  }

  /** The token table after the DELETE and the INSERTs, and whether the INSERTs went through. */
  datatype TokenReplacement = TokenReplacement(table: Table, ok: bool)

  /**
   * Delete the id's token rows, then insert one row per non-empty piece of
   * the normalised string; the inserts need a token table.
   */
  function ReplaceTokens(t: Table, id: string, normalized: string): TokenReplacement {
    var kept := DeleteRows(t, Some(id)).table;
    if normalized == "" then TokenReplacement(kept, true)
    else if !kept.TokenTable? then TokenReplacement(kept, false)
    else TokenReplacement(TokenTable(kept.tokens + TokenRows(id, NonEmpty(Split(normalized, '|')))), true)
  }

  /**
   * Into a token table the replacement always goes through: the id's rows
   * are then the string's non-empty pieces in order, and rows of other ids
   * are kept.
   */
  lemma ReplaceTokensEffect(t: Table, id: string, normalized: string)
    requires t.TokenTable?
    ensures var r := ReplaceTokens(t, id, normalized);
            && r.ok && r.table.TokenTable?
            && TokensOf(r.table.tokens, id) == (if normalized == "" then [] else NonEmpty(Split(normalized, '|')))
            && (forall row :: row in t.tokens && row.id != id ==> row in r.table.tokens)
  {
    var kept := DeleteRows(t, Some(id)).table;
    DeleteKeeps(t, id);
    TokensOfNone(kept.tokens, id);
    if normalized != "" {
      var tokens := NonEmpty(Split(normalized, '|'));
      TokensOfAppend(kept.tokens, TokenRows(id, tokens), id);
      TokensOfRows(id, tokens);
    }
  }

  /**
   * One entry of `batch_update_taxonomy`: set the raw row's `nfr_taxonomy`
   * to the normalised string, then replace the id's token rows.  Each
   * statement runs on its own, so a failure leaves the statements before it
   * in effect.
   */
  function UpdateOne(tables: Tables, dataset: string, id: string, normalized: string): TaxonomyUpdate {
    var raw := dataset + "_raw";
    var mapTable := dataset + "_taxonomy_map";
    match RawRowsOf(tables, raw)
    case Failure(e) => TaxonomyUpdate(tables, Some(e))
    case Success(rows) =>
      var t1 := tables[raw := RawTable(SetTaxonomy(rows, id, normalized))];
      if mapTable !in t1 then TaxonomyUpdate(t1, Some(NoSuchTable(mapTable)))
      else
        var rep := ReplaceTokens(t1[mapTable], id, normalized);
        TaxonomyUpdate(t1[mapTable := rep.table], if rep.ok then None else Some(NoSuchTable(mapTable)))
  }

  /** The result of `batch_update_taxonomy`. */
  datatype UpdateReport = UpdateReport(updated: nat, failed: nat, errors: seq<string>)

  datatype UpdateRun = UpdateRun(tables: Tables, report: UpdateReport)

  /** The updates applied in the dict's order; every entry is either updated or failed. */
  function UpdateAll(tables: Tables, dataset: string, updates: seq<(string, string)>,
                     casing: string -> string): (r: UpdateRun)
    ensures r.report.updated + r.report.failed == |updates|
    ensures |r.report.errors| == r.report.failed
    decreases |updates|
  {
    if |updates| == 0 then UpdateRun(tables, UpdateReport(0, 0, []))
    else
      var before := UpdateAll(tables, dataset, updates[..|updates| - 1], casing);
      var (id, taxonomy) := updates[|updates| - 1];
      var step := UpdateOne(before.tables, dataset, id, Normalized(Some(taxonomy), casing));
      var rep := before.report;
      UpdateRun(step.tables,
        if step.error.None? then rep.(updated := rep.updated + 1)
        else rep.(failed := rep.failed + 1, errors := rep.errors + [id + ": " + Message(step.error.value)]))
  }

  /** One more update: the updates so far, then that one applied and counted. */
  lemma UpdateAllSnoc(tables: Tables, dataset: string, xs: seq<(string, string)>, x: (string, string),
                      casing: string -> string)
    ensures var before := UpdateAll(tables, dataset, xs, casing);
            var step := UpdateOne(before.tables, dataset, x.0, Normalized(Some(x.1), casing));
            var rep := before.report;
            UpdateAll(tables, dataset, xs + [x], casing) ==
              UpdateRun(step.tables,
                if step.error.None? then rep.(updated := rep.updated + 1)
                else rep.(failed := rep.failed + 1, errors := rep.errors + [x.0 + ": " + Message(step.error.value)]))
  {
    assert (xs + [x])[..|xs|] == xs;
  }

  /** The split pieces of a normalised string are its tokens, all non-empty. */
  lemma NormalizedPieces(taxonomy: string, casing: string -> string)
    requires WellBehaved(casing)
    ensures var n := Normalized(Some(taxonomy), casing);
            n != "" ==> NonEmpty(Split(n, '|')) == ParseTaxonomy(n)
  {
    var n := Normalized(Some(taxonomy), casing);
    var u := Dedupe(Titled(ParseTaxonomy(taxonomy), casing));
    NormalizedParse(taxonomy, casing);
    UniqueClean(taxonomy, casing);
    if n != "" {
      assert u != [];
      assert FreeOf(u, '|') by {
        forall i | 0 <= i < |u| ensures '|' !in u[i] {
          assert Clean(u[i]);
        }
      }
      SplitJoin(u, '|');
      NonEmptyClean(u);
    }
  }

  lemma {:induction false} NonEmptyClean(ts: seq<string>)
    requires AllClean(ts)
    ensures NonEmpty(ts) == ts
    decreases |ts|
  {
    if |ts| > 0 {
      assert Clean(ts[0]);
      assert AllClean(ts[1..]);
      NonEmptyClean(ts[1..]);
      ConsTail(ts);
    }
  }

  lemma {:induction false} TokensOfAppend(a: seq<TokenRow>, b: seq<TokenRow>, id: string)
    ensures TokensOf(a + b, id) == TokensOf(a, id) + TokensOf(b, id)
    decreases |a|
  {
    if |a| == 0 {
      assert a + b == b;
    } else {
      assert (a + b)[0] == a[0];
      assert (a + b)[1..] == a[1..] + b;
      TokensOfAppend(a[1..], b, id);
    }
  }

  lemma {:induction false} TokensOfRows(id: string, tokens: seq<string>)
    ensures TokensOf(TokenRows(id, tokens), id) == tokens
    decreases |tokens|
  {
    if |tokens| > 0 {
      TokensOfRows(id, tokens[1..]);
      ConsTail(tokens);
    }
  }

  lemma {:induction false} TokensOfOthers(id: string, other: string, tokens: seq<string>)
    requires other != id
    ensures TokensOf(TokenRows(id, tokens), other) == []
    decreases |tokens|
  {
    if |tokens| > 0 {
      TokensOfOthers(id, other, tokens[1..]);
    }
  }

  lemma {:induction false} TokensOfNone(rows: seq<TokenRow>, id: string)
    requires forall i :: 0 <= i < |rows| ==> rows[i].id != id
    ensures TokensOf(rows, id) == []
    decreases |rows|
  {
    if |rows| > 0 {
      TokensOfNone(rows[1..], id);
    }
  }

  /**
   * With both tables in place a taxonomy update succeeds: the record, if it
   * exists, holds the normalised string and no other record changes; the
   * id's token rows are exactly the parsed tokens of that string, in order;
   * token rows of other ids are kept; other tables are untouched.
   */
  lemma UpdateOneEffect(tables: Tables, dataset: string, id: string, taxonomy: string, casing: string -> string)
    requires WellBehaved(casing)
    requires dataset + "_raw" in tables && tables[dataset + "_raw"].RawTable?
    requires dataset + "_taxonomy_map" in tables && tables[dataset + "_taxonomy_map"].TokenTable?
    ensures var n := Normalized(Some(taxonomy), casing);
            var u := UpdateOne(tables, dataset, id, n);
            var raw, mapTable := dataset + "_raw", dataset + "_taxonomy_map";
            && u.error.None?
            && u.tables.Keys == tables.Keys
            && (forall t :: t in tables && t != raw && t != mapTable ==> u.tables[t] == tables[t])
            && u.tables[raw] == RawTable(SetTaxonomy(tables[raw].rows, id, n))
            && u.tables[mapTable].TokenTable?
            && TokensOf(u.tables[mapTable].tokens, id) == ParseTaxonomy(n)
            && (forall row :: row in tables[mapTable].tokens && row.id != id ==> row in u.tables[mapTable].tokens)
  {
    var n := Normalized(Some(taxonomy), casing);
    UpdateOneShape(tables, dataset, id, n);
    NormalizedPieces(taxonomy, casing);
  }

  /** The same for any string put in place of the normalised one, its tokens being its non-empty pieces. */
  lemma UpdateOneShape(tables: Tables, dataset: string, id: string, n: string)
    requires dataset + "_raw" in tables && tables[dataset + "_raw"].RawTable?
    requires dataset + "_taxonomy_map" in tables && tables[dataset + "_taxonomy_map"].TokenTable?
    ensures var u := UpdateOne(tables, dataset, id, n);
            var raw, mapTable := dataset + "_raw", dataset + "_taxonomy_map";
            && u.error.None?
            && u.tables.Keys == tables.Keys
            && (forall t :: t in tables && t != raw && t != mapTable ==> u.tables[t] == tables[t])
            && u.tables[raw] == RawTable(SetTaxonomy(tables[raw].rows, id, n))
            && u.tables[mapTable].TokenTable?
            && TokensOf(u.tables[mapTable].tokens, id) == (if n == "" then [] else NonEmpty(Split(n, '|')))
            && (forall row :: row in tables[mapTable].tokens && row.id != id ==> row in u.tables[mapTable].tokens)
  {
    var raw, mapTable := dataset + "_raw", dataset + "_taxonomy_map";
    assert raw != mapTable by {
      assert raw[|raw| - 1] == 'w';
      assert mapTable[|mapTable| - 1] == 'p';
    }
    var t1 := tables[raw := RawTable(SetTaxonomy(tables[raw].rows, id, n))];
    assert t1[mapTable] == tables[mapTable];
    ReplaceTokensEffect(tables[mapTable], id, n);
  }

  /** A record with no raw row is still reported as updated, and its token rows are written. */
  lemma AbsentRecordCounted(tables: Tables, dataset: string, id: string, taxonomy: string, casing: string -> string)
    requires WellBehaved(casing)
    requires dataset + "_raw" in tables && tables[dataset + "_raw"].RawTable? && id !in tables[dataset + "_raw"].rows
    requires dataset + "_taxonomy_map" in tables && tables[dataset + "_taxonomy_map"].TokenTable?
    ensures var u := UpdateOne(tables, dataset, id, Normalized(Some(taxonomy), casing));
            && u.error.None?
            && u.tables[dataset + "_raw"] == tables[dataset + "_raw"]
            && UpdateAll(tables, dataset, [(id, taxonomy)], casing).report == UpdateReport(1, 0, [])
  {
    UpdateOneEffect(tables, dataset, id, taxonomy, casing);
    assert [(id, taxonomy)][..0] == [];
  }

  /** Without the raw table an update fails and changes nothing. */
  lemma UpdateNoRawTable(tables: Tables, dataset: string, id: string, normalized: string)
    requires dataset + "_raw" !in tables
    ensures UpdateOne(tables, dataset, id, normalized) == TaxonomyUpdate(tables, Some(NoSuchTable(dataset + "_raw")))
  {
  }

  /** The `similar_*` table of a dataset. */
  function SimilarFunction(dataset: string): string {
    if dataset == "controls" then "similar_controls" else "similar_" + dataset
  }

  /** The AI function tables `batch_delete` and `get_batch_status` know, by function name. */
  function AiFunctions(dataset: string): (r: seq<string>)
    ensures |r| == 4 && r[3] == "similar_" + dataset
  {
    ["ai_taxonomy", "ai_root_causes", "ai_enrichment", SimilarFunction(dataset)]
  }

  lemma AiFunctionsDistinct(dataset: string)
    ensures Distinct(AiFunctions(dataset))
  {
    var r := AiFunctions(dataset);
    assert r[3][..8] == "similar_";
    assert r[0][..3] == "ai_" && r[1][..3] == "ai_" && r[2][..3] == "ai_";
    assert r[0][3] == 't' && r[1][3] == 'r' && r[2][3] == 'e';
  }

  /** The tables `batch_delete` cleans for each id: the raw table, and with `cascade` the derived ones. */
  function CleanTargets(dataset: string, cascade: bool): (r: seq<string>)
    ensures |r| >= 1 && r[0] == dataset + "_raw"
    ensures !cascade ==> r == [dataset + "_raw"]
    ensures cascade ==>
              (&& |r| == 6 && r[5] == dataset + "_taxonomy_map"
               && forall i :: 1 <= i < 5 ==> r[i] == dataset + "_" + AiFunctions(dataset)[i - 1])
  {
    if !cascade then [dataset + "_raw"]
    else
      var fs := AiFunctions(dataset);
      [dataset + "_raw"] + [dataset + "_" + fs[0], dataset + "_" + fs[1], dataset + "_" + fs[2], dataset + "_" + fs[3]] +
      [dataset + "_taxonomy_map"]
  }

  /** The result of `batch_delete`. */
  datatype DeleteReport = DeleteReport(deleted: nat, failed: nat, errors: seq<string>)

  datatype DeleteRun = DeleteRun(tables: Tables, report: DeleteReport)

  /**
   * The ids deleted in order: each one from every cleaned table; a missing
   * table fails that id after the tables before it were cleaned.
   */
  function DeleteAll(tables: Tables, names: seq<string>, ids: seq<string>): (r: DeleteRun)
    ensures r.report.deleted + r.report.failed == |ids|
    ensures |r.report.errors| == r.report.failed
    decreases |ids|
  {
    if |ids| == 0 then DeleteRun(tables, DeleteReport(0, 0, []))
    else
      var before := DeleteAll(tables, names, ids[..|ids| - 1]);
      var id := ids[|ids| - 1];
      var c := ClearTables(before.tables, names, Some(id), 0);
      var rep := before.report;
      DeleteRun(c.tables,
        if c.result.Success? then rep.(deleted := rep.deleted + 1)
        else rep.(failed := rep.failed + 1, errors := rep.errors + [id + ": " + Message(c.result.error)]))
  }

  /**
   * Deleting an id whose tables all exist removes its row from each of them,
   * derived rows included with `cascade`, and touches no other table.
   */
  lemma DeleteOneEffect(tables: Tables, dataset: string, cascade: bool, id: string)
    requires forall n :: n in CleanTargets(dataset, cascade) ==> n in tables
    ensures var r := DeleteAll(tables, CleanTargets(dataset, cascade), [id]);
            && r.report == DeleteReport(1, 0, [])
            && r.tables.Keys == tables.Keys
            && (forall n :: n in CleanTargets(dataset, cascade) ==> !HasRow(r.tables[n], id))
            && (forall t :: t in tables && t !in CleanTargets(dataset, cascade) ==> r.tables[t] == tables[t])
  {
    var names := CleanTargets(dataset, cascade);
    assert [id][..0] == [];
    ClearSucceeds(tables, names, Some(id), 0);
    ClearEmpties(tables, names, Some(id), 0);
    ClearKeys(tables, names, Some(id), 0);
    forall t | t in tables && t !in names
      ensures ClearTables(tables, names, Some(id), 0).tables[t] == tables[t]
    {
      ClearUntouched(tables, names, Some(id), 0, t);
    }
  }

  /** When every named table exists the delete loop does not fail. */
  lemma {:induction false} ClearSucceeds(tables: Tables, names: seq<string>, key: Option<string>, cleared: nat)
    requires forall n :: n in names ==> n in tables
    ensures ClearTables(tables, names, key, cleared).result.Success?
    decreases |names|
  {
    if |names| > 0 {
      var d := DeleteRows(tables[names[0]], key);
      ClearStep(tables, names, key, cleared);
      ReplaceKeys(tables, names[0], d.table);
      ClearSucceeds(tables[names[0] := d.table], names[1..], key, cleared + d.count);
    }
  }

  /** The per-function part of `get_batch_status`. */
  datatype FunctionStatus = FunctionStatus(computed: nat, pending: int)

  /** `get_batch_status` without the percentages. */
  datatype BatchStatus = BatchStatus(dataset: string, totalItems: nat, aiFunctions: map<string, FunctionStatus>)

  /** The loop that looks up each id's description, dropping ids without a raw row. */
  method DescribeAll(rows: map<string, RawRow>, ids: seq<string>) returns (items: seq<Item>)
    ensures items == Described(rows, ids)
  {
    items := [];
    for i := 0 to |ids|
      invariant items == Described(rows, ids[..i])
    {
      assert ids[..i + 1][..i] == ids[..i];
      if ids[i] in rows {
        items := items + [Item(ids[i], rows[ids[i]].description)];
      }
    }
    assert ids[..|ids|] == ids;
  }

  /** The loop that keeps the items without a row in the function's table (`filtered_ids`). */
  method DropComputed(t: Table, items: seq<Item>) returns (filtered: seq<Item>)
    ensures filtered == Uncomputed(t, items)
  {
    filtered := [];
    for i := 0 to |items|
      invariant filtered == Uncomputed(t, items[..i])
    {
      assert items[..i + 1][..i] == items[..i];
      if !HasRow(t, items[i].id) {
        filtered := filtered + [items[i]];
      }
    }
    assert items[..|items|] == items;
  }

  /** The batch processor over the shared database; the worker count is only checked by the thread pool. */
  class BatchProcessor {
    const db: Database
    const maxWorkers: int
    const batchSize: int

    constructor (db: Database, maxWorkers: int := 4, batchSize: int := 100)
      ensures this.db == db && this.maxWorkers == maxWorkers && this.batchSize == batchSize
    {
      this.db := db;
      this.maxWorkers := maxWorkers;
      this.batchSize := batchSize;
    }

    /** The work-list part of `batch_compute_ai_function`. */
    method WorkList(dataset: string, func: string, ids: Option<seq<string>>, force: bool)
      returns (r: Result<seq<Item>, Error>)
      ensures r == WorkSpec(db.tables, dataset, func, ids, force)
    {
      var tables := db.tables;
      var raw := RawRowsOf(tables, dataset + "_raw");
      if raw.Failure? && (ids.None? || ids.value != []) {
        return Failure(raw.error);
      }
      var items: seq<Item> := [];
      if raw.Success? {
        var order: seq<string>;
        if ids.None? {
          order := SortSet(raw.value.Keys);
        } else {
          order := ids.value;
        }
        items := DescribeAll(raw.value, order);
      }
      var table := TableName(dataset, func);
      if force || items == [] {
        return Success(items);
      }
      if table !in tables {
        return Failure(NoSuchTable(table));
      }
      var filtered := DropComputed(tables[table], items);
      r := Success(filtered);
    }

    /** `_process_batch`: compute and upsert each item, counting successes and failures. */
    method ProcessBatch(dataset: string, func: string, compute: (string, Value) -> Computation, batch: seq<Item>,
                        now: string) returns (tally: Tally)
      modifies db
      ensures BatchRun(db.tables, tally) == RunBatch(old(db.tables), TableName(dataset, func), compute, batch, now)
    {
      var table := TableName(dataset, func);
      tally := NoTally;
      for i := 0 to |batch|
        invariant BatchRun(db.tables, tally) == RunBatch(old(db.tables), table, compute, batch[..i], now)
      {
        assert batch[..i + 1][..i] == batch[..i];
        var it := batch[i];
        var err: Option<string> := None;
        var c := compute(it.id, it.description);
        if c.Raised? {
          err := Some(it.id + ": " + c.message);
        } else {
          var stored := StoreResult(db.tables, table, it.id, Entry(c.payload, now + "Z"));
          if stored.Failure? {
            err := Some(it.id + ": " + Message(stored.error));
          } else {
            db.tables := stored.value;
          }
        }
        tally := Count1(tally, err);
      }
      assert batch[..|batch|] == batch;
    }

    /** The chunk loop: submit `range(0, n, batchSize)` slices and merge their tallies. */
    method RunAll(dataset: string, func: string, compute: (string, Value) -> Computation, items: seq<Item>,
                  now: string) returns (total: Tally)
      requires batchSize > 0
      modifies db
      ensures BatchRun(db.tables, total) ==
              RunChunks(old(db.tables), TableName(dataset, func), compute, Chunks(items, batchSize), now)
    {
      var chunks := Chunks(items, batchSize);
      total := NoTally;
      for c := 0 to |chunks|
        invariant BatchRun(db.tables, total) ==
                  RunChunks(old(db.tables), TableName(dataset, func), compute, chunks[..c], now)
      {
        assert chunks[..c + 1][..c] == chunks[..c];
        var t := ProcessBatch(dataset, func, compute, chunks[c], now);
        total := Merge(total, t);
      }
      assert chunks[..|chunks|] == chunks;
    }

    /** `batch_compute_ai_function`; `now` is the clock reading each upsert is stamped with. */
    method BatchComputeAiFunction(dataset: string, func: string, compute: (string, Value) -> Computation,
                                  ids: Option<seq<string>>, force: bool, now: string)
      returns (r: Result<Summary, Error>)
      modifies db
      ensures var c := ComputeSpec(old(db.tables), dataset, func, compute, ids, force, maxWorkers, batchSize, now);
              r == c.result && db.tables == c.tables
    {
      if dataset !in KeyFields {
        return Failure(InvalidDataset(dataset));
      }
      var work := WorkList(dataset, func, ids, force);
      if work.Failure? {
        return Failure(work.error);
      }
      var items := work.value;
      if items == [] {
        return Success(NoItems);
      }
      if maxWorkers <= 0 {
        return Failure(NonPositiveWorkers);
      }
      if batchSize == 0 {
        return Failure(ZeroRangeStep);
      }
      if batchSize < 0 {
        return Success(Completed(|items|, NoTally));
      }
      var total := RunAll(dataset, func, compute, items, now);
      r := Success(Completed(|items|, total));
    }

    /** `batch_update_taxonomy`; `casing` stands for `str.title`. */
    method BatchUpdateTaxonomy(dataset: string, updates: seq<(string, string)>, casing: string -> string)
      returns (r: Result<UpdateReport, Error>)
      modifies db
      ensures dataset !in KeyFields ==> r == Failure(InvalidDataset(dataset)) && db.tables == old(db.tables)
      ensures dataset in KeyFields ==>
                var u := UpdateAll(old(db.tables), dataset, updates, casing);
                r == Success(u.report) && db.tables == u.tables
    {
      if dataset !in KeyFields {
        return Failure(InvalidDataset(dataset));
      }
      var report := UpdateReport(0, 0, []);
      for i := 0 to |updates|
        invariant UpdateRun(db.tables, report) == UpdateAll(old(db.tables), dataset, updates[..i], casing)
      {
        var (id, taxonomy) := updates[i];
        var normalized := NormalizeTaxonomy(Some(taxonomy), casing);
        var step := UpdateOne(db.tables, dataset, id, normalized);
        db.tables := step.tables;
        if step.error.None? {
          report := report.(updated := report.updated + 1);
        } else {
          report := report.(failed := report.failed + 1, errors := report.errors + [id + ": " + Message(step.error.value)]);
        }
        UpdateAllSnoc(old(db.tables), dataset, updates[..i], updates[i], casing);
        TakeStep(updates, i);
      }
      assert updates[..|updates|] == updates;
      r := Success(report);
    }

    /** `batch_delete`. */
    method BatchDelete(dataset: string, ids: seq<string>, cascade: bool) returns (r: Result<DeleteReport, Error>)
      modifies db
      ensures dataset !in KeyFields ==> r == Failure(InvalidDataset(dataset)) && db.tables == old(db.tables)
      ensures dataset in KeyFields ==>
                var d := DeleteAll(old(db.tables), CleanTargets(dataset, cascade), ids);
                r == Success(d.report) && db.tables == d.tables
    {
      if dataset !in KeyFields {
        return Failure(InvalidDataset(dataset));
      }
      var names := CleanTargets(dataset, cascade);
      var report := DeleteReport(0, 0, []);
      for i := 0 to |ids|
        invariant DeleteRun(db.tables, report) == DeleteAll(old(db.tables), names, ids[..i])
      {
        assert ids[..i + 1][..i] == ids[..i];
        var c := DeleteEach(names, ids[i]);
        if c.Success? {
          report := report.(deleted := report.deleted + 1);
        } else {
          report := report.(failed := report.failed + 1, errors := report.errors + [ids[i] + ": " + Message(c.error)]);
        }
      }
      assert ids[..|ids|] == ids;
      r := Success(report);
    }

    /** The inner loop of `batch_delete`: one id's DELETE in each table, stopping at the first failure. */
    method DeleteEach(names: seq<string>, id: string) returns (r: Result<nat, Error>)
      modifies db
      ensures var c := ClearTables(old(db.tables), names, Some(id), 0);
              r == c.result && db.tables == c.tables
    {
      var count: nat := 0;
      for i := 0 to |names|
        invariant ClearTables(db.tables, names[i..], Some(id), count) == ClearTables(old(db.tables), names, Some(id), 0)
      {
        assert names[i..][1..] == names[i + 1..];
        if names[i] !in db.tables {
          return Failure(NoSuchTable(names[i]));
        }
        var d := DeleteRows(db.tables[names[i]], Some(id));
        db.tables := db.tables[names[i] := d.table];
        count := count + d.count;
      }
      r := Success(count);
    }

    /**
     * `get_batch_status`: the raw row count, and per function the rows
     * computed and the rest pending; a table that cannot be counted counts 0.
     */
    method GetBatchStatus(dataset: string) returns (r: Result<BatchStatus, Error>)
      ensures dataset !in KeyFields ==> r == Failure(InvalidDataset(dataset))
      ensures dataset in KeyFields ==> (r.Success? <==> dataset + "_raw" in db.tables)
      ensures dataset in KeyFields && r.Failure? ==> r.error == NoSuchTable(dataset + "_raw")
      ensures r.Success? ==>
                var s := r.value;
                && s.dataset == dataset
                && s.totalItems == RowCount(db.tables[dataset + "_raw"])
                && s.aiFunctions.Keys == Elems(AiFunctions(dataset))
                && forall f :: f in s.aiFunctions ==>
                     && s.aiFunctions[f].computed ==
                          (if dataset + "_" + f in db.tables then RowCount(db.tables[dataset + "_" + f]) else 0)
                     && s.aiFunctions[f].pending == s.totalItems - s.aiFunctions[f].computed
    {
      if dataset !in KeyFields {
        return Failure(InvalidDataset(dataset));
      }
      if dataset + "_raw" !in db.tables {
        return Failure(NoSuchTable(dataset + "_raw"));
      }
      var total := RowCount(db.tables[dataset + "_raw"]);
      var fs := AiFunctions(dataset);
      var status: map<string, FunctionStatus> := map[];
      for i := 0 to |fs|
        invariant status.Keys == Elems(fs[..i])
        invariant forall f :: f in status ==>
                    && status[f].computed ==
                         (if dataset + "_" + f in db.tables then RowCount(db.tables[dataset + "_" + f]) else 0)
                    && status[f].pending == total - status[f].computed
      {
        assert fs[..i + 1] == fs[..i] + [fs[i]];
        var table := dataset + "_" + fs[i];
        if table in db.tables {
          var count := RowCount(db.tables[table]);
          status := status[fs[i] := FunctionStatus(count, total - count)];
        } else {
          status := status[fs[i] := FunctionStatus(0, total)];
        }
      }
      assert fs[..|fs|] == fs;
      r := Success(BatchStatus(dataset, total, status));
    }
  }
}
