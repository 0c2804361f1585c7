/**
 * The cache-or-compute resolver: for a (dataset, function, id) it checks the
 * names, requires the raw record, answers from the function's result table
 * unless asked to refresh, and otherwise calls the compute function and
 * upserts what it returns.
 */
module Resolver {
  import opened Values
  import opened Seqs
  import opened Store
  import opened DatasetConfigs

  /**
   * The functions the resolver can compute, per dataset.  Only three per
   * dataset: `slow_enrichment`, which the configuration also lists, is not
   * among them.
   */
  const FunctionMap: map<string, seq<string>> := map[
    "controls" := ["controls_taxonomy", "root_cause", "enrichment"],
    "external_loss" := ["issue_taxonomy", "root_cause", "enrichment"],
    "internal_loss" := ["issue_taxonomy", "root_cause", "enrichment"],
    "issues" := ["issue_taxonomy", "root_cause", "enrichment"]]

  /** The resolver knows exactly the configured datasets; each has three distinct functions, none named "raw". */
  lemma FunctionMapShape(dataset: string)
    ensures dataset in FunctionMap <==> dataset in Configs
    ensures dataset in FunctionMap ==> |FunctionMap[dataset]| == 3 && Distinct(FunctionMap[dataset])
    ensures dataset in FunctionMap ==> "raw" !in FunctionMap[dataset]
    ensures dataset in FunctionMap ==> forall f :: f in FunctionMap[dataset] ==> f in Configs[dataset].aiFunctions
  {
  }

  /** The result table of a function: `<dataset>_<function>`. */
  function TableName(dataset: string, func: string): string {
    dataset + "_" + func
  }

  /** Different functions of one dataset have different result tables, none of them the raw table. */
  lemma TableNameInjective(dataset: string, f: string, g: string)
    ensures TableName(dataset, f) == TableName(dataset, g) ==> f == g
    ensures TableName(dataset, f) == dataset + "_raw" ==> f == "raw"
  {
    var n := |dataset| + 1;
    assert TableName(dataset, f)[n..] == f;
    assert TableName(dataset, g)[n..] == g;
    assert (dataset + "_raw")[n..] == "raw";
  }

  /** The arguments a compute function receives. */
  datatype Call = Call(dataset: string, func: string, id: string, sessionId: string, userId: string, context: Value)

  /** Where a resolved payload came from (`"cache"` or `"computed"`). */
  datatype Source = FromCache | FromCompute

  /** The dict `resolve` returns; its status is always "ok". */
  datatype Resolution = Resolution(source: Source, payload: Value, createdAt: string)

  /** The fields of a configuration are pairwise distinct, so building a dict from them loses nothing. */
  ghost predicate DistinctFields(c: DatasetConfig) {
    && c.keyField != c.titleField && c.keyField != c.themeField && c.titleField != c.themeField
    && (c.categoryField.Some? ==>
          c.categoryField.value !in {c.keyField, c.titleField, c.themeField})
    && (c.subthemeField.Some? ==>
          c.subthemeField.value !in {c.keyField, c.titleField, c.themeField})
    && (c.categoryField.Some? && c.subthemeField.Some? ==> c.categoryField.value != c.subthemeField.value)
  }

  lemma ConfigsDistinctFields(dataset: string)
    requires dataset in Configs
    ensures DistinctFields(Configs[dataset])
  {
  }

  function OptionalKey(f: Option<string>): seq<string> {
    if f.Some? && f.value != "" then [f.value] else []
  }

  /**
   * The record handed to the compute function: the decoded `raw_data` when
   * the column is non-empty, otherwise the dict built from the columns.
   */
  function Context(config: DatasetConfig, id: string, row: RawRow): (r: Result<Value, Error>)
    ensures row.rawData.Parsed? ==> r == Success(row.rawData.value)
    ensures row.rawData.Undecodable? ==> r == Failure(MalformedJson(row.rawData.text))
    ensures row.rawData.NoBlob? ==> r == Success(Obj(Fallback(config, id, row)))
  {
    match row.rawData
    case Parsed(v) => Success(v)
    case Undecodable(text) => Failure(MalformedJson(text))
    case NoBlob => Success(Obj(Fallback(config, id, row)))
  }

  /**
   * The dict built when `raw_data` is empty: key, title and theme, then
   * category and subtheme when the configuration names them.
   */
  function Fallback(config: DatasetConfig, id: string, row: RawRow): (d: Dict)
    ensures WellFormed(d)
  {
    var base := FallbackBase(config, id, row);
    PutOptional(PutOptional(base, config.categoryField, row.category), config.subthemeField, row.subtheme)
  }

  /** The key, title and theme columns put into an empty dict. */
  function FallbackBase(config: DatasetConfig, id: string, row: RawRow): (d: Dict)
    ensures WellFormed(d)
  {
    Put(Put(Put(EmptyDict, config.keyField, Str(id)), config.titleField, row.title),
        config.themeField, row.theme)
  }

  /** `if field: d[field] = v`. */
  function PutOptional(d: Dict, field: Option<string>, v: Value): (r: Dict)
    requires WellFormed(d)
    ensures WellFormed(r)
    ensures field.Some? && field.value != "" ==> r.vals == d.vals[field.value := v]
    ensures !(field.Some? && field.value != "") ==> r == d
    ensures field.Some? && field.value != "" && field.value !in d.vals ==> r.keys == d.keys + [field.value]
  {
    if field.Some? && field.value != "" then Put(d, field.value, v) else d
  }

  /**
   * With distinct field names the fallback dict lists exactly the key,
   * title and theme fields, then the configured category and subtheme
   * fields, each holding its column.
   */
  lemma FallbackFields(config: DatasetConfig, id: string, row: RawRow)
    requires DistinctFields(config)
    ensures var d := Fallback(config, id, row);
      && d.keys == [config.keyField, config.titleField, config.themeField]
                   + OptionalKey(config.categoryField) + OptionalKey(config.subthemeField)
      && d.vals[config.keyField] == Str(id)
      && d.vals[config.titleField] == row.title
      && d.vals[config.themeField] == row.theme
      && (config.categoryField.Some? && config.categoryField.value != "" ==>
            d.vals[config.categoryField.value] == row.category)
      && (config.subthemeField.Some? && config.subthemeField.value != "" ==>
            d.vals[config.subthemeField.value] == row.subtheme)
  {
    var base := FallbackBase(config, id, row);
    BaseFields(config, id, row);
    var d1 := PutOptional(base, config.categoryField, row.category);
    assert d1.keys == base.keys + OptionalKey(config.categoryField);
    var d2 := PutOptional(d1, config.subthemeField, row.subtheme);
    if config.subthemeField.Some? && config.subthemeField.value != "" {
      assert config.subthemeField.value !in d1.vals;
    }
    assert d2.keys == d1.keys + OptionalKey(config.subthemeField);
  }

  /** The three mandatory columns, in order. */
  lemma BaseFields(config: DatasetConfig, id: string, row: RawRow)
    requires DistinctFields(config)
    ensures var base := FallbackBase(config, id, row);
      && base.keys == [config.keyField, config.titleField, config.themeField]
      && base.vals == map[config.keyField := Str(id), config.titleField := row.title,
                          config.themeField := row.theme]
  {
    var a := Put(EmptyDict, config.keyField, Str(id));
    var b := Put(a, config.titleField, row.title);
    assert b.keys == [config.keyField, config.titleField];
  }

  /** `_get_cached_result`: the stored entry for `id`, if any; querying a missing table fails. */
  function CachedResult(tables: Tables, table: string, id: string): (r: Result<Option<Entry>, Error>)
    ensures r.Failure? <==> EntriesOf(tables, table).Failure?
    ensures r.Failure? ==> r.error == NoSuchTable(table)
    ensures r.Success? ==> (r.value.Some? <==> id in tables[table].entries)
    ensures r.Success? && r.value.Some? ==> r.value.value == tables[table].entries[id]
  {
    match EntriesOf(tables, table)
    case Failure(e) => Failure(e)
    case Success(entries) => if id in entries then Success(Some(entries[id])) else Success(None)
  }

  /**
   * `_store_result`: INSERT OR REPLACE, so afterwards the table holds exactly
   * one row for `id`, the new one, and every other row and table is as before.
   */
  function StoreResult(tables: Tables, table: string, id: string, e: Entry): (r: Result<Tables, Error>)
    ensures r.Success? <==> EntriesOf(tables, table).Success?
    ensures r.Failure? ==> r.error == NoSuchTable(table)
    ensures r.Success? ==>
      && r.value.Keys == tables.Keys
      && (forall t :: t in tables && t != table ==> r.value[t] == tables[t])
      && r.value[table].ResultTable?
      && r.value[table].entries.Keys == tables[table].entries.Keys + {id}
      && r.value[table].entries[id] == e
      && (forall k :: k in tables[table].entries && k != id ==>
            r.value[table].entries[k] == tables[table].entries[k])
  {
    match EntriesOf(tables, table)
    case Failure(err) => Failure(err)
    case Success(entries) => Success(tables[table := ResultTable(entries[id := e])])
  }

  /** Reading back what was just stored gives the stored entry. */
  lemma StoreThenFetch(tables: Tables, table: string, id: string, e: Entry)
    requires StoreResult(tables, table, id, e).Success?
    ensures CachedResult(StoreResult(tables, table, id, e).value, table, id) == Success(Some(e))
  {
  }

  /** The arguments of one `resolve` call. */
  datatype Request = Request(dataset: string, func: string, id: string, sessionId: string, userId: string, refresh: bool)

  /** What one `resolve` call does: its result, the tables afterwards, and the compute call it made, if any. */
  datatype Outcome = Outcome(result: Result<Resolution, Error>, tables: Tables, call: Option<Call>)

  /** Names the resolver accepts. */
  predicate ValidNames(q: Request) {
    q.dataset in FunctionMap && q.func in FunctionMap[q.dataset]
  }

  /**
   * `resolve` as a function of the tables, the compute function and the
   * clock reading `now` taken after computing.
   */
  function ResolveSpec(tables: Tables, compute: Call -> Computation, q: Request, now: string): Outcome {
    if q.dataset !in FunctionMap then Outcome(Failure(InvalidDataset(q.dataset)), tables, None)
    else if q.func !in FunctionMap[q.dataset] then Outcome(Failure(InvalidFunction(q.func, q.dataset)), tables, None)
    else
      var config := Configs[q.dataset];
      match RawRowsOf(tables, config.table)
      case Failure(e) => Outcome(Failure(e), tables, None)
      case Success(rows) =>
        if q.id !in rows then Outcome(Failure(RecordNotFound(q.id, q.dataset)), tables, None)
        else
          match Context(config, q.id, rows[q.id])
          case Failure(e) => Outcome(Failure(e), tables, None)
          case Success(ctx) =>
            var table := TableName(q.dataset, q.func);
            var cached: Result<Option<Entry>, Error> := if q.refresh then Success(None) else CachedResult(tables, table, q.id);
            match cached
            case Failure(e) => Outcome(Failure(e), tables, None)
            case Success(Some(entry)) =>
              Outcome(Success(Resolution(FromCache, entry.payload, entry.createdAt)), tables, None)
            case Success(None) =>
              var call := Call(q.dataset, q.func, q.id, q.sessionId, q.userId, ctx);
              match compute(call)
              case Raised(msg) => Outcome(Failure(ComputeFailed(q.func, msg)), tables, Some(call))
              case Computed(payload) =>
                var entry := Entry(payload, now + "Z");
                match StoreResult(tables, table, q.id, entry)
                case Failure(e) => Outcome(Failure(e), tables, Some(call))
                case Success(tables') => Outcome(Success(Resolution(FromCompute, payload, entry.createdAt)), tables', Some(call))
  }

  /** An unknown dataset or function fails first, whatever the tables hold, with nothing read, written or computed. */
  lemma InvalidNamesFirst(t1: Tables, t2: Tables, compute: Call -> Computation, q: Request, now: string)
    requires !ValidNames(q)
    ensures ResolveSpec(t1, compute, q, now).result == ResolveSpec(t2, compute, q, now).result
    ensures ResolveSpec(t1, compute, q, now).result.Failure?
    ensures q.dataset !in FunctionMap ==> ResolveSpec(t1, compute, q, now).result.error == InvalidDataset(q.dataset)
    ensures q.dataset in FunctionMap ==>
      ResolveSpec(t1, compute, q, now).result.error == InvalidFunction(q.func, q.dataset)
    ensures ResolveSpec(t1, compute, q, now).tables == t1 && ResolveSpec(t1, compute, q, now).call.None?
  {
  }

  /**
   * A missing raw record is reported before the cache is consulted: whatever
   * the result table holds, even a row for this id, the call fails with
   * "not found" and changes nothing.
   */
  lemma NotFoundBeforeCache(tables: Tables, cache: map<string, Entry>, compute: Call -> Computation, q: Request, now: string)
    requires ValidNames(q)
    requires RawRowsOf(tables, Configs[q.dataset].table).Success?
    requires q.id !in RawRowsOf(tables, Configs[q.dataset].table).value
    ensures var t := tables[TableName(q.dataset, q.func) := ResultTable(cache)];
            ResolveSpec(t, compute, q, now) == Outcome(Failure(RecordNotFound(q.id, q.dataset)), t, None)
  {
    TableNameInjective(q.dataset, q.func, "raw");
    FunctionMapShape(q.dataset);
    ConfigsInvariant(q.dataset);
  }

  /** The state a request needs to get past the record lookup. */
  ghost predicate RecordReady(tables: Tables, q: Request) {
    && ValidNames(q)
    && RawRowsOf(tables, Configs[q.dataset].table).Success?
    && q.id in RawRowsOf(tables, Configs[q.dataset].table).value
    && Context(Configs[q.dataset], q.id, RawRowsOf(tables, Configs[q.dataset].table).value[q.id]).Success?
  }

  /** The compute call a request that reaches the compute step makes. */
  ghost function CallFor(tables: Tables, q: Request): Call
    requires RecordReady(tables, q)
  {
    Call(q.dataset, q.func, q.id, q.sessionId, q.userId,
         Context(Configs[q.dataset], q.id, RawRowsOf(tables, Configs[q.dataset].table).value[q.id]).value)
  }

  /** A cache hit returns the stored payload and timestamp, writes nothing and computes nothing. */
  lemma CacheHit(tables: Tables, compute: Call -> Computation, q: Request, now: string)
    requires RecordReady(tables, q) && !q.refresh
    requires CachedResult(tables, TableName(q.dataset, q.func), q.id).Success?
    requires CachedResult(tables, TableName(q.dataset, q.func), q.id).value.Some?
    ensures var e := tables[TableName(q.dataset, q.func)].entries[q.id];
            ResolveSpec(tables, compute, q, now) == Outcome(Success(Resolution(FromCache, e.payload, e.createdAt)), tables, None)
  {
  }

  /**
   * On a miss, or with `refresh`, a successful computation is upserted once:
   * the result says "computed", carries the payload and the timestamp that
   * were stored, the table holds that one row for the id, and nothing else
   * changes.
   */
  lemma MissComputesAndStores(tables: Tables, compute: Call -> Computation, q: Request, now: string, payload: Value)
    requires RecordReady(tables, q)
    requires EntriesOf(tables, TableName(q.dataset, q.func)).Success?
    requires q.refresh || q.id !in tables[TableName(q.dataset, q.func)].entries
    requires compute(CallFor(tables, q)) == Computed(payload)
    ensures var o := ResolveSpec(tables, compute, q, now);
            var table := TableName(q.dataset, q.func);
            && o.result == Success(Resolution(FromCompute, payload, now + "Z"))
            && o.call == Some(CallFor(tables, q))
            && o.tables.Keys == tables.Keys
            && (forall t :: t in tables && t != table ==> o.tables[t] == tables[t])
            && o.tables[table].ResultTable?
            && o.tables[table].entries.Keys == tables[table].entries.Keys + {q.id}
            && o.tables[table].entries[q.id] == Entry(payload, now + "Z")
            && (forall k :: k in tables[table].entries && k != q.id ==>
                  o.tables[table].entries[k] == tables[table].entries[k])
  {
  }

  /** A compute function that raises becomes a RuntimeError, and the tables are unchanged. */
  lemma ComputeFailureChangesNothing(tables: Tables, compute: Call -> Computation, q: Request, now: string, msg: string)
    requires RecordReady(tables, q)
    requires q.refresh || CachedResult(tables, TableName(q.dataset, q.func), q.id) == Success(None)
    requires compute(CallFor(tables, q)) == Raised(msg)
    ensures ResolveSpec(tables, compute, q, now) ==
            Outcome(Failure(ComputeFailed(q.func, msg)), tables, Some(CallFor(tables, q)))
  {
  }

  /**
   * What a call computes, a second call without `refresh` reads back from
   * the cache, with any compute function and any clock: same payload, same
   * timestamp, no further write and no compute call.
   */
  lemma {:induction false} ComputeThenHit(tables: Tables, compute: Call -> Computation, compute2: Call -> Computation,
                                          q: Request, now: string, later: string)
    requires ResolveSpec(tables, compute, q, now).result.Success?
    ensures var o := ResolveSpec(tables, compute, q, now);
            var o2 := ResolveSpec(o.tables, compute2, q.(refresh := false), later);
            && o2.result == Success(Resolution(FromCache, o.result.value.payload, o.result.value.createdAt))
            && o2.tables == o.tables
            && o2.call.None?
  {
    var o := ResolveSpec(tables, compute, q, now);
    var config := Configs[q.dataset];
    var table := TableName(q.dataset, q.func);
    FunctionMapShape(q.dataset);
    ConfigsInvariant(q.dataset);
    TableNameInjective(q.dataset, q.func, "raw");
    assert table != config.table;
    if o.result.value.source == FromCompute {
      assert o.tables[config.table] == tables[config.table];
      assert o.tables[table].entries[q.id] == Entry(o.result.value.payload, o.result.value.createdAt);
    } else {
      assert o.tables == tables;
    }
  }

  /** The effective table list of `clear_cache`: the named function, or every function when none is given. */
  function Targets(dataset: string, func: Option<string>): (r: seq<string>)
    requires dataset in FunctionMap
    ensures func.Some? && func.value != "" ==> r == [TableName(dataset, func.value)]
    ensures !(func.Some? && func.value != "") ==>
      |r| == |FunctionMap[dataset]| &&
      forall i :: 0 <= i < |r| ==> r[i] == TableName(dataset, FunctionMap[dataset][i])
  {
    if func.Some? && func.value != "" then [TableName(dataset, func.value)]
    else
      var fs := FunctionMap[dataset];
      [TableName(dataset, fs[0]), TableName(dataset, fs[1]), TableName(dataset, fs[2])]
  }

  /** The table names `clear_cache` visits are distinct. */
  lemma TargetsDistinct(dataset: string, func: Option<string>)
    requires dataset in FunctionMap
    ensures Distinct(Targets(dataset, func))
  {
    FunctionMapShape(dataset);
    var r := Targets(dataset, func);
    var fs := FunctionMap[dataset];
    forall i, j | 0 <= i < j < |r| ensures r[i] != r[j] {
      TableNameInjective(dataset, fs[i], fs[j]);
    }
  }

  /** An empty id means "every row", like an absent one. */
  function KeyFilter(id: Option<string>): (r: Option<string>)
    ensures r.Some? <==> id.Some? && id.value != ""
    ensures r.Some? ==> r == id
  {
    if id.Some? && id.value != "" then id else None
  }

  /** The result of `clear_cache` and the tables afterwards (rows deleted before a failure stay deleted). */
  datatype Clearing = Clearing(result: Result<nat, Error>, tables: Tables)

  /** The delete loop of `clear_cache`, `cleared` being the rows removed so far. */
  function ClearTables(tables: Tables, names: seq<string>, key: Option<string>, cleared: nat): Clearing
    decreases |names|
  {
    if |names| == 0 then Clearing(Success(cleared), tables)
    else if names[0] !in tables then Clearing(Failure(NoSuchTable(names[0])), tables)
    else
      var d := DeleteRows(tables[names[0]], key);
      ClearTables(tables[names[0] := d.table], names[1..], key, cleared + d.count)
  }

  /** `clear_cache` as a function of the tables. */
  function ClearSpec(tables: Tables, dataset: string, func: Option<string>, id: Option<string>): Clearing {
    if dataset !in FunctionMap then Clearing(Failure(InvalidDataset(dataset)), tables)
    else ClearTables(tables, Targets(dataset, func), KeyFilter(id), 0)
  }

  /** Rows held by the named tables (a missing table holds none). */
  function Rows(tables: Tables, names: seq<string>): nat {
    if |names| == 0 then 0
    else (if names[0] in tables then RowCount(tables[names[0]]) else 0) + Rows(tables, names[1..])
  }

  /** One turn of the delete loop: the first named table is emptied (of the id's rows), then the rest follow. */
  lemma ClearStep(tables: Tables, names: seq<string>, key: Option<string>, cleared: nat)
    requires |names| > 0 && names[0] in tables
    ensures var d := DeleteRows(tables[names[0]], key);
            ClearTables(tables, names, key, cleared) ==
            ClearTables(tables[names[0] := d.table], names[1..], key, cleared + d.count)
  { }

  /** The loop neither creates nor drops a table. */
  lemma {:induction false} ClearKeys(tables: Tables, names: seq<string>, key: Option<string>, cleared: nat)
    ensures ClearTables(tables, names, key, cleared).tables.Keys == tables.Keys
    decreases |names|
  {
    if |names| > 0 && names[0] in tables {
      var d := DeleteRows(tables[names[0]], key);
      var t' := tables[names[0] := d.table];
      ClearStep(tables, names, key, cleared);
      ReplaceKeys(tables, names[0], d.table);
      ClearKeys(t', names[1..], key, cleared + d.count);
    }
  }

  /** A table the loop does not name keeps its contents. */
  lemma {:induction false} ClearUntouched(tables: Tables, names: seq<string>, key: Option<string>, cleared: nat, t: string)
    requires t in tables && t !in names
    ensures t in ClearTables(tables, names, key, cleared).tables &&
            ClearTables(tables, names, key, cleared).tables[t] == tables[t]
    decreases |names|
  {
    if |names| == 0 {
      assert ClearTables(tables, names, key, cleared).tables == tables;
    } else if names[0] !in tables {
      assert ClearTables(tables, names, key, cleared).tables == tables;
    } else {
      var d := DeleteRows(tables[names[0]], key);
      assert t !in names[1..];
      ClearStep(tables, names, key, cleared);
      ClearUntouched(tables[names[0] := d.table], names[1..], key, cleared + d.count, t);
    }
  }

  /** Table `n` exists and holds no row the key selects: no row at all, or none for the id. */
  predicate Emptied(tables: Tables, n: string, key: Option<string>) {
    n in tables &&
    (key.None? ==> RowCount(tables[n]) == 0) &&
    (key.Some? ==> !HasRow(tables[n], key.value))
  }

  /** After a successful clear, every named table is empty, or holds no row for the given id. */
  lemma {:induction false} ClearEmpties(tables: Tables, names: seq<string>, key: Option<string>, cleared: nat)
    requires ClearTables(tables, names, key, cleared).result.Success?
    ensures forall n :: n in names ==> Emptied(ClearTables(tables, names, key, cleared).tables, n, key)
    decreases |names|
  {
    if |names| > 0 {
      var n0 := names[0];
      var d := DeleteRows(tables[n0], key);
      var t' := tables[n0 := d.table];
      var c := ClearTables(t', names[1..], key, cleared + d.count);
      ClearStep(tables, names, key, cleared);
      ClearEmpties(t', names[1..], key, cleared + d.count);
      forall n | n in names
        ensures Emptied(c.tables, n, key)
      {
        if n !in names[1..] {
          assert n == n0;
          ClearUntouched(t', names[1..], key, cleared + d.count, n0);
          if key.Some? {
            DeleteRemoves(tables[n0], key.value);
          }
          assert Emptied(t', n0, key);
        }
      }
    }
  }

  /** The reported count is the number of rows the named tables lost. */
  lemma {:induction false} ClearCounts(tables: Tables, names: seq<string>, key: Option<string>, cleared: nat)
    requires Distinct(names)
    requires ClearTables(tables, names, key, cleared).result.Success?
    ensures var c := ClearTables(tables, names, key, cleared);
            Rows(c.tables, names) <= Rows(tables, names) &&
            c.result.value == cleared + Rows(tables, names) - Rows(c.tables, names)
    decreases |names|
  {
    if |names| > 0 {
      var n := names[0];
      var d := DeleteRows(tables[n], key);
      var t' := tables[n := d.table];
      assert Distinct(names[1..]);
      assert n !in names[1..];
      ClearStep(tables, names, key, cleared);
      DeleteCount(tables[n], key);
      ClearCounts(t', names[1..], key, cleared + d.count);
      var c := ClearTables(t', names[1..], key, cleared + d.count);
      ClearUntouched(t', names[1..], key, cleared + d.count, n);
      RowsUnchanged(tables, t', names[1..]);
      assert Rows(tables, names) == RowCount(tables[n]) + Rows(t', names[1..]);
      assert Rows(c.tables, names) == RowCount(d.table) + Rows(c.tables, names[1..]);
    }
  }

  lemma {:induction false} RowsUnchanged(a: Tables, b: Tables, names: seq<string>)
    requires forall n :: n in names ==> (n in a <==> n in b) && (n in a ==> a[n] == b[n])
    ensures Rows(a, names) == Rows(b, names)
    decreases |names|
  {
    if |names| > 0 {
      RowsUnchanged(a, b, names[1..]);
    }
  }

  /** Clearing tables that hold no matching row clears nothing and reports 0. */
  lemma ClearNothing(tables: Tables, dataset: string, func: Option<string>, id: Option<string>)
    requires dataset in FunctionMap
    requires ClearSpec(tables, dataset, func, id).result.Success?
    requires forall n :: n in Targets(dataset, func) && n in tables ==> RowCount(tables[n]) == 0
    ensures ClearSpec(tables, dataset, func, id).result.value == 0
  {
    var names := Targets(dataset, func);
    TargetsDistinct(dataset, func);
    ClearCounts(tables, names, KeyFilter(id), 0);
    RowsZero(tables, names);
  }

  lemma {:induction false} RowsZero(tables: Tables, names: seq<string>)
    requires forall n :: n in names && n in tables ==> RowCount(tables[n]) == 0
    ensures Rows(tables, names) == 0
    decreases |names|
  {
    if |names| > 0 {
      RowsZero(tables, names[1..]);
    }
  }

  /** An unknown dataset fails before anything is deleted. */
  lemma ClearInvalidDataset(tables: Tables, dataset: string, func: Option<string>, id: Option<string>)
    requires dataset !in FunctionMap
    ensures ClearSpec(tables, dataset, func, id) == Clearing(Failure(InvalidDataset(dataset)), tables)
  {
  }

  /** The lookups of `get_all_results` for the functions `fs`, in order; the first missing table fails. */
  function CollectResults(tables: Tables, dataset: string, fs: seq<string>, id: string)
    : Result<map<string, Option<Entry>>, Error>
    decreases |fs|
  {
    if |fs| == 0 then Success(map[])
    else
      var f := fs[|fs| - 1];
      match CollectResults(tables, dataset, fs[..|fs| - 1], id)
      case Failure(e) => Failure(e)
      case Success(results) =>
        match CachedResult(tables, TableName(dataset, f), id)
        case Failure(e) => Failure(e)
        case Success(cached) => Success(results[f := cached])
  }

  /** `get_all_results` as a function of the tables. */
  function AllResults(tables: Tables, dataset: string, id: string): Result<map<string, Option<Entry>>, Error> {
    if dataset !in FunctionMap then Failure(InvalidDataset(dataset))
    else CollectResults(tables, dataset, FunctionMap[dataset], id)
  }

  /**
   * The lookups succeed exactly when every function's table exists, and then
   * map each function to its cached entry; otherwise they fail on the first
   * missing table.
   */
  lemma {:induction false} CollectResultsMeaning(tables: Tables, dataset: string, fs: seq<string>, id: string)
    ensures var r := CollectResults(tables, dataset, fs, id);
            && (r.Success? <==> forall f :: f in fs ==> CachedResult(tables, TableName(dataset, f), id).Success?)
            && (r.Success? ==>
                  && r.value.Keys == Elems(fs)
                  && forall f :: f in r.value ==> CachedResult(tables, TableName(dataset, f), id) == Success(r.value[f]))
            && (r.Failure? ==>
                  exists i :: 0 <= i < |fs|
                    && r.error == NoSuchTable(TableName(dataset, fs[i]))
                    && CachedResult(tables, TableName(dataset, fs[i]), id).Failure?
                    && forall j :: 0 <= j < i ==> CachedResult(tables, TableName(dataset, fs[j]), id).Success?)
    decreases |fs|
  {
    CollectSucceeds(tables, dataset, fs, id);
    CollectFailsFirst(tables, dataset, fs, id);
  }

  /** Every function in `fs` has a table holding (or not) a cached entry for `id`. */
  ghost predicate AllCached(tables: Tables, dataset: string, fs: seq<string>, id: string) {
    forall f :: f in fs ==> CachedResult(tables, TableName(dataset, f), id).Success?
  }

  /** The lookups succeed exactly when every table exists, and then hold one cached entry per function. */
  lemma {:induction false} CollectSucceeds(tables: Tables, dataset: string, fs: seq<string>, id: string)
    ensures var r := CollectResults(tables, dataset, fs, id);
            && (r.Success? <==> AllCached(tables, dataset, fs, id))
            && (r.Success? ==>
                  && r.value.Keys == Elems(fs)
                  && forall f :: f in r.value ==> CachedResult(tables, TableName(dataset, f), id) == Success(r.value[f]))
    decreases |fs|
  {
    if |fs| > 0 {
      var n := |fs| - 1;
      var init, f := fs[..n], fs[n];
      CollectSucceeds(tables, dataset, init, id);
      InitLast(fs);
      assert forall g :: g in fs <==> g in init || g == f;
      assert AllCached(tables, dataset, fs, id) <==>
             AllCached(tables, dataset, init, id) && CachedResult(tables, TableName(dataset, f), id).Success?;
    }
  }

  /** A failed lookup is the first function whose table is missing. */
  lemma {:induction false} CollectFailsFirst(tables: Tables, dataset: string, fs: seq<string>, id: string)
    ensures var r := CollectResults(tables, dataset, fs, id);
            r.Failure? ==>
              exists i :: 0 <= i < |fs|
                && r.error == NoSuchTable(TableName(dataset, fs[i]))
                && CachedResult(tables, TableName(dataset, fs[i]), id).Failure?
                && forall j :: 0 <= j < i ==> CachedResult(tables, TableName(dataset, fs[j]), id).Success?
    decreases |fs|
  {
    if |fs| > 0 {
      var n := |fs| - 1;
      var init, f := fs[..n], fs[n];
      var prev := CollectResults(tables, dataset, init, id);
      if prev.Failure? {
        CollectFailsFirst(tables, dataset, init, id);
        var i :| 0 <= i < |init| && prev.error == NoSuchTable(TableName(dataset, init[i]))
                 && CachedResult(tables, TableName(dataset, init[i]), id).Failure?
                 && forall j :: 0 <= j < i ==> CachedResult(tables, TableName(dataset, init[j]), id).Success?;
        assert fs[i] == init[i];
        assert forall j :: 0 <= j < i ==> fs[j] == init[j];
      } else {
        CollectSucceeds(tables, dataset, init, id);
        assert forall j :: 0 <= j < n ==> fs[j] in init;
      }
    }
  }

  /** A failure on a prefix of the functions is the failure of the whole run. */
  lemma {:induction false} CollectPrefixFails(tables: Tables, dataset: string, fs: seq<string>, k: nat, id: string)
    requires k <= |fs| && CollectResults(tables, dataset, fs[..k], id).Failure?
    ensures CollectResults(tables, dataset, fs, id) == CollectResults(tables, dataset, fs[..k], id)
    decreases |fs|
  {
    if k < |fs| {
      var init := fs[..|fs| - 1];
      assert init[..k] == fs[..k];
      CollectPrefixFails(tables, dataset, init, k, id);
    } else {
      assert fs[..k] == fs;
    }
  }

  /**
   * `get_all_results`: an unknown dataset fails; otherwise one cached entry
   * (or none) per function of the dataset, or the error of the first
   * function whose table is missing.
   */
  lemma AllResultsMeaning(tables: Tables, dataset: string, id: string)
    ensures var r := AllResults(tables, dataset, id);
            && (dataset !in FunctionMap ==> r == Failure(InvalidDataset(dataset)))
            && (dataset in FunctionMap ==>
                  var fs := FunctionMap[dataset];
                  && (r.Success? <==> forall f :: f in fs ==> CachedResult(tables, TableName(dataset, f), id).Success?)
                  && (r.Success? ==>
                        && r.value.Keys == Elems(fs)
                        && forall f :: f in r.value ==> CachedResult(tables, TableName(dataset, f), id) == Success(r.value[f]))
                  && (r.Failure? ==>
                        exists i :: 0 <= i < |fs|
                          && r.error == NoSuchTable(TableName(dataset, fs[i]))
                          && forall j :: 0 <= j < i ==> CachedResult(tables, TableName(dataset, fs[j]), id).Success?))
  {
    if dataset in FunctionMap {
      CollectResultsMeaning(tables, dataset, FunctionMap[dataset], id);
    }
  }

  /** The resolver service: the shared database and the compute functions it dispatches to. */
  class FunctionResolver {
    const db: Database
    const compute: Call -> Computation
    /** Every compute call made so far, in order. */
    ghost var calls: seq<Call>

    constructor (db: Database, compute: Call -> Computation)
      ensures this.db == db && this.compute == compute && calls == []
    {
      this.db := db;
      this.compute := compute;
      calls := [];
    }

    /** `resolve`; `now` is the clock reading taken once the payload is computed. */
    method Resolve(dataset: string, func: string, id: string, sessionId: string, userId: string,
                   refresh: bool, now: string) returns (r: Result<Resolution, Error>)
      modifies db, this
      ensures var o := ResolveSpec(old(db.tables), compute, Request(dataset, func, id, sessionId, userId, refresh), now);
              && r == o.result
              && db.tables == o.tables
              && calls == old(calls) + (if o.call.Some? then [o.call.value] else [])
    {
      if dataset !in FunctionMap {
        return Failure(InvalidDataset(dataset));
      }
      if func !in FunctionMap[dataset] {
        return Failure(InvalidFunction(func, dataset));
      }
      FunctionMapShape(dataset);
      var config := GetDatasetConfig(dataset).value;
      var raw := RawRowsOf(db.tables, config.table);
      if raw.Failure? {
        return Failure(raw.error);
      }
      if id !in raw.value {
        return Failure(RecordNotFound(id, dataset));
      }
      var context := Context(config, id, raw.value[id]);
      if context.Failure? {
        return Failure(context.error);
      }
      var table := TableName(dataset, func);
      if !refresh {
        var cached := CachedResult(db.tables, table, id);
        if cached.Failure? {
          return Failure(cached.error);
        }
        if cached.value.Some? {
          return Success(Resolution(FromCache, cached.value.value.payload, cached.value.value.createdAt));
        }
      }
      var call := Call(dataset, func, id, sessionId, userId, context.value);
      calls := calls + [call];
      var computation := compute(call);
      if computation.Raised? {
        return Failure(ComputeFailed(func, computation.message));
      }
      var createdAt := now + "Z";
      var stored := StoreResult(db.tables, table, id, Entry(computation.payload, createdAt));
      if stored.Failure? {
        return Failure(stored.error);
      }
      db.tables := stored.value;
      r := Success(Resolution(FromCompute, computation.payload, createdAt));
    }

    /**
     * `get_all_results`: one entry per resolver function of the dataset,
     * the stored entry or None; it never computes and never writes.
     */
    method GetAllResults(dataset: string, id: string) returns (r: Result<map<string, Option<Entry>>, Error>)
      ensures r == AllResults(db.tables, dataset, id)
    {
      if dataset !in FunctionMap {
        return Failure(InvalidDataset(dataset));
      }
      var fs := FunctionMap[dataset];
      var results: map<string, Option<Entry>> := map[];
      var i := 0;
      while i < |fs|
        invariant 0 <= i <= |fs|
        invariant CollectResults(db.tables, dataset, fs[..i], id) == Success(results)
      {
        assert fs[..i + 1][..i] == fs[..i];
        var cached := CachedResult(db.tables, TableName(dataset, fs[i]), id);
        if cached.Failure? {
          CollectPrefixFails(db.tables, dataset, fs, i + 1, id);
          return Failure(cached.error);
        }
        results := results[fs[i] := cached.value];
        i := i + 1;
      }
      assert fs[..i] == fs;
      r := Success(results);
    }

    /**
     * `clear_cache`: delete the id's rows (or all rows) from the named
     * function's table (or every function's table) and count them.
     */
    method ClearCache(dataset: string, func: Option<string>, id: Option<string>) returns (r: Result<nat, Error>)
      modifies db
      ensures var c := ClearSpec(old(db.tables), dataset, func, id);
              r == c.result && db.tables == c.tables
    {
      if dataset !in FunctionMap {
        return Failure(InvalidDataset(dataset));
      }
      var names := Targets(dataset, func);
      var key := KeyFilter(id);
      var cleared: nat := 0;
      var i := 0;
      while i < |names|
        invariant 0 <= i <= |names|
        invariant ClearTables(db.tables, names[i..], key, cleared) == ClearSpec(old(db.tables), dataset, func, id)
      {
        assert names[i..][1..] == names[i + 1..];
        if names[i] !in db.tables {
          return Failure(NoSuchTable(names[i]));
        }
        var deletion := DeleteRows(db.tables[names[i]], key);
        db.tables := db.tables[names[i] := deletion.table];
        cleared := cleared + deletion.count;
        i := i + 1;
      }
      r := Success(cleared);
    }
  }
}
