/**
 * Exporting one AI function's stored results as CSV.  Each raw row becomes a
 * record: the decoded `raw_data` blob first, then the columns as fallbacks
 * for the fields the blob lacks.  The header lists every field once, in the
 * order it was first registered, and every output row carries the stored
 * payload as JSON, or an empty cell when nothing is stored.  The file itself
 * is not written: the export returns its header and rows.  `json.dumps` is
 * the parameter `dumps`.
 */
module BulkExport {
  import opened Values
  import opened Seqs
  import opened Strings
  import opened Store
  import opened DatasetConfigs
  import Resolver

  // ------------------------------------------------------------ hydration

  /** The record before any fallback: a dict blob's entries, any other blob under "raw_data". */
  function Decoded(blob: Blob): (d: Dict)
    ensures WellFormed(d)
  {
    match blob
    case NoBlob => EmptyDict
    case Parsed(v) => if v.Obj? then Update(EmptyDict, v.d) else Put(EmptyDict, "raw_data", v)
    case Undecodable(text) => Put(EmptyDict, "raw_data", Str(text))
  }

  /** One `record_data.setdefault(field, value)` call. */
  datatype Default = Default(field: string, value: Value)

  /** A default for a field the configuration may leave unset (`if config.x_field:`). */
  function OptionalDefault(field: Option<string>, v: Value): seq<Default> {
    if field.Some? && field.value != "" then [Default(field.value, v)] else []
  }

  /**
   * The fallbacks in the order they are applied: the dataset's own column
   * names, then the generic aliases; a falsy column (NULL or "") becomes "".
   */
  function Fallbacks(config: DatasetConfig, id: string, row: RawRow): seq<Default> {
    [Default(config.keyField, Str(id)), Default(config.titleField, OrEmpty(row.title))]
    + OptionalDefault(config.categoryField, OrEmpty(row.category))
    + [Default(config.themeField, OrEmpty(row.theme))]
    + OptionalDefault(config.subthemeField, OrEmpty(row.subtheme))
    + [Default("title", OrEmpty(row.title)), Default("category", OrEmpty(row.category)),
       Default("risk_theme", OrEmpty(row.theme)), Default("risk_subtheme", OrEmpty(row.subtheme))]
  }

  /** The `setdefault` calls applied in order. */
  function SetDefaults(d: Dict, defaults: seq<Default>): (r: Dict)
    requires WellFormed(d)
    ensures WellFormed(r)
    decreases |defaults|
  {
    if |defaults| == 0 then d
    else SetDefaults(SetDefault(d, defaults[0].field, defaults[0].value), defaults[1..])
  }

  function FieldsOf(defaults: seq<Default>): set<string> {
    set x | x in defaults :: x.field
  }

  /** No earlier default names the same field as the `i`-th. */
  predicate FirstFor(defaults: seq<Default>, i: nat)
    requires i < |defaults|
  {
    forall j :: 0 <= j < i ==> defaults[j].field != defaults[i].field
  }

  /**
   * A run of `setdefault` calls adds exactly the defaulted fields, never
   * changes a field that was already there, gives a new field the value of
   * the first default naming it, and keeps the existing keys in front.
   */
  lemma SetDefaultsEffect(d: Dict, defaults: seq<Default>)
    requires WellFormed(d)
    ensures var r := SetDefaults(d, defaults);
            && r.vals.Keys == d.vals.Keys + FieldsOf(defaults)
            && (forall k :: k in d.vals ==> r.vals[k] == d.vals[k])
            && (forall i :: 0 <= i < |defaults| && defaults[i].field !in d.vals && FirstFor(defaults, i) ==>
                  r.vals[defaults[i].field] == defaults[i].value)
            && d.keys <= r.keys
  {
    SetDefaultsKeeps(d, defaults);
    SetDefaultsFields(d, defaults);
    SetDefaultsFirst(d, defaults);
  }

  /** Existing fields keep their value and their place in front. */
  lemma {:induction false} SetDefaultsKeeps(d: Dict, defaults: seq<Default>)
    requires WellFormed(d)
    ensures var r := SetDefaults(d, defaults);
            && (forall k :: k in d.vals ==> k in r.vals && r.vals[k] == d.vals[k])
            && d.keys <= r.keys
    decreases |defaults|
  {
    if |defaults| > 0 {
      var x := defaults[0];
      var d' := SetDefault(d, x.field, x.value);
      SetDefaultsStep(d, defaults);
      SetDefaultsKeeps(d', defaults[1..]);
      var r := SetDefaults(d', defaults[1..]);
      forall k | k in d.vals ensures k in r.vals && r.vals[k] == d.vals[k] {
        assert d'.vals[k] == d.vals[k];
      }
      assert d.keys <= d'.keys;
    }
  }

  /** The result holds exactly the existing fields and the defaulted ones. */
  lemma {:induction false} SetDefaultsFields(d: Dict, defaults: seq<Default>)
    requires WellFormed(d)
    ensures SetDefaults(d, defaults).vals.Keys == d.vals.Keys + FieldsOf(defaults)
    decreases |defaults|
  {
    if |defaults| > 0 {
      var x := defaults[0];
      var d' := SetDefault(d, x.field, x.value);
      SetDefaultsStep(d, defaults);
      SetDefaultsFields(d', defaults[1..]);
      FieldsOfCons(defaults);
      SetDefaultKeys(d, x.field, x.value);
    }
  }

  lemma SetDefaultKeys(d: Dict, k: string, v: Value)
    requires WellFormed(d)
    ensures SetDefault(d, k, v).vals.Keys == d.vals.Keys + {k}
  {
  }

  /** A new field takes the value of the first default naming it. */
  lemma {:induction false} SetDefaultsFirst(d: Dict, defaults: seq<Default>)
    requires WellFormed(d)
    ensures var r := SetDefaults(d, defaults);
            forall i :: 0 <= i < |defaults| && defaults[i].field !in d.vals && FirstFor(defaults, i) ==>
              defaults[i].field in r.vals && r.vals[defaults[i].field] == defaults[i].value
    decreases |defaults|
  {
    if |defaults| > 0 {
      var x := defaults[0];
      var rest := defaults[1..];
      var d' := SetDefault(d, x.field, x.value);
      SetDefaultsStep(d, defaults);
      SetDefaultsFirst(d', rest);
      SetDefaultsKeeps(d', rest);
      var r := SetDefaults(d', rest);
      forall i | 0 <= i < |defaults| && defaults[i].field !in d.vals && FirstFor(defaults, i)
        ensures defaults[i].field in r.vals && r.vals[defaults[i].field] == defaults[i].value
      {
        if i > 0 {
          FirstForTail(defaults, i);
          assert defaults[i].field !in d'.vals;
        } else {
          assert d'.vals[x.field] == x.value;
        }
      }
    }
  }

  lemma SetDefaultsStep(d: Dict, defaults: seq<Default>)
    requires WellFormed(d) && |defaults| > 0
    ensures SetDefaults(d, defaults)
         == SetDefaults(SetDefault(d, defaults[0].field, defaults[0].value), defaults[1..])
  {
  }

  lemma FieldsOfCons(defaults: seq<Default>)
    requires |defaults| > 0
    ensures FieldsOf(defaults) == {defaults[0].field} + FieldsOf(defaults[1..])
  {
    assert defaults == [defaults[0]] + defaults[1..];
  }

  lemma FirstForTail(defaults: seq<Default>, i: nat)
    requires 0 < i < |defaults| && FirstFor(defaults, i)
    ensures defaults[0].field != defaults[i].field
    ensures defaults[i] == defaults[1..][i - 1] && FirstFor(defaults[1..], i - 1)
  {
    var rest := defaults[1..];
    forall j | 0 <= j < i - 1 ensures rest[j].field != rest[i - 1].field {
      assert rest[j] == defaults[j + 1];
    }
  }

  /** `_hydrate_record`: the decoded blob, then every fallback column the blob does not hold. */
  function HydrateRecord(config: DatasetConfig, id: string, row: RawRow): (r: Dict)
    ensures WellFormed(r)
  {
    SetDefaults(Decoded(row.rawData), Fallbacks(config, id, row))
  }

  /** A dict blob is merged key by key, in its own order, and its values win over every fallback column. */
  lemma HydrateBlobWins(config: DatasetConfig, id: string, row: RawRow)
    requires row.rawData.Parsed? && row.rawData.value.Obj? && WellFormed(row.rawData.value.d)
    ensures var src := row.rawData.value.d;
            var r := HydrateRecord(config, id, row);
            && src.keys <= r.keys
            && forall k :: k in src.vals ==> r.vals[k] == src.vals[k]
  {
    UpdateEmpty(row.rawData.value.d);
    SetDefaultsEffect(Decoded(row.rawData), Fallbacks(config, id, row));
  }

  /** A blob that decodes to something other than a dict, or does not decode at all, is kept under "raw_data". */
  lemma HydrateRawData(config: DatasetConfig, id: string, row: RawRow)
    requires row.rawData.Undecodable? || (row.rawData.Parsed? && !row.rawData.value.Obj?)
    ensures var r := HydrateRecord(config, id, row);
            && |r.keys| > 0 && r.keys[0] == "raw_data"
            && r.vals["raw_data"] == if row.rawData.Undecodable? then Str(row.rawData.text) else row.rawData.value
  {
    var base := Decoded(row.rawData);
    assert base.keys == ["raw_data"];
    SetDefaultsEffect(base, Fallbacks(config, id, row));
  }

  /**
   * The record holds the blob's fields and every fallback field; a field the
   * blob lacks takes the column of the first fallback that names it.
   */
  lemma HydrateFallbacks(config: DatasetConfig, id: string, row: RawRow)
    ensures var r := HydrateRecord(config, id, row);
            var fb := Fallbacks(config, id, row);
            var base := Decoded(row.rawData);
            && r.vals.Keys == base.vals.Keys + FieldsOf(fb)
            && (forall k :: k in base.vals ==> r.vals[k] == base.vals[k])
            && (forall i :: 0 <= i < |fb| && fb[i].field !in base.vals && FirstFor(fb, i) ==>
                  r.vals[fb[i].field] == fb[i].value)
  {
    SetDefaultsEffect(Decoded(row.rawData), Fallbacks(config, id, row));
  }

  // ------------------------------------------------------------ cells

  /**
   * `_serialize_for_csv`: None is the empty cell, a dict or list is its JSON
   * text, anything else is `str(value)`.
   */
  function SerializeForCsv(v: Value, dumps: Value -> string): (r: string)
    ensures v.Null? ==> r == ""
    ensures v.Obj? || v.List? ==> r == dumps(v)
    ensures v.Str? ==> r == v.s
    ensures v.Bool? ==> r == (if v.b then "True" else "False")
    ensures v.Int? ==> r == IntToString(v.i)
  {
    match v
    case Null => ""
    case Obj(_) => dumps(v)
    case List(_) => dumps(v)
    case Str(s) => s
    case Bool(b) => if b then "True" else "False"
    case Int(i) => IntToString(i)
  }

  /** A fallback column exports as its text, and a NULL one as the empty cell. */
  lemma FallbackCell(v: Value, dumps: Value -> string)
    requires v.Null? || v.Str?
    ensures SerializeForCsv(OrEmpty(v), dumps) == if v.Str? then v.s else ""
  {
  }

  // ------------------------------------------------------------ header

  /**
   * `register_field` and the list and set it updates: a field is appended
   * the first time it is registered.  `names` is every registration so far.
   */
  class FieldRegistry {
    var order: seq<string>
    var seen: set<string>
    ghost var names: seq<string>

    ghost predicate Valid()
      reads this
    {
      && order == Dedupe(names)
      && seen == Elems(names)
      && Distinct(order)
      && Elems(order) == seen
    }

    constructor ()
      ensures Valid() && names == [] && order == []
    {
      order := [];
      seen := {};
      names := [];
    }

    method Register(field: string)
      requires Valid()
      modifies this
      ensures Valid()
      ensures names == old(names) + [field]
      ensures order == if field in old(seen) then old(order) else old(order) + [field]
    {
      DedupeStep(names, field);
      DedupeElems(names + [field]);
      if field !in seen {
        seen := seen + {field};
        order := order + [field];
      }
      names := names + [field];
    }

    /** Registers each field in turn. */
    method RegisterAll(fields: seq<string>)
      requires Valid()
      modifies this
      ensures Valid() && names == old(names) + fields
    {
      for i := 0 to |fields|
        invariant Valid() && names == old(names) + fields[..i]
      {
        PrefixStep(old(names), fields, i);
        Register(fields[i]);
      }
      assert fields[..|fields|] == fields;
    }
  }

  /** The names that are set, in order (`for field in (...): if field:`). */
  function NonEmptyNames(fs: seq<Option<string>>): seq<string>
    decreases |fs|
  {
    if |fs| == 0 then []
    else
      var f := fs[|fs| - 1];
      NonEmptyNames(fs[..|fs| - 1]) + (if f.Some? && f.value != "" then [f.value] else [])
  }

  /** The configured column names, then the generic aliases. */
  function ColumnNames(config: DatasetConfig): seq<Option<string>> {
    [Some(config.titleField), config.categoryField, Some(config.themeField), config.subthemeField,
     Some("title"), Some("category"), Some("risk_theme"), Some("risk_subtheme")]
  }

  /** The names registered before any record: the key field first. */
  function LeadingFields(config: DatasetConfig): seq<string> {
    [config.keyField] + NonEmptyNames(ColumnNames(config))
  }

  /** The keys of every record, record by record. */
  function KeysOf(records: seq<Dict>): seq<string>
    decreases |records|
  {
    if |records| == 0 then [] else KeysOf(records[..|records| - 1]) + records[|records| - 1].keys
  }

  /** The CSV header: every registered field once, then the AI function's column unless already a field. */
  function Header(config: DatasetConfig, records: seq<Dict>, ai: string): seq<string> {
    var order := Dedupe(LeadingFields(config) + KeysOf(records));
    if ai in order then order else order + [ai]
  }

  /** The first element of a non-empty sequence is the first one kept. */
  lemma DedupeHead(xs: seq<string>)
    requires |xs| > 0
    ensures |Dedupe(xs)| > 0 && Dedupe(xs)[0] == xs[0]
  {
    DedupeElems(xs);
    DedupeOrder(xs);
    var d := Dedupe(xs);
    assert xs[0] in Elems(d);
    var p :| 0 <= p < |d| && d[p] == xs[0];
    assert FirstIndex(xs, xs[0]) == 0;
  }

  /**
   * The header lists each field once, the key field first, every registered
   * field in the order of its first registration, and the AI function's
   * column, last when no record has that field.
   */
  lemma HeaderShape(config: DatasetConfig, records: seq<Dict>, ai: string)
    ensures var h := Header(config, records, ai);
            var fs := LeadingFields(config) + KeysOf(records);
            && Distinct(h)
            && |h| > 0 && h[0] == config.keyField
            && Elems(h) == Elems(fs) + {ai}
            && (ai !in fs ==> h[|h| - 1] == ai)
            && (forall i, j :: 0 <= i < j < |h| && h[j] in fs ==>
                  h[i] in fs && FirstIndex(fs, h[i]) < FirstIndex(fs, h[j]))
  {
    var fs := LeadingFields(config) + KeysOf(records);
    var d := Dedupe(fs);
    DedupeElems(fs);
    DedupeOrder(fs);
    DedupeHead(fs);
    var h := Header(config, records, ai);
    assert ai in d <==> ai in fs by {
      assert ai in d <==> ai in Elems(d);
    }
    if ai !in d {
      assert h == d + [ai];
      forall i, j | 0 <= i < j < |h| && h[j] in fs
        ensures h[i] in fs && FirstIndex(fs, h[i]) < FirstIndex(fs, h[j])
      {
        assert j < |d|;
      }
    }
    assert Elems(h) == Elems(d) + {ai};
  }

  // ------------------------------------------------------------ export

  /** What the export returns: the output path, the rows it wrote, how many there are and how many lacked a result. */
  datatype Export = Export(path: string, header: seq<string>, rows: seq<map<string, string>>, count: nat, missing: nat)

  /** The output path when none is given. */
  function DefaultPath(dataset: string, ai: string): string {
    dataset + "_" + ai + "_export.csv"
  }

  /** The header of an empty export: the key field, each configured column name once, and the AI function. */
  function EmptyHeader(config: DatasetConfig, ai: string): seq<string> {
    Dedupe([config.keyField] + NonEmptyNames(ColumnNames(config)[..4])) + [ai]
  }

  /** The records of the rows, in the order of `ids`. */
  function Hydrated(config: DatasetConfig, ids: seq<string>, rows: map<string, RawRow>): (r: seq<Dict>)
    requires forall i :: 0 <= i < |ids| ==> ids[i] in rows
    ensures |r| == |ids|
  {
    seq(|ids|, i requires 0 <= i < |ids| => HydrateRecord(config, ids[i], rows[ids[i]]))
  }

  /** One output row: the record's value for each header field, and the stored payload in the AI function's column. */
  function OutputRow(header: seq<string>, record: Dict, ai: string, entry: Option<Entry>, dumps: Value -> string)
    : map<string, string>
  {
    (map f | f in header && f != ai :: SerializeForCsv(GetOr(record, f, Null), dumps))
      [ai := if entry.Some? then dumps(entry.value.payload) else ""]
  }

  function OutputRows(header: seq<string>, ids: seq<string>, records: seq<Dict>, entries: map<string, Entry>,
                      ai: string, dumps: Value -> string): (r: seq<map<string, string>>)
    requires |records| == |ids|
    ensures |r| == |ids|
  {
    seq(|ids|, i requires 0 <= i < |ids| =>
      OutputRow(header, records[i], ai, if ids[i] in entries then Some(entries[ids[i]]) else None, dumps))
  }

  /** The number of ids without a stored result. */
  function Missing(ids: seq<string>, entries: map<string, Entry>): nat
    decreases |ids|
  {
    if |ids| == 0 then 0
    else Missing(ids[..|ids| - 1], entries) + (if ids[|ids| - 1] in entries then 0 else 1)
  }

  /** Over distinct ids, the missing count is the number of ids the results table does not hold. */
  lemma {:induction false} MissingCount(ids: seq<string>, entries: map<string, Entry>)
    requires Distinct(ids)
    ensures Missing(ids, entries) == |Elems(ids) - entries.Keys|
    decreases |ids|
  {
    if |ids| > 0 {
      var init, last := ids[..|ids| - 1], ids[|ids| - 1];
      DistinctSnoc(ids);
      MissingCount(init, entries);
      assert ids == init + [last];
      DedupeStep(init, last);
      DiffAddOne(Elems(init), last, entries.Keys);
    }
  }

  /** Adding a new element to a set adds one to what it holds outside `k`, unless `k` holds it. */
  lemma DiffAddOne(a: set<string>, x: string, k: set<string>)
    requires x !in a
    ensures |(a + {x}) - k| == |a - k| + (if x in k then 0 else 1)
  {
    if x in k {
      assert (a + {x}) - k == a - k;
    } else {
      assert (a + {x}) - k == (a - k) + {x};
    }
  }

  /**
   * `export_ai_data` as a function of the tables: the raw rows in key order
   * (`ORDER BY` the key), hydrated, registered and written one per row.
   */
  ghost function ExportSpec(tables: Tables, dataset: string, ai: string, output: Option<string>,
                            dumps: Value -> string): Result<Export, Error>
  {
    match GetDatasetConfig(dataset)
    case Failure(e) => Failure(e)
    case Success(config) =>
      if ai !in config.aiFunctions then Failure(InvalidAiFunction(ai, config.aiFunctions))
      else
        match RawRowsOf(tables, config.table)
        case Failure(e) => Failure(e)
        case Success(rows) =>
          var path := if output.Some? then output.value else DefaultPath(dataset, ai);
          if |rows| == 0 then Success(Export(path, EmptyHeader(config, ai), [], 0, 0))
          else ExportRowsSpec(tables, dataset, config, ai, rows, path, dumps)
  }

  /** The export of a non-empty raw table. */
  ghost function ExportRowsSpec(tables: Tables, dataset: string, config: DatasetConfig, ai: string,
                                rows: map<string, RawRow>, path: string, dumps: Value -> string): Result<Export, Error>
  {
    var ids := Sorted(rows.Keys);
    SortedIsSorted(rows.Keys);
    var records := Hydrated(config, ids, rows);
    var header := Header(config, records, ai);
    match EntriesOf(tables, Resolver.TableName(dataset, ai))
    case Failure(e) => Failure(e)
    case Success(entries) =>
      Success(Export(path, header, OutputRows(header, ids, records, entries, ai, dumps), |ids|,
                     Missing(ids, entries)))
  }

  /**
   * An unknown dataset or AI function fails; otherwise one row per raw row,
   * a header with each field once and the key field first, and a missing
   * count equal to the number of raw rows without a stored result.
   */
  lemma ExportAccounts(tables: Tables, dataset: string, ai: string, output: Option<string>, dumps: Value -> string)
    ensures var r := ExportSpec(tables, dataset, ai, output, dumps);
            && (dataset !in DatasetNames ==> r == Failure(UnknownDataset(dataset)))
            && (dataset in DatasetNames && ai !in Configs[dataset].aiFunctions ==>
                  r == Failure(InvalidAiFunction(ai, Configs[dataset].aiFunctions)))
            && (r.Success? ==>
                  var config := Configs[dataset];
                  var rows := tables[config.table].rows;
                  && r.value.count == |rows| == |r.value.rows|
                  && |r.value.header| > 0 && r.value.header[0] == config.keyField
                  && ai in r.value.header
                  && (|rows| == 0 ==> r.value.missing == 0 && r.value.header == EmptyHeader(config, ai))
                  && (|rows| > 0 ==>
                        && Distinct(r.value.header)
                        && r.value.missing == |rows.Keys - tables[Resolver.TableName(dataset, ai)].entries.Keys|))
  {
    var r := ExportSpec(tables, dataset, ai, output, dumps);
    if r.Success? {
      var config := Configs[dataset];
      var rows := tables[config.table].rows;
      if |rows| == 0 {
        DedupeHead([config.keyField] + NonEmptyNames(ColumnNames(config)[..4]));
      } else {
        var path := if output.Some? then output.value else DefaultPath(dataset, ai);
        assert r == ExportRowsSpec(tables, dataset, config, ai, rows, path, dumps);
        ExportRowsShape(tables, dataset, config, ai, rows, path, dumps);
      }
    }
  }

  /**
   * For a configured dataset and function, the export succeeds exactly when
   * the raw table exists and, when it has rows, so does the function's
   * result table; a missing table fails with its name.
   */
  lemma ExportSucceeds(tables: Tables, dataset: string, ai: string, output: Option<string>, dumps: Value -> string)
    requires dataset in DatasetNames && ai in Configs[dataset].aiFunctions
    ensures var raw := Configs[dataset].table;
            var results := Resolver.TableName(dataset, ai);
            var r := ExportSpec(tables, dataset, ai, output, dumps);
            && (r.Success? <==> raw in tables && tables[raw].RawTable? &&
                                (|tables[raw].rows| > 0 ==> results in tables && tables[results].ResultTable?))
            && (!(raw in tables && tables[raw].RawTable?) ==> r == Failure(NoSuchTable(raw)))
  {
  }

  /** The export of a non-empty raw table: one row per raw row, a duplicate-free header, and the missing count. */
  lemma ExportRowsShape(tables: Tables, dataset: string, config: DatasetConfig, ai: string,
                        rows: map<string, RawRow>, path: string, dumps: Value -> string)
    requires ExportRowsSpec(tables, dataset, config, ai, rows, path, dumps).Success?
    ensures var e := ExportRowsSpec(tables, dataset, config, ai, rows, path, dumps).value;
            && e.count == |rows| == |e.rows|
            && |e.header| > 0 && e.header[0] == config.keyField && ai in e.header
            && Distinct(e.header)
            && e.missing == |rows.Keys - tables[Resolver.TableName(dataset, ai)].entries.Keys|
  {
    var ids := Sorted(rows.Keys);
    SortedDistinct(rows.Keys);
    MissingCount(ids, tables[Resolver.TableName(dataset, ai)].entries);
    HeaderBasics(config, Hydrated(config, ids, rows), ai);
  }

  /** The header is duplicate-free, starts with the key field and holds the AI function's column. */
  lemma HeaderBasics(config: DatasetConfig, records: seq<Dict>, ai: string)
    ensures var h := Header(config, records, ai);
            Distinct(h) && |h| > 0 && h[0] == config.keyField && ai in h
  {
    HeaderShape(config, records, ai);
    assert ai in Elems(Header(config, records, ai));
  }

  /**
   * Row `i` is the `i`-th raw row in key order: each header field holds the
   * record's value as a CSV cell, and the AI function's column holds the
   * stored payload as JSON, or "" when nothing is stored.
   */
  lemma ExportCells(tables: Tables, dataset: string, ai: string, output: Option<string>, dumps: Value -> string, i: nat)
    requires ExportSpec(tables, dataset, ai, output, dumps).Success?
    requires i < |ExportSpec(tables, dataset, ai, output, dumps).value.rows|
    ensures var r := ExportSpec(tables, dataset, ai, output, dumps).value;
            var config := Configs[dataset];
            var rows := tables[config.table].rows;
            var entries := tables[Resolver.TableName(dataset, ai)].entries;
            var id := Sorted(rows.Keys)[i];
            && id in rows
            && r.rows[i][ai] == (if id in entries then dumps(entries[id].payload) else "")
            && (forall f :: f in r.header && f != ai ==>
                  r.rows[i][f] == SerializeForCsv(GetOr(HydrateRecord(config, id, rows[id]), f, Null), dumps))
  {
    var config := Configs[dataset];
    var rows := tables[config.table].rows;
    SortedIsSorted(rows.Keys);
    var ids := Sorted(rows.Keys);
    var records := Hydrated(config, ids, rows);
    var entries := tables[Resolver.TableName(dataset, ai)].entries;
    var path := if output.Some? then output.value else DefaultPath(dataset, ai);
    assert |rows| != 0;
    assert ExportSpec(tables, dataset, ai, output, dumps) == ExportRowsSpec(tables, dataset, config, ai, rows, path, dumps);
    OutputRowAt(Header(config, records, ai), ids, records, entries, ai, dumps, i);
  }

  /** Row `i` of the output holds record `i`'s cells and the payload stored for id `i`. */
  lemma OutputRowAt(header: seq<string>, ids: seq<string>, records: seq<Dict>, entries: map<string, Entry>,
                    ai: string, dumps: Value -> string, i: nat)
    requires |records| == |ids| && i < |ids|
    ensures var row := OutputRows(header, ids, records, entries, ai, dumps)[i];
            && ai in row
            && row[ai] == (if ids[i] in entries then dumps(entries[ids[i]].payload) else "")
            && forall f :: f in header && f != ai ==> f in row && row[f] == SerializeForCsv(GetOr(records[i], f, Null), dumps)
  {
  }

  /** The loop over the configured column names that builds an empty export's header. */
  method EmptyHeaderFields(config: DatasetConfig) returns (base: seq<string>)
    ensures base == Dedupe([config.keyField] + NonEmptyNames(ColumnNames(config)[..4]))
  {
    var fields := ColumnNames(config)[..4];
    base := [config.keyField];
    assert [config.keyField] == [config.keyField] + NonEmptyNames(fields[..0]);
    assert Dedupe([config.keyField]) == [config.keyField] by {
      assert [config.keyField] == [] + [config.keyField];
      DedupeSnoc([], config.keyField);
    }
    for i := 0 to |fields|
      invariant base == Dedupe([config.keyField] + NonEmptyNames(fields[..i]))
    {
      NonEmptyNamesSnoc([config.keyField], fields, i);
      if fields[i].Some? && fields[i].value != "" {
        DedupeSnoc([config.keyField] + NonEmptyNames(fields[..i]), fields[i].value);
        if fields[i].value !in base {
          base := base + [fields[i].value];
        }
      }
    }
    assert fields[..|fields|] == fields;
  }

  /** One more column name, after a fixed prefix. */
  lemma NonEmptyNamesSnoc(prefix: seq<string>, fs: seq<Option<string>>, i: nat)
    requires i < |fs|
    ensures prefix + NonEmptyNames(fs[..i + 1]) ==
              if fs[i].Some? && fs[i].value != "" then prefix + NonEmptyNames(fs[..i]) + [fs[i].value]
              else prefix + NonEmptyNames(fs[..i])
  {
    assert fs[..i + 1][..i] == fs[..i];
  }

  /** Registers the key field, then each configured column name and generic alias that is set. */
  method RegisterLeading(registry: FieldRegistry, config: DatasetConfig)
    requires registry.Valid() && registry.names == []
    modifies registry
    ensures registry.Valid() && registry.names == LeadingFields(config)
  {
    registry.Register(config.keyField);
    RegisterSet(registry, ColumnNames(config));
  }

  /** Registers each name that is set, in order. */
  method RegisterSet(registry: FieldRegistry, fields: seq<Option<string>>)
    requires registry.Valid()
    modifies registry
    ensures registry.Valid() && registry.names == old(registry.names) + NonEmptyNames(fields)
  {
    for i := 0 to |fields|
      invariant registry.Valid() && registry.names == old(registry.names) + NonEmptyNames(fields[..i])
    {
      NonEmptyNamesSnoc(old(registry.names), fields, i);
      if fields[i].Some? && fields[i].value != "" {
        registry.Register(fields[i].value);
      }
    }
    assert fields[..|fields|] == fields;
  }

  /** Hydrates every row in key order, registering each record's keys. */
  method HydrateAll(registry: FieldRegistry, config: DatasetConfig, ids: seq<string>, rows: map<string, RawRow>)
    returns (records: seq<Dict>)
    requires forall i :: 0 <= i < |ids| ==> ids[i] in rows
    requires registry.Valid()
    modifies registry
    ensures registry.Valid()
    ensures records == Hydrated(config, ids, rows)
    ensures registry.names == old(registry.names) + KeysOf(records)
  {
    ghost var all := Hydrated(config, ids, rows);
    records := [];
    for i := 0 to |ids|
      invariant registry.Valid()
      invariant records == all[..i]
      invariant registry.names == old(registry.names) + KeysOf(records)
    {
      var record := HydrateRecord(config, ids[i], rows[ids[i]]);
      assert all[i] == record;
      TakeStep(all, i);
      KeysOfSnoc(old(registry.names), records, record);
      registry.RegisterAll(record.keys);
      records := records + [record];
    }
    assert all[..|ids|] == all;
  }

  lemma KeysOfSnoc(start: seq<string>, records: seq<Dict>, record: Dict)
    ensures start + KeysOf(records + [record]) == start + KeysOf(records) + record.keys
  {
    assert (records + [record])[..|records|] == records;
    assert KeysOf(records + [record]) == KeysOf(records) + record.keys;
  }

  /**
   * Writes one row per record, looking up each id's stored result; the
   * first lookup fails when the results table does not exist.
   */
  method WriteRows(db: Database, table: string, header: seq<string>, ids: seq<string>, records: seq<Dict>, ai: string,
                   dumps: Value -> string) returns (r: Result<(seq<map<string, string>>, nat), Error>)
    requires |records| == |ids| > 0
    ensures EntriesOf(db.tables, table).Failure? ==> r == Failure(NoSuchTable(table))
    ensures EntriesOf(db.tables, table).Success? ==>
              var entries := EntriesOf(db.tables, table).value;
              r == Success((OutputRows(header, ids, records, entries, ai, dumps), Missing(ids, entries)))
  {
    ghost var found := EntriesOf(db.tables, table);
    var out: seq<map<string, string>> := [];
    var missing := 0;
    for i := 0 to |ids|
      invariant i > 0 ==> found.Success?
      invariant found.Success? ==>
                  && missing == Missing(ids[..i], found.value)
                  && out == OutputRows(header, ids[..i], records[..i], found.value, ai, dumps)
    {
      var cached := Resolver.CachedResult(db.tables, table, ids[i]);
      if cached.Failure? {
        return Failure(cached.error);
      }
      OutputRowsSnoc(header, ids, records, found.value, ai, dumps, i);
      var cell := "";
      if cached.value.Some? {
        cell := dumps(cached.value.value.payload);
      } else {
        missing := missing + 1;
      }
      var row := (map f | f in header && f != ai :: SerializeForCsv(GetOr(records[i], f, Null), dumps))[ai := cell];
      out := out + [row];
    }
    assert ids[..|ids|] == ids && records[..|records|] == records;
    r := Success((out, missing));
  }

  /** The rows and the missing count over one more id. */
  lemma OutputRowsSnoc(header: seq<string>, ids: seq<string>, records: seq<Dict>, entries: map<string, Entry>,
                       ai: string, dumps: Value -> string, i: nat)
    requires |records| == |ids| && i < |ids|
    ensures OutputRows(header, ids[..i + 1], records[..i + 1], entries, ai, dumps) ==
              OutputRows(header, ids[..i], records[..i], entries, ai, dumps)
              + [OutputRow(header, records[i], ai, if ids[i] in entries then Some(entries[ids[i]]) else None, dumps)]
    ensures Missing(ids[..i + 1], entries) == Missing(ids[..i], entries) + (if ids[i] in entries then 0 else 1)
  {
    assert ids[..i + 1][..i] == ids[..i];
  }

  /** `export_ai_data`; `output` is the `--output` path, if given. */
  method ExportAiData(db: Database, dataset: string, ai: string, output: Option<string>, dumps: Value -> string)
    returns (r: Result<Export, Error>)
    ensures r == ExportSpec(db.tables, dataset, ai, output, dumps)
  {
    var c := GetDatasetConfig(dataset);
    if c.Failure? {
      return Failure(c.error);
    }
    var config := c.value;
    if ai !in config.aiFunctions {
      return Failure(InvalidAiFunction(ai, config.aiFunctions));
    }
    var raw := RawRowsOf(db.tables, config.table);
    if raw.Failure? {
      return Failure(raw.error);
    }
    var rows := raw.value;
    var path := if output.Some? then output.value else DefaultPath(dataset, ai);
    if |rows| == 0 {
      var base := EmptyHeaderFields(config);
      return Success(Export(path, base + [ai], [], 0, 0));
    }
    r := ExportRows(db, dataset, config, ai, rows, path, dumps);
  }

  /** Registers the fields, then writes the rows of a non-empty raw table in key order. */
  method ExportRows(db: Database, dataset: string, config: DatasetConfig, ai: string, rows: map<string, RawRow>,
                    path: string, dumps: Value -> string) returns (r: Result<Export, Error>)
    requires |rows| > 0
    ensures r == ExportRowsSpec(db.tables, dataset, config, ai, rows, path, dumps)
  {
    var ids := SortSet(rows.Keys);
    assert forall i :: 0 <= i < |ids| ==> ids[i] in rows by {
      assert forall i :: 0 <= i < |ids| ==> ids[i] in Elems(ids);
    }
    var records, header := RegisterAndHydrate(config, ids, rows, ai);
    var written := WriteRows(db, Resolver.TableName(dataset, ai), header, ids, records, ai, dumps);
    if written.Failure? {
      return Failure(written.error);
    }
    r := Success(Export(path, header, written.value.0, |ids|, written.value.1));
  }

  /** The field registration: the leading fields, each record's keys, then the AI function's column if new. */
  method RegisterAndHydrate(config: DatasetConfig, ids: seq<string>, rows: map<string, RawRow>, ai: string)
    returns (records: seq<Dict>, header: seq<string>)
    requires forall i :: 0 <= i < |ids| ==> ids[i] in rows
    ensures records == Hydrated(config, ids, rows)
    ensures header == Header(config, records, ai)
  {
    var registry := new FieldRegistry();
    RegisterLeading(registry, config);
    records := HydrateAll(registry, config, ids, rows);
    header := registry.order;
    if ai !in registry.seen {
      header := header + [ai];
    }
    assert ai in registry.seen <==> ai in registry.order by {
      assert ai in registry.order <==> ai in Elems(registry.order);
    }
  }
}
