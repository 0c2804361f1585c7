/**
 * The dataset access object behind the API: one dataset's raw table, read
 * as items with the dataset's own column names and the availability of each
 * AI result, as pages in key order, and as the details of one record
 * together with every cached AI payload.
 */
module Dao {
  import opened Values
  import opened Seqs
  import opened Strings
  import opened Store
  import opened DatasetConfigs
  import Resolver

  // ---------------------------------------------------------------- records

  /** `json.loads(raw_data) if raw_data else {}`. */
  function RecordOf(blob: Blob): Result<Value, Error> {
    match blob
    case NoBlob => Success(Obj(EmptyDict))
    case Parsed(v) => Success(v)
    case Undecodable(text) => Failure(MalformedJson(text))
  }

  /** `record.get(field, column)`: only a dict has `get`. */
  function Pick(record: Value, field: string, column: Value): Result<Value, Error> {
    if record.Obj? then Success(GetOr(record.d, field, column)) else Failure(NotADict)
  }

  /** The columns every item and every detail view starts with, and the decoded record. */
  function BaseFields(config: DatasetConfig, id: string, row: RawRow, record: Value): (d: Dict)
    ensures WellFormed(d)
  {
    var d0 := Put(EmptyDict, config.keyField, Str(id));
    var d1 := Put(d0, "title", row.title);
    var d2 := Put(d1, "category", row.category);
    var d3 := Put(d2, "risk_theme", row.theme);
    var d4 := Put(d3, "risk_subtheme", row.subtheme);
    Put(d4, "record", record)
  }

  /**
   * The dataset's own column names, each taking the record's value when the
   * record has one and the column otherwise; the category name only when the
   * dataset has one.
   */
  function WithFieldNames(item: Dict, config: DatasetConfig, record: Value, row: RawRow): (r: Result<Dict, Error>)
    requires WellFormed(item) && config.subthemeField.Some?
    ensures r.Success? ==> WellFormed(r.value)
    ensures r.Failure? <==> !record.Obj?
  {
    if !record.Obj? then Failure(NotADict)
    else
      var rec := record.d;
      var d1 := Put(item, config.titleField, GetOr(rec, config.titleField, row.title));
      var d2 := if config.categoryField.Some? && config.categoryField.value != ""
                then Put(d1, config.categoryField.value, GetOr(rec, config.categoryField.value, row.category))
                else d1;
      var d3 := Put(d2, config.themeField, GetOr(rec, config.themeField, row.theme));
      Success(Put(d3, config.subthemeField.value, GetOr(rec, config.subthemeField.value, row.subtheme)))
  }

  // ---------------------------------------------------------------- presence

  /** `_get_ai_presence` over the functions `fs`: whether each function's table holds a row for `id`. */
  function Presence(tables: Tables, dataset: string, fs: seq<string>, id: string): (r: Result<Dict, Error>)
    ensures r.Success? ==> WellFormed(r.value)
    decreases |fs|
  {
    if |fs| == 0 then Success(EmptyDict)
    else
      var f := fs[|fs| - 1];
      var table := Resolver.TableName(dataset, f);
      match Presence(tables, dataset, fs[..|fs| - 1], id)
      case Failure(e) => Failure(e)
      case Success(status) =>
        if table !in tables then Failure(NoSuchTable(table))
        else Success(Put(status, f, Bool(HasRow(tables[table], id))))
  }

  /**
   * One flag per function, in the configured order, true exactly when the
   * function's table has a row for the id; a missing table fails the whole
   * lookup with the first missing table.
   */
  lemma PresenceMeaning(tables: Tables, dataset: string, fs: seq<string>, id: string)
    requires Distinct(fs)
    ensures var r := Presence(tables, dataset, fs, id);
            && (r.Success? <==> forall f :: f in fs ==> Resolver.TableName(dataset, f) in tables)
            && (r.Success? ==>
                  && r.value.keys == fs
                  && forall f :: f in fs ==>
                       r.value.vals[f] == Bool(HasRow(tables[Resolver.TableName(dataset, f)], id)))
            && (r.Failure? ==>
                  exists i :: 0 <= i < |fs|
                    && r.error == NoSuchTable(Resolver.TableName(dataset, fs[i]))
                    && Resolver.TableName(dataset, fs[i]) !in tables
                    && forall j :: 0 <= j < i ==> Resolver.TableName(dataset, fs[j]) in tables)
  {
    PresenceSucceeds(tables, dataset, fs, id);
    if Presence(tables, dataset, fs, id).Success? {
      PresenceFlags(tables, dataset, fs, id);
    } else {
      PresenceFirstMissing(tables, dataset, fs, id);
    }
  }

  lemma {:induction false} PresenceSucceeds(tables: Tables, dataset: string, fs: seq<string>, id: string)
    ensures Presence(tables, dataset, fs, id).Success? <==> forall f :: f in fs ==> Resolver.TableName(dataset, f) in tables
    decreases |fs|
  {
    if |fs| > 0 {
      var n := |fs| - 1;
      PresenceSucceeds(tables, dataset, fs[..n], id);
      assert fs == fs[..n] + [fs[n]];
      assert forall g :: g in fs <==> g in fs[..n] || g == fs[n];
    }
  }

  /** One more function: the flags so far, plus this function's flag. */
  lemma PresenceStep(tables: Tables, dataset: string, fs: seq<string>, id: string)
    requires |fs| > 0 && Presence(tables, dataset, fs, id).Success?
    ensures var n := |fs| - 1;
            var table := Resolver.TableName(dataset, fs[n]);
            && Presence(tables, dataset, fs[..n], id).Success?
            && table in tables
            && Presence(tables, dataset, fs, id).value ==
               Put(Presence(tables, dataset, fs[..n], id).value, fs[n], Bool(HasRow(tables[table], id)))
  { }

  /** The flags of `fs` in `r`: one per function, in order, each telling whether the table has the id. */
  ghost predicate Flags(tables: Tables, dataset: string, fs: seq<string>, id: string, r: Dict) {
    && r.keys == fs
    && forall f :: f in fs ==>
         Resolver.TableName(dataset, f) in tables && f in r.vals && r.vals[f] == Bool(HasRow(tables[Resolver.TableName(dataset, f)], id))
  }

  /** Adding a new function's flag to the flags so far gives the flags of the longer list. */
  lemma FlagsSnoc(tables: Tables, dataset: string, init: seq<string>, f: string, id: string, before: Dict)
    requires WellFormed(before) && Flags(tables, dataset, init, id, before) && f !in init
    requires Resolver.TableName(dataset, f) in tables
    ensures Flags(tables, dataset, init + [f], id,
                  Put(before, f, Bool(HasRow(tables[Resolver.TableName(dataset, f)], id))))
  {
    var r := Put(before, f, Bool(HasRow(tables[Resolver.TableName(dataset, f)], id)));
    assert f !in before.vals by {
      assert f !in Elems(before.keys);
    }
    forall g | g in init + [f]
      ensures Resolver.TableName(dataset, g) in tables && g in r.vals && r.vals[g] == Bool(HasRow(tables[Resolver.TableName(dataset, g)], id))
    {
      if g != f {
        assert g in init;
      }
    }
  }

  lemma {:induction false} PresenceFlags(tables: Tables, dataset: string, fs: seq<string>, id: string)
    requires Distinct(fs) && Presence(tables, dataset, fs, id).Success?
    ensures Flags(tables, dataset, fs, id, Presence(tables, dataset, fs, id).value)
    decreases |fs|
  {
    if |fs| > 0 {
      var n := |fs| - 1;
      var init, f := fs[..n], fs[n];
      InitLast(fs);
      PresenceStep(tables, dataset, fs, id);
      DistinctSnoc(fs);
      PresenceFlags(tables, dataset, init, id);
      FlagsSnoc(tables, dataset, init, f, id, Presence(tables, dataset, init, id).value);
    }
  }



  lemma {:induction false} PresenceFirstMissing(tables: Tables, dataset: string, fs: seq<string>, id: string)
    requires Presence(tables, dataset, fs, id).Failure?
    ensures var e := Presence(tables, dataset, fs, id).error;
            exists i :: 0 <= i < |fs|
              && e == NoSuchTable(Resolver.TableName(dataset, fs[i]))
              && Resolver.TableName(dataset, fs[i]) !in tables
              && forall j :: 0 <= j < i ==> Resolver.TableName(dataset, fs[j]) in tables
    decreases |fs|
  {
    var n := |fs| - 1;
    var init := fs[..n];
    assert forall j :: 0 <= j < n ==> fs[j] == init[j];
    if Presence(tables, dataset, init, id).Failure? {
      PresenceFirstMissing(tables, dataset, init, id);
    } else {
      PresenceSucceeds(tables, dataset, init, id);
      assert forall j :: 0 <= j < n ==> fs[j] in init;
    }
  }

  // ------------------------------------------------------------------ items

  /** `_row_to_item`: decode the record, look up the AI flags, then add the dataset's own column names. */
  function Item(tables: Tables, dataset: string, config: DatasetConfig, id: string, row: RawRow): Result<Dict, Error>
    requires config.subthemeField.Some?
  {
    match RecordOf(row.rawData)
    case Failure(e) => Failure(e)
    case Success(record) =>
      match Presence(tables, dataset, config.aiFunctions, id)
      case Failure(e) => Failure(e)
      case Success(status) =>
        WithFieldNames(Put(BaseFields(config, id, row, record), "ai_status", Obj(status)), config, record, row)
  }

  /** The item of each row `ids[i]`, or the error it raises. */
  function ItemResults(tables: Tables, dataset: string, config: DatasetConfig, ids: seq<string>,
                       rows: map<string, RawRow>): (r: seq<Result<Dict, Error>>)
    requires config.subthemeField.Some?
    requires forall i :: 0 <= i < |ids| ==> ids[i] in rows
    ensures |r| == |ids|
  {
    seq(|ids|, i requires 0 <= i < |ids| => Item(tables, dataset, config, ids[i], rows[ids[i]]))
  }

  /** A list comprehension over calls that may raise: every value in order, or the first error. */
  function Collect<T>(rs: seq<Result<T, Error>>): (r: Result<seq<T>, Error>)
    ensures r.Success? ==> |r.value| == |rs|
    decreases |rs|
  {
    if |rs| == 0 then Success([])
    else
      match Collect(rs[..|rs| - 1])
      case Failure(e) => Failure(e)
      case Success(xs) =>
        match rs[|rs| - 1]
        case Failure(e) => Failure(e)
        case Success(x) => Success(xs + [x])
  }

  /** Element `i` of a successful comprehension is the value of call `i`. */
  lemma CollectAt<T>(rs: seq<Result<T, Error>>, i: nat)
    requires Collect(rs).Success? && i < |rs|
    ensures rs[i] == Success(Collect(rs).value[i])
  {
    CollectMeaning(rs);
  }

  /** One more call: the first error so far wins, then this call's error, else its value is appended. */
  lemma CollectStep<T>(rs: seq<Result<T, Error>>, i: nat)
    requires i < |rs|
    ensures Collect(rs[..i + 1]) ==
              if Collect(rs[..i]).Failure? then Collect(rs[..i])
              else if rs[i].Failure? then Failure(rs[i].error)
              else Success(Collect(rs[..i]).value + [rs[i].value])
  {
    assert rs[..i + 1][..i] == rs[..i];
  }

  /** The comprehension succeeds when every call does, with their values in order; otherwise it raises the first error. */
  lemma {:induction false} CollectMeaning<T>(rs: seq<Result<T, Error>>)
    ensures var r := Collect(rs);
            && (r.Success? <==> forall i :: 0 <= i < |rs| ==> rs[i].Success?)
            && (r.Success? ==> forall i :: 0 <= i < |rs| ==> rs[i] == Success(r.value[i]))
            && (r.Failure? ==>
                  exists i :: 0 <= i < |rs| && rs[i] == Failure(r.error) && forall j :: 0 <= j < i ==> rs[j].Success?)
    decreases |rs|
  {
    if |rs| > 0 {
      var n := |rs| - 1;
      CollectMeaning(rs[..n]);
      assert forall i :: 0 <= i < n ==> rs[..n][i] == rs[i];
    }
  }

  /** A failure on a prefix of the calls is the failure of the whole comprehension. */
  lemma {:induction false} CollectPrefixFails<T>(rs: seq<Result<T, Error>>, k: nat)
    requires k <= |rs| && Collect(rs[..k]).Failure?
    ensures Collect(rs) == Collect(rs[..k])
    decreases |rs|
  {
    if k < |rs| {
      var init := rs[..|rs| - 1];
      assert init[..k] == rs[..k];
      CollectPrefixFails(init, k);
    } else {
      assert rs[..k] == rs;
    }
  }

  // ------------------------------------------------------------------ pages

  /**
   * `LIMIT limit OFFSET offset` over rows in key order, as SQLite reads
   * them: a negative offset counts as zero and a negative limit as no limit.
   */
  function Window(xs: seq<string>, offset: int, limit: int): (r: seq<string>)
    ensures |r| <= |xs|
    ensures limit >= 0 ==> |r| <= limit
  {
    var start := if offset < 0 then 0 else if offset > |xs| then |xs| else offset;
    var end := if limit < 0 || start + limit > |xs| then |xs| else start + limit;
    xs[start..end]
  }

  /** Two consecutive pages are the page that spans both. */
  lemma PagesConcat(xs: seq<string>, offset: nat, limit: nat, limit2: nat)
    ensures Window(xs, offset, limit) + Window(xs, offset + limit, limit2) == Window(xs, offset, limit + limit2)
  {
  }

  /** A page holds the keys at positions `offset`, `offset + 1`, … of the whole ordering. */
  lemma WindowElements(xs: seq<string>, offset: nat, limit: int)
    ensures var w := Window(xs, offset, limit);
            && (offset >= |xs| ==> w == [])
            && (offset < |xs| ==> |w| == (if limit < 0 || offset + limit > |xs| then |xs| - offset else limit))
            && forall i :: 0 <= i < |w| ==> w[i] == xs[offset + i]
  {
  }

  /** Every key of a page of the sorted keys is a key of the table. */
  lemma PageInRows(rows: map<string, RawRow>, offset: int, limit: int)
    ensures forall i :: 0 <= i < |Window(Sorted(rows.Keys), offset, limit)| ==>
              Window(Sorted(rows.Keys), offset, limit)[i] in rows
  {
    var keys := Sorted(rows.Keys);
    SortedIsSorted(rows.Keys);
    var page := Window(keys, offset, limit);
    forall i | 0 <= i < |page| ensures page[i] in rows {
      var start := if offset < 0 then 0 else if offset > |keys| then |keys| else offset;
      assert page[i] == keys[start + i];
      assert keys[start + i] in Elems(keys);
    }
  }

  /** `list_all`: one page of items in key order, and the number of rows in the table. */
  ghost function ListPage(tables: Tables, dataset: string, config: DatasetConfig, offset: int, limit: int)
    : Result<(seq<Dict>, nat), Error>
    requires config.subthemeField.Some?
  {
    match RawRowsOf(tables, config.table)
    case Failure(e) => Failure(e)
    case Success(rows) =>
      var keys := Sorted(rows.Keys);
      var page := Window(keys, offset, limit);
      PageInRows(rows, offset, limit);
      match Collect(ItemResults(tables, dataset, config, page, rows))
      case Failure(e) => Failure(e)
      case Success(items) => Success((items, |rows|))
  }

  /**
   * The total is the number of raw rows; the page has at most `limit` items
   * (when the limit is not negative), and item `i` is the item of the
   * `(offset + i)`-th key in key order.
   */
  lemma ListPageMeaning(tables: Tables, dataset: string, config: DatasetConfig, offset: nat, limit: int)
    requires config.subthemeField.Some?
    requires ListPage(tables, dataset, config, offset, limit).Success?
    ensures var r := ListPage(tables, dataset, config, offset, limit).value;
            var rows := tables[config.table].rows;
            var keys := Sorted(rows.Keys);
            && r.1 == |rows|
            && |r.0| <= |rows|
            && (limit >= 0 ==> |r.0| <= limit)
            && |r.0| == |Window(keys, offset, limit)|
            && forall i :: 0 <= i < |r.0| ==>
                 offset + i < |keys| && keys[offset + i] in rows &&
                 Success(r.0[i]) == Item(tables, dataset, config, keys[offset + i], rows[keys[offset + i]])
  {
    var rows := tables[config.table].rows;
    var keys := Sorted(rows.Keys);
    SortedIsSorted(rows.Keys);
    var page := Window(keys, offset, limit);
    PageInRows(rows, offset, limit);
    var items := ListPage(tables, dataset, config, offset, limit).value.0;
    assert items == Collect(ItemResults(tables, dataset, config, page, rows)).value;
    forall i | 0 <= i < |items|
      ensures offset + i < |keys| && keys[offset + i] in rows
      ensures Success(items[i]) == Item(tables, dataset, config, keys[offset + i], rows[keys[offset + i]])
    {
      ItemAt(tables, dataset, config, rows, keys, offset, limit, i);
    }
  }

  /** Item `i` of a collected page is the item of the `(offset + i)`-th key. */
  lemma ItemAt(tables: Tables, dataset: string, config: DatasetConfig, rows: map<string, RawRow>,
               keys: seq<string>, offset: nat, limit: int, i: nat)
    requires config.subthemeField.Some?
    requires forall i :: 0 <= i < |Window(keys, offset, limit)| ==> Window(keys, offset, limit)[i] in rows
    requires Collect(ItemResults(tables, dataset, config, Window(keys, offset, limit), rows)).Success?
    requires i < |Window(keys, offset, limit)|
    ensures var items := Collect(ItemResults(tables, dataset, config, Window(keys, offset, limit), rows)).value;
            && offset + i < |keys| && keys[offset + i] in rows
            && Success(items[i]) == Item(tables, dataset, config, keys[offset + i], rows[keys[offset + i]])
  {
    var page := Window(keys, offset, limit);
    var results := ItemResults(tables, dataset, config, page, rows);
    CollectAt(results, i);
    WindowElements(keys, offset, limit);
    assert page[i] == keys[offset + i];
    assert results[i] == Item(tables, dataset, config, page[i], rows[page[i]]);
  }


  // ---------------------------------------------------------------- details

  /** The AI payloads of the detail view: each configured function's cached payload, or null. */
  function AiPayloads(fs: seq<string>, results: map<string, Option<Entry>>): (d: Dict)
    ensures WellFormed(d)
    decreases |fs|
  {
    if |fs| == 0 then EmptyDict
    else
      var f := fs[|fs| - 1];
      Put(AiPayloads(fs[..|fs| - 1], results), f,
          if f in results && results[f].Some? then results[f].value.payload else Null)
  }

  /** One payload per function, in the configured order; a function the lookups did not cover is null. */
  lemma {:induction false} AiPayloadsMeaning(fs: seq<string>, results: map<string, Option<Entry>>)
    requires Distinct(fs)
    ensures var d := AiPayloads(fs, results);
            && d.keys == fs
            && forall f :: f in fs ==>
                 d.vals[f] == if f in results && results[f].Some? then results[f].value.payload else Null
    decreases |fs|
  {
    if |fs| > 0 {
      var n := |fs| - 1;
      var init, f := fs[..n], fs[n];
      InitLast(fs);
      DistinctSnoc(fs);
      AiPayloadsMeaning(init, results);
      var before := AiPayloads(init, results);
      var d := Put(before, f, if f in results && results[f].Some? then results[f].value.payload else Null);
      assert AiPayloads(fs, results) == d;
      assert f !in before.vals by {
        assert f !in Elems(init);
      }
      forall g | g in fs
        ensures d.vals[g] == if g in results && results[g].Some? then results[g].value.payload else Null
      {
        if g != f {
          assert g in init;
        }
      }
    }
  }

  /** The detail view of one record: its columns and record, and the AI payloads. */
  datatype Details = Details(raw: Dict, ai: Dict)

  /** `get_details`: no row means no details. */
  function DetailsOf(tables: Tables, dataset: string, config: DatasetConfig, id: string)
    : Result<Option<Details>, Error>
    requires config.subthemeField.Some?
  {
    match RawRowsOf(tables, config.table)
    case Failure(e) => Failure(e)
    case Success(rows) =>
      if id !in rows then Success(None)
      else
        match DetailsOfRow(tables, dataset, config, id, rows[id])
        case Failure(e) => Failure(e)
        case Success(d) => Success(Some(d))
  }

  /** The details of a row that exists: the record, every cached result, then the column names. */
  function DetailsOfRow(tables: Tables, dataset: string, config: DatasetConfig, id: string, row: RawRow)
    : Result<Details, Error>
    requires config.subthemeField.Some?
  {
    match RecordOf(row.rawData)
    case Failure(e) => Failure(e)
    case Success(record) =>
      match Resolver.AllResults(tables, dataset, id)
      case Failure(e) => Failure(e)
      case Success(results) =>
        var ai := AiPayloads(config.aiFunctions, results);
        match WithFieldNames(BaseFields(config, id, row, record), config, record, row)
        case Failure(e) => Failure(e)
        case Success(raw) => Success(Details(raw, ai))
  }

  /** The payload a result table holds for `id`, or null when it holds none. */
  function StoredPayload(tables: Tables, table: string, id: string): Value {
    if table in tables && tables[table].ResultTable? && id in tables[table].entries
    then tables[table].entries[id].payload
    else Null
  }

  /**
   * An id without a row has no details; the AI view has one payload per
   * configured function, the cached one when the resolver serves that
   * function, and null otherwise, so `slow_enrichment`, which the resolver
   * does not serve, is always null (`ConfigNames` and
   * `Resolver.FunctionMapShape` give these requirements for every
   * configured dataset).
   */
  lemma DetailsMeaning(tables: Tables, dataset: string, config: DatasetConfig, id: string)
    requires config.subthemeField.Some? && Distinct(config.aiFunctions)
    requires dataset in Resolver.FunctionMap
    requires "slow_enrichment" in config.aiFunctions && "slow_enrichment" !in Resolver.FunctionMap[dataset]
    ensures var r := DetailsOf(tables, dataset, config, id);
            && (config.table !in tables || !tables[config.table].RawTable? ==> r == Failure(NoSuchTable(config.table)))
            && (config.table in tables && tables[config.table].RawTable? ==>
                  (r == Success(None) <==> id !in tables[config.table].rows))
            && (r.Success? && r.value.Some? ==>
                  var ai := r.value.value.ai;
                  && ai.keys == config.aiFunctions
                  && ai.vals["slow_enrichment"] == Null
                  && forall f :: f in config.aiFunctions ==>
                       ai.vals[f] == if f in Resolver.FunctionMap[dataset]
                                     then StoredPayload(tables, Resolver.TableName(dataset, f), id)
                                     else Null)
  {
    var r := DetailsOf(tables, dataset, config, id);
    if r.Success? && r.value.Some? {
      var row := tables[config.table].rows[id];
      var results := Resolver.AllResults(tables, dataset, id);
      assert results.Success? && r.value.value.ai == AiPayloads(config.aiFunctions, results.value) by {
        DetailsAi(tables, dataset, config, id, row);
      }
      AiView(tables, dataset, config.aiFunctions, id);
    }
  }

  /** The AI view of a row's details is built from the resolver's lookups. */
  lemma DetailsAi(tables: Tables, dataset: string, config: DatasetConfig, id: string, row: RawRow)
    requires config.subthemeField.Some?
    requires DetailsOfRow(tables, dataset, config, id, row).Success?
    ensures Resolver.AllResults(tables, dataset, id).Success?
    ensures DetailsOfRow(tables, dataset, config, id, row).value.ai ==
              AiPayloads(config.aiFunctions, Resolver.AllResults(tables, dataset, id).value)
  {
  }

  /** The AI view over the functions `fs` when every lookup succeeds. */
  lemma AiView(tables: Tables, dataset: string, fs: seq<string>, id: string)
    requires dataset in Resolver.FunctionMap && Distinct(fs)
    requires Resolver.AllResults(tables, dataset, id).Success?
    ensures var ai := AiPayloads(fs, Resolver.AllResults(tables, dataset, id).value);
            && ai.keys == fs
            && forall f :: f in fs ==>
                 ai.vals[f] == if f in Resolver.FunctionMap[dataset]
                               then StoredPayload(tables, Resolver.TableName(dataset, f), id)
                               else Null
  {
    var results := Resolver.AllResults(tables, dataset, id).value;
    Resolver.AllResultsMeaning(tables, dataset, id);
    AiPayloadsMeaning(fs, results);
    forall f | f in fs && f in Resolver.FunctionMap[dataset]
      ensures f in results
    {
      assert f in Elems(Resolver.FunctionMap[dataset]);
    }
  }

  /**
   * An item and the detail view of the same row agree on every field except
   * the AI flags, which only the item carries.
   */
  lemma ItemMatchesDetails(tables: Tables, dataset: string, id: string)
    requires dataset in Configs
    requires var config := Configs[dataset];
             config.table in tables && tables[config.table].RawTable? && id in tables[config.table].rows
    requires var config := Configs[dataset];
             Item(tables, dataset, config, id, tables[config.table].rows[id]).Success?
    requires DetailsOf(tables, dataset, Configs[dataset], id).Success?
    ensures var config := Configs[dataset];
            var item := Item(tables, dataset, config, id, tables[config.table].rows[id]).value;
            var details := DetailsOf(tables, dataset, config, id).value;
            && details.Some?
            && "ai_status" in item.vals
            && item.vals - {"ai_status"} == details.value.raw.vals
  {
    var config := Configs[dataset];
    ConfigNames(dataset);
    var row := tables[config.table].rows[id];
    ItemIs(tables, dataset, config, id, row);
    assert DetailsOf(tables, dataset, config, id).value == Some(DetailsOfRow(tables, dataset, config, id, row).value);
    RawIs(tables, dataset, config, id, row);
    var record := RecordOf(row.rawData).value;
    BaseFieldsKeys(config, id, row, record);
    FieldNamesBesideStatus(config, BaseFields(config, id, row, record), row, record,
                           Obj(Presence(tables, dataset, config.aiFunctions, id).value));
  }

  /** The column names of every configured dataset, and its distinct AI functions. */
  lemma ConfigNames(dataset: string)
    requires dataset in Configs
    ensures var c := Configs[dataset];
            && c.subthemeField.Some? && c.categoryField.Some? && c.categoryField.value != ""
            && "ai_status" != c.keyField && "ai_status" != c.titleField && "ai_status" != c.themeField
            && "ai_status" != c.categoryField.value && "ai_status" != c.subthemeField.value
            && Distinct(c.aiFunctions) && "slow_enrichment" in c.aiFunctions
            && SeparateNames(c)
  {
    ConfigsInvariant(dataset);
  }

  /** The column names added after the AI flags leave the flags removable. */
  lemma FieldNamesBesideStatus(config: DatasetConfig, base: Dict, row: RawRow, record: Value, status: Value)
    requires WellFormed(base) && "ai_status" !in base.vals
    requires config.subthemeField.Some? && config.categoryField.Some? && config.categoryField.value != ""
    requires "ai_status" != config.titleField && "ai_status" != config.themeField
    requires "ai_status" != config.categoryField.value && "ai_status" != config.subthemeField.value
    requires record.Obj?
    ensures var item := WithFieldNames(Put(base, "ai_status", status), config, record, row).value;
            && "ai_status" in item.vals
            && item.vals - {"ai_status"} == WithFieldNames(base, config, record, row).value.vals
  {
    var withStatus := Put(base, "ai_status", status);
    FieldNamesVals(base, config, record, row);
    FieldNamesVals(withStatus, config, record, row);
    var rec := record.d;
    DropStatus(base.vals, status,
               config.titleField, GetOr(rec, config.titleField, row.title),
               config.categoryField.value, GetOr(rec, config.categoryField.value, row.category),
               config.themeField, GetOr(rec, config.themeField, row.theme),
               config.subthemeField.value, GetOr(rec, config.subthemeField.value, row.subtheme));
  }

  /** The columns every view starts with never include the AI flags. */
  lemma BaseFieldsKeys(config: DatasetConfig, id: string, row: RawRow, record: Value)
    requires config.keyField != "ai_status"
    ensures BaseFields(config, id, row, record).vals.Keys ==
              {config.keyField, "title", "category", "risk_theme", "risk_subtheme", "record"}
    ensures "ai_status" !in BaseFields(config, id, row, record).vals
  {
    BaseFieldsVals(config, id, row, record);
    BaseKeys(config.keyField, Str(id), row.title, row.category, row.theme, row.subtheme, record);
  }

  lemma BaseKeys(key: string, a: Value, b: Value, c: Value, d: Value, e: Value, f: Value)
    requires key != "ai_status"
    ensures var m := map[key := a]["title" := b]["category" := c]["risk_theme" := d]["risk_subtheme" := e]["record" := f];
            m.Keys == {key, "title", "category", "risk_theme", "risk_subtheme", "record"} && "ai_status" !in m
  {
  }

  lemma ItemIs(tables: Tables, dataset: string, config: DatasetConfig, id: string, row: RawRow)
    requires config.subthemeField.Some?
    requires Item(tables, dataset, config, id, row).Success?
    ensures var record := RecordOf(row.rawData).value;
            var status := Presence(tables, dataset, config.aiFunctions, id).value;
            Item(tables, dataset, config, id, row) ==
              WithFieldNames(Put(BaseFields(config, id, row, record), "ai_status", Obj(status)), config, record, row)
  {
  }

  lemma RawIs(tables: Tables, dataset: string, config: DatasetConfig, id: string, row: RawRow)
    requires config.subthemeField.Some?
    requires DetailsOfRow(tables, dataset, config, id, row).Success?
    ensures var record := RecordOf(row.rawData).value;
            DetailsOfRow(tables, dataset, config, id, row).value.raw ==
              WithFieldNames(BaseFields(config, id, row, record), config, record, row).value
  {
    var record := RecordOf(row.rawData).value;
    var results := Resolver.AllResults(tables, dataset, id).value;
    var raw := WithFieldNames(BaseFields(config, id, row, record), config, record, row);
    assert raw.Success?;
    assert DetailsOfRow(tables, dataset, config, id, row)
        == Success(Details(raw.value, AiPayloads(config.aiFunctions, results)));
  }

  /** Setting "ai_status" first and removing it last undoes it, when no other update touches it. */
  lemma DropStatus(m: map<string, Value>, s: Value, k1: string, v1: Value, k2: string, v2: Value,
                   k3: string, v3: Value, k4: string, v4: Value)
    requires "ai_status" !in m && "ai_status" != k1 && "ai_status" != k2 && "ai_status" != k3 && "ai_status" != k4
    ensures m["ai_status" := s][k1 := v1][k2 := v2][k3 := v3][k4 := v4] - {"ai_status"} == m[k1 := v1][k2 := v2][k3 := v3][k4 := v4]
  {
  }

  /**
   * The key and the dataset's own column names are pairwise different, the
   * key is none of the fixed item fields, and no name is "record" or
   * "ai_status".
   */
  predicate SeparateNames(c: DatasetConfig) {
    && c.subthemeField.Some? && c.categoryField.Some? && c.categoryField.value != ""
    && var key, title, category, theme, subtheme :=
         c.keyField, c.titleField, c.categoryField.value, c.themeField, c.subthemeField.value;
       && key != title && key != category && key != theme && key != subtheme
       && title != category && title != theme && title != subtheme
       && category != theme && category != subtheme
       && theme != subtheme
       && key !in {"title", "category", "risk_theme", "risk_subtheme", "record", "ai_status"}
       && title !in {"record", "ai_status"}
       && category !in {"record", "ai_status"} && theme !in {"record", "ai_status"}
       && subtheme !in {"record", "ai_status"}
  }

  /**
   * `_row_to_item`: undecodable JSON fails first, then a missing AI table,
   * then a record that is not a dict; a successful item holds the id under
   * the key field, the decoded record, the AI flags, and under each of the
   * dataset's own column names the record's value when it has one and the
   * column otherwise.
   */
  lemma ItemMeaning(tables: Tables, dataset: string, config: DatasetConfig, id: string, row: RawRow)
    requires SeparateNames(config)
    ensures var r := Item(tables, dataset, config, id, row);
            var p := Presence(tables, dataset, config.aiFunctions, id);
            && (row.rawData.Undecodable? ==> r == Failure(MalformedJson(row.rawData.text)))
            && (!row.rawData.Undecodable? && p.Failure? ==> r == Failure(p.error))
            && (row.rawData.Parsed? && !row.rawData.value.Obj? && p.Success? ==> r == Failure(NotADict))
            && (r.Success? ==>
                  var record := RecordOf(row.rawData).value;
                  var rec := record.d;
                  && record.Obj? && p.Success?
                  && r.value.vals[config.keyField] == Str(id)
                  && r.value.vals["record"] == record
                  && r.value.vals["ai_status"] == Obj(p.value)
                  && r.value.vals[config.titleField] == GetOr(rec, config.titleField, row.title)
                  && r.value.vals[config.categoryField.value] == GetOr(rec, config.categoryField.value, row.category)
                  && r.value.vals[config.themeField] == GetOr(rec, config.themeField, row.theme)
                  && r.value.vals[config.subthemeField.value] == GetOr(rec, config.subthemeField.value, row.subtheme))
  {
    var r := Item(tables, dataset, config, id, row);
    if r.Success? {
      var record := RecordOf(row.rawData).value;
      var status := Presence(tables, dataset, config.aiFunctions, id).value;
      ItemIs(tables, dataset, config, id, row);
      ItemVals(config, id, row, record, Obj(status));
    }
  }

  /** The entries of an item built from a decoded dict record and the AI flags. */
  lemma ItemVals(config: DatasetConfig, id: string, row: RawRow, record: Value, status: Value)
    requires SeparateNames(config) && record.Obj?
    ensures var item := WithFieldNames(Put(BaseFields(config, id, row, record), "ai_status", status), config, record, row).value;
            var rec := record.d;
            && item.vals[config.keyField] == Str(id)
            && item.vals["record"] == record
            && item.vals["ai_status"] == status
            && item.vals[config.titleField] == GetOr(rec, config.titleField, row.title)
            && item.vals[config.categoryField.value] == GetOr(rec, config.categoryField.value, row.category)
            && item.vals[config.themeField] == GetOr(rec, config.themeField, row.theme)
            && item.vals[config.subthemeField.value] == GetOr(rec, config.subthemeField.value, row.subtheme)
  {
    var withStatus := Put(BaseFields(config, id, row, record), "ai_status", status);
    StatusVals(config, id, row, record, status);
    FieldNamesLookup(withStatus, config, record, row, config.keyField);
    FieldNamesLookup(withStatus, config, record, row, "record");
    FieldNamesLookup(withStatus, config, record, row, "ai_status");
  }

  /** The fixed entries of an item before the column names are added. */
  lemma StatusVals(config: DatasetConfig, id: string, row: RawRow, record: Value, status: Value)
    requires SeparateNames(config)
    ensures var m := Put(BaseFields(config, id, row, record), "ai_status", status).vals;
            && m[config.keyField] == Str(id) && m["record"] == record && m["ai_status"] == status
  {
    var key := config.keyField;
    BaseFieldsVals(config, id, row, record);
    assert key != "title" && key != "category" && key != "risk_theme" && key != "risk_subtheme";
    assert key != "record" && key != "ai_status";
    BaseLookup(key, Str(id), row.title, row.category, row.theme, row.subtheme, record, status);
  }

  lemma BaseLookup(key: string, a: Value, b: Value, c: Value, d: Value, e: Value, f: Value, s: Value)
    requires key != "title" && key != "category" && key != "risk_theme" && key != "risk_subtheme"
    requires key != "record" && key != "ai_status"
    ensures var m := map[key := a]["title" := b]["category" := c]["risk_theme" := d]["risk_subtheme" := e]
                       ["record" := f]["ai_status" := s];
            m[key] == a && m["record"] == f && m["ai_status"] == s
  {
  }

  /**
   * The dataset's column names take the record's value or the column; every
   * other entry of the item is kept.
   */
  lemma FieldNamesLookup(item: Dict, config: DatasetConfig, record: Value, row: RawRow, k: string)
    requires WellFormed(item) && SeparateNames(config) && record.Obj?
    ensures var r := WithFieldNames(item, config, record, row).value;
            var rec := record.d;
            && r.vals[config.titleField] == GetOr(rec, config.titleField, row.title)
            && r.vals[config.categoryField.value] == GetOr(rec, config.categoryField.value, row.category)
            && r.vals[config.themeField] == GetOr(rec, config.themeField, row.theme)
            && r.vals[config.subthemeField.value] == GetOr(rec, config.subthemeField.value, row.subtheme)
            && ((k in item.vals && k != config.titleField && k != config.categoryField.value
                 && k != config.themeField && k != config.subthemeField.value)
                ==> r.vals[k] == item.vals[k])
  {
  }

  /** The columns every view starts with, as a mapping. */
  lemma BaseFieldsVals(config: DatasetConfig, id: string, row: RawRow, record: Value)
    ensures BaseFields(config, id, row, record).vals ==
              map[config.keyField := Str(id)]["title" := row.title]["category" := row.category]
                 ["risk_theme" := row.theme]["risk_subtheme" := row.subtheme]["record" := record]
  {
  }

  /** The column names replace or add the same four entries whatever the item already holds. */
  lemma FieldNamesVals(item: Dict, config: DatasetConfig, record: Value, row: RawRow)
    requires WellFormed(item) && config.subthemeField.Some? && config.categoryField.Some?
    requires config.categoryField.value != "" && record.Obj?
    ensures var rec := record.d;
            WithFieldNames(item, config, record, row).value.vals ==
              item.vals[config.titleField := GetOr(rec, config.titleField, row.title)]
                       [config.categoryField.value := GetOr(rec, config.categoryField.value, row.category)]
                       [config.themeField := GetOr(rec, config.themeField, row.theme)]
                       [config.subthemeField.value := GetOr(rec, config.subthemeField.value, row.subtheme)]
  {
  }

  // -------------------------------------------------------------------- DAO

  /** `BaseDAO`: one dataset's configuration, the shared database and the resolver that reads it. */
  class BaseDAO {
    const datasetName: string
    const config: DatasetConfig
    const db: Database
    const resolver: Resolver.FunctionResolver

    /** The configuration is the dataset's, and the resolver reads the same database. */
    ghost predicate Valid() {
      && datasetName in Configs
      && config == Configs[datasetName]
      && config.subthemeField.Some?
      && Distinct(config.aiFunctions)
      && resolver.db == db
    }

    constructor (datasetName: string, db: Database, resolver: Resolver.FunctionResolver)
      requires datasetName in Configs && resolver.db == db
      ensures Valid() && this.datasetName == datasetName && this.db == db && this.resolver == resolver
    {
      this.datasetName := datasetName;
      this.config := Configs[datasetName];
      this.db := db;
      this.resolver := resolver;
      new;
      ConfigsInvariant(datasetName);
    }

    /** `BaseDAO(dataset_name)`: an unknown dataset raises. */
    static method Open(datasetName: string, db: Database, resolver: Resolver.FunctionResolver)
      returns (r: Result<BaseDAO, Error>)
      requires resolver.db == db
      ensures r.Failure? <==> datasetName !in DatasetNames
      ensures r.Failure? ==> r.error == UnknownDataset(datasetName)
      ensures r.Success? ==> fresh(r.value) && r.value.Valid() && r.value.datasetName == datasetName
                             && r.value.db == db && r.value.resolver == resolver
    {
      var c := GetDatasetConfig(datasetName);
      if c.Failure? {
        return Failure(c.error);
      }
      var dao := new BaseDAO(datasetName, db, resolver);
      r := Success(dao);
    }

    /** `_get_ai_presence`: one query per configured function. */
    method GetAiPresence(id: string) returns (r: Result<Dict, Error>)
      requires Valid()
      ensures r == Presence(db.tables, datasetName, config.aiFunctions, id)
    {
      var fs := config.aiFunctions;
      var status := EmptyDict;
      for i := 0 to |fs|
        invariant Presence(db.tables, datasetName, fs[..i], id) == Success(status)
      {
        assert fs[..i + 1][..i] == fs[..i];
        var table := Resolver.TableName(datasetName, fs[i]);
        if table !in db.tables {
          PresencePrefixFails(db.tables, datasetName, fs, i + 1, id);
          return Failure(NoSuchTable(table));
        }
        status := Put(status, fs[i], Bool(HasRow(db.tables[table], id)));
      }
      assert fs[..|fs|] == fs;
      r := Success(status);
    }

    /** `_row_to_item`. */
    method RowToItem(id: string, row: RawRow) returns (r: Result<Dict, Error>)
      requires Valid()
      ensures r == Item(db.tables, datasetName, config, id, row)
    {
      var record := RecordOf(row.rawData);
      if record.Failure? {
        return Failure(record.error);
      }
      var status := GetAiPresence(id);
      if status.Failure? {
        return Failure(status.error);
      }
      var item := Put(BaseFields(config, id, row, record.value), "ai_status", Obj(status.value));
      r := WithFieldNames(item, config, record.value, row);
    }

    /** `list_all`: count the rows, then read one page in key order and turn each row into an item. */
    method ListAll(offset: int, limit: int) returns (r: Result<(seq<Dict>, nat), Error>)
      requires Valid()
      ensures r == ListPage(db.tables, datasetName, config, offset, limit)
    {
      var raw := RawRowsOf(db.tables, config.table);
      if raw.Failure? {
        return Failure(raw.error);
      }
      var rows := raw.value;
      var total := |rows|;
      var keys := SortSet(rows.Keys);
      var page := Window(keys, offset, limit);
      assert forall i :: 0 <= i < |page| ==> page[i] in rows by {
        assert forall i :: 0 <= i < |page| ==> page[i] in keys;
        assert forall x :: x in keys ==> x in Elems(keys);
      }
      var items := ReadItems(page, rows);
      if items.Failure? {
        return Failure(items.error);
      }
      r := Success((items.value, total));
    }

    /** The items of the page's rows, in order. */
    method ReadItems(ids: seq<string>, rows: map<string, RawRow>) returns (r: Result<seq<Dict>, Error>)
      requires Valid()
      requires forall i :: 0 <= i < |ids| ==> ids[i] in rows
      ensures r == Collect(ItemResults(db.tables, datasetName, config, ids, rows))
    {
      ghost var results := ItemResults(db.tables, datasetName, config, ids, rows);
      var items: seq<Dict> := [];
      for i := 0 to |ids|
        invariant Collect(results[..i]) == Success(items)
      {
        var item := RowToItem(ids[i], rows[ids[i]]);
        assert results[i] == item;
        CollectStep(results, i);
        if item.Failure? {
          CollectPrefixFails(results, i + 1);
          return Failure(item.error);
        }
        items := items + [item.value];
      }
      assert results[..|ids|] == results;
      r := Success(items);
    }

    /** `get_details`. */
    method GetDetails(id: string) returns (r: Result<Option<Details>, Error>)
      requires Valid()
      ensures r == DetailsOf(db.tables, datasetName, config, id)
    {
      var raw := RawRowsOf(db.tables, config.table);
      if raw.Failure? {
        return Failure(raw.error);
      }
      if id !in raw.value {
        return Success(None);
      }
      var row := raw.value[id];
      var record := RecordOf(row.rawData);
      if record.Failure? {
        return Failure(record.error);
      }
      var results := resolver.GetAllResults(datasetName, id);
      if results.Failure? {
        return Failure(results.error);
      }
      var fs := config.aiFunctions;
      var ai := EmptyDict;
      for i := 0 to |fs|
        invariant ai == AiPayloads(fs[..i], results.value)
      {
        assert fs[..i + 1][..i] == fs[..i];
        var result := if fs[i] in results.value then results.value[fs[i]] else None;
        ai := Put(ai, fs[i], if result.Some? then result.value.payload else Null);
      }
      assert fs[..|fs|] == fs;
      var view := WithFieldNames(BaseFields(config, id, row, record.value), config, record.value, row);
      if view.Failure? {
        return Failure(view.error);
      }
      r := Success(Some(Details(view.value, ai)));
    }
  }

  /** A failure on a prefix of the functions is the failure of the whole lookup. */
  lemma {:induction false} PresencePrefixFails(tables: Tables, dataset: string, fs: seq<string>, k: nat, id: string)
    requires k <= |fs| && Presence(tables, dataset, fs[..k], id).Failure?
    ensures Presence(tables, dataset, fs, id) == Presence(tables, dataset, fs[..k], id)
    decreases |fs|
  {
    if k < |fs| {
      var init := fs[..|fs| - 1];
      assert init[..k] == fs[..k];
      PresencePrefixFails(tables, dataset, init, k, id);
    } else {
      assert fs[..k] == fs;
    }
  }
}
