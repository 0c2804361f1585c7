/**
 * The resumable bulk runner: it computes one AI function over every record
 * of a dataset through the resolver, in chunks, and keeps a progress file
 * of the ids already done so that an interrupted run can resume.
 */
module BulkProcess {
  import opened Values
  import opened Seqs
  import opened Strings
  import opened Store
  import opened DatasetConfigs
  import opened Resolver

  /**
   * `chunked`: a non-positive size is a ValueError; otherwise consecutive
   * chunks that concatenate back to the input, each but the last of exactly
   * `size` ids.
   */
  function Chunked(values: seq<string>, size: int): (r: Result<seq<seq<string>>, Error>)
    ensures r.Failure? <==> size <= 0
    ensures r.Failure? ==> r.error == NonPositiveBatchSize
    ensures r.Success? ==> Flatten(r.value) == values && FixedSize(r.value, size)
  {
    if size <= 0 then Failure(NonPositiveBatchSize)
    else
      ChunksFlatten(values, size);
      ChunksShape(values, size);
      Success(Chunks(values, size))
  }

  // ------------------------------------------------------------ progress file

  /** The progress file on disk: missing, unreadable as JSON, or holding a decoded JSON value. */
  datatype FileState = Absent | Unreadable | Holds(data: Value)

  class ProgressFile {
    var state: FileState

    constructor (initial: FileState)
      ensures state == initial
    {
      state := initial;
    }
  }

  /** Python `==` between a decoded JSON value and a bool: `True == 1` and `False == 0` hold too. */
  predicate EqualsBool(v: Value, b: bool) {
    v == Bool(b) || v == Int(if b then 1 else 0)
  }

  /** The file was written for this dataset, function and refresh flag. */
  predicate Matches(d: Dict, dataset: string, aiFunction: string, refresh: bool) {
    && GetOr(d, "dataset", Null) == Str(dataset)
    && GetOr(d, "ai_function", Null) == Str(aiFunction)
    && EqualsBool(GetOr(d, "refresh", Null), refresh)
  }

  /** The one-character strings of `s`: what iterating over a Python string yields. */
  function Characters(s: string): set<string> {
    set i | 0 <= i < |s| :: [s[i]]
  }

  /** A one-character string is among the characters of `s` exactly when its character occurs in `s`. */
  lemma CharactersOf(s: string)
    ensures forall x :: x in Characters(s) <==> |x| == 1 && x[0] in s
  {
    forall x | |x| == 1 && x[0] in s ensures x in Characters(s) {
      var i :| 0 <= i < |s| && s[i] == x[0];
      assert x == [s[i]];
    }
  }

  /** No item of a list is itself a list or a dict, so every item can go into a set. */
  predicate Hashable(items: seq<Value>) {
    forall i :: 0 <= i < |items| ==> !items[i].List? && !items[i].Obj?
  }

  /** The Python type name of a scalar, as a TypeError spells it. */
  function TypeName(v: Value): string {
    match v
    case Null => "NoneType"
    case Bool(_) => "bool"
    case Int(_) => "int"
    case Str(_) => "str"
    case List(_) => "list"
    case Obj(_) => "dict"
  }

  /** The type of the first item `set()` cannot hash: a list or a dict. */
  function FirstUnhashable(items: seq<Value>): (t: string)
    requires !Hashable(items)
    ensures exists i :: 0 <= i < |items| && (items[i].List? || items[i].Obj?) && t == TypeName(items[i])
  {
    if items[0].List? || items[0].Obj? then TypeName(items[0])
    else
      assert !Hashable(items[1..]) by {
        var i :| 0 <= i < |items| && (items[i].List? || items[i].Obj?);
        assert items[1..][i - 1] == items[i];
      }
      FirstUnhashable(items[1..])
  }

  /**
   * `set(...)` of the decoded `processed_ids` value: None, a bool or a number
   * is not iterable; a string gives its characters and a dict its keys; a
   * list gives its string items, and one holding a list or a dict is
   * unhashable.
   */
  function IdsIn(v: Value): (r: Result<set<string>, Error>)
    ensures r.Failure? <==> v.Null? || v.Bool? || v.Int? || (v.List? && !Hashable(v.items))
    ensures r.Failure? && !v.List? ==> r.error == NotIterable(TypeName(v))
    ensures r.Failure? && v.List? ==> r.error == Unhashable(FirstUnhashable(v.items))
    ensures r.Success? && v.List? ==> forall x :: x in r.value <==> Str(x) in v.items
    ensures r.Success? && v.Str? ==> forall x :: x in r.value <==> |x| == 1 && x[0] in v.s
    ensures r.Success? && v.Obj? ==> r.value == v.d.vals.Keys
  {
    match v
    case Null => Failure(NotIterable(TypeName(v)))
    case Bool(_) => Failure(NotIterable(TypeName(v)))
    case Int(_) => Failure(NotIterable(TypeName(v)))
    case Str(s) => CharactersOf(s); Success(Characters(s))
    case Obj(d) => Success(d.vals.Keys)
    case List(items) =>
      if Hashable(items) then Success(set i | 0 <= i < |items| && items[i].Str? :: items[i].s)
      else Failure(Unhashable(FirstUnhashable(items)))
  }

  /**
   * `_load`: the ids to adopt (only when the file exists, decodes and its
   * tag matches), None when the file is ignored; a decoded value that is
   * not a dict makes `.get` raise, and so does `set()` of ids it cannot take.
   */
  function LoadSpec(state: FileState, dataset: string, aiFunction: string, refresh: bool): (r: Result<Option<set<string>>, Error>)
    ensures state.Absent? || state.Unreadable? ==> r == Success(None)
    ensures state.Holds? && !state.data.Obj? ==> r == Failure(NotADict)
    ensures r.Success? && r.value.Some? ==> state.Holds? && state.data.Obj? && Matches(state.data.d, dataset, aiFunction, refresh)
    ensures state.Holds? && state.data.Obj? && Matches(state.data.d, dataset, aiFunction, refresh) ==>
              match IdsIn(GetOr(state.data.d, "processed_ids", List([])))
              case Success(ids) => r == Success(Some(ids))
              case Failure(e) => r == Failure(e)
  {
    match state
    case Absent => Success(None)
    case Unreadable => Success(None)
    case Holds(data) =>
      if !data.Obj? then Failure(NotADict)
      else if Matches(data.d, dataset, aiFunction, refresh) then
        match IdsIn(GetOr(data.d, "processed_ids", List([])))
        case Success(ids) => Success(Some(ids))
        case Failure(e) => Failure(e)
      else Success(None)
  }

  /** The JSON strings of a list of ids. */
  function StrList(ids: seq<string>): (r: seq<Value>)
    ensures |r| == |ids| && forall i :: 0 <= i < |ids| ==> r[i] == Str(ids[i])
  {
    if |ids| == 0 then [] else [Str(ids[0])] + StrList(ids[1..])
  }

  /** The document `save` writes. */
  function Document(dataset: string, aiFunction: string, refresh: bool, ids: seq<string>): Value {
    Obj(Dict(["dataset", "ai_function", "refresh", "processed_ids"],
             map["dataset" := Str(dataset), "ai_function" := Str(aiFunction),
                 "refresh" := Bool(refresh), "processed_ids" := List(StrList(ids))]))
  }

  /** What `save` writes for a processed set: the ids in ascending order. */
  ghost function SavedDocument(dataset: string, aiFunction: string, refresh: bool, processed: set<string>): Value {
    Document(dataset, aiFunction, refresh, Sorted(processed))
  }

  /** The saved list holds each processed id once, in strictly ascending order. */
  lemma SavedSorted(dataset: string, aiFunction: string, refresh: bool, processed: set<string>)
    ensures var v := SavedDocument(dataset, aiFunction, refresh, processed).d.vals["processed_ids"];
            v.List? && |v.items| == |processed| &&
            exists ids :: StrictlySorted(ids) && Elems(ids) == processed && v.items == StrList(ids)
  {
    SortedIsSorted(processed);
  }

  /** The ids of the JSON list of `ids` are the elements of `ids`. */
  lemma IdsInStrList(ids: seq<string>)
    ensures IdsIn(List(StrList(ids))) == Success(Elems(ids))
  {
    var items := StrList(ids);
    assert Hashable(items);
    var got := IdsIn(List(items)).value;
    forall x | x in Elems(ids) ensures x in got {
      var i :| 0 <= i < |ids| && ids[i] == x;
      assert items[i] == Str(x);
    }
    forall x | x in got ensures x in Elems(ids) {
      var i :| 0 <= i < |items| && items[i] == Str(x);
      assert ids[i] == x;
    }
    assert got == Elems(ids);
  }

  /** The fields of the saved document, read back the way `_load` reads them. */
  lemma DocumentFields(dataset: string, aiFunction: string, refresh: bool, ids: seq<string>)
    ensures var d := Document(dataset, aiFunction, refresh, ids).d;
            && GetOr(d, "dataset", Null) == Str(dataset)
            && GetOr(d, "ai_function", Null) == Str(aiFunction)
            && GetOr(d, "refresh", Null) == Bool(refresh)
            && GetOr(d, "processed_ids", List([])) == List(StrList(ids))
  {
    var d := Document(dataset, aiFunction, refresh, ids).d;
    assert "dataset" != "ai_function" && "dataset" != "refresh" && "dataset" != "processed_ids";
    assert "ai_function" != "refresh" && "ai_function" != "processed_ids" && "refresh" != "processed_ids";
  }

  /** Loading what `save` wrote, under the same configuration, gives back the processed set. */
  lemma SaveThenLoad(dataset: string, aiFunction: string, refresh: bool, processed: set<string>)
    ensures LoadSpec(Holds(SavedDocument(dataset, aiFunction, refresh, processed)), dataset, aiFunction, refresh)
            == Success(Some(processed))
  {
    var ids := Sorted(processed);
    SortedIsSorted(processed);
    IdsInStrList(ids);
    DocumentFields(dataset, aiFunction, refresh, ids);
  }

  /** A file written for another dataset, function or refresh flag is ignored. */
  lemma OtherRunIgnored(dataset: string, aiFunction: string, refresh: bool, processed: set<string>,
                        dataset': string, aiFunction': string, refresh': bool)
    requires (dataset, aiFunction, refresh) != (dataset', aiFunction', refresh')
    ensures LoadSpec(Holds(SavedDocument(dataset, aiFunction, refresh, processed)), dataset', aiFunction', refresh')
            == Success(None)
  {
  }

  /** `CacheManager`: the set of ids done so far, tagged with the run's configuration. */
  class CacheManager {
    const file: ProgressFile
    const dataset: string
    const aiFunction: string
    const refresh: bool
    var processed: set<string>

    constructor (file: ProgressFile, dataset: string, aiFunction: string, refresh: bool)
      ensures this.file == file && this.dataset == dataset && this.aiFunction == aiFunction && this.refresh == refresh
      ensures processed == {}
    {
      this.file := file;
      this.dataset := dataset;
      this.aiFunction := aiFunction;
      this.refresh := refresh;
      processed := {};
    }

    /** `_load`: adopts the saved ids when the tag matches, keeps `processed` otherwise. */
    method Load() returns (err: Option<Error>)
      modifies this
      ensures match LoadSpec(file.state, dataset, aiFunction, refresh)
              case Failure(e) => err == Some(e) && processed == old(processed)
              case Success(None) => err == None && processed == old(processed)
              case Success(Some(ids)) => err == None && processed == ids
    {
      var loaded := LoadSpec(file.state, dataset, aiFunction, refresh);
      if loaded.Failure? {
        return Some(loaded.error);
      }
      if loaded.value.Some? {
        processed := loaded.value.value;
      }
      err := None;
    }

    /** `mark`: adds the id and nothing else, so marking twice is marking once. */
    method Mark(id: string)
      modifies this
      ensures processed == old(processed) + {id}
    {
      processed := processed + {id};
    }

    /** `save`: replaces the file, in one step, by the tagged, sorted id list. */
    method Save()
      modifies file
      ensures file.state == Holds(SavedDocument(dataset, aiFunction, refresh, processed))
    {
      var ids := SortSet(processed);
      file.state := Holds(Document(dataset, aiFunction, refresh, ids));
    }

    /** `clear`: removes the file. */
    method Clear()
      modifies file
      ensures file.state == Absent
    {
      file.state := Absent;
    }
  }

  // ------------------------------------------------- candidates and progress

  /** `[x for x in xs if x not in s]`. */
  function NotIn(xs: seq<string>, s: set<string>): (r: seq<string>)
    ensures |r| <= |xs|
    ensures forall i :: 0 <= i < |r| ==> r[i] in xs && r[i] !in s
    ensures forall i :: 0 <= i < |xs| && xs[i] !in s ==> xs[i] in r
    decreases |xs|
  {
    if |xs| == 0 then []
    else NotIn(xs[..|xs| - 1], s) + (if xs[|xs| - 1] in s then [] else [xs[|xs| - 1]])
  }

  /** A single id is kept exactly when it is not in `s`. */
  lemma NotInOne(x: string, s: set<string>)
    ensures NotIn([x], s) == if x in s then [] else [x]
  {
    assert [x][..0] == [];
  }

  /**
   * Filtering distributes over concatenation; with NotInOne this makes
   * NotIn the order-preserving filter, keeping repeats and dropping nothing
   * else.
   */
  lemma {:induction false} NotInAppend(xs: seq<string>, ys: seq<string>, s: set<string>)
    ensures NotIn(xs + ys, s) == NotIn(xs, s) + NotIn(ys, s)
    decreases |ys|
  {
    if |ys| == 0 {
      assert xs + ys == xs;
    } else {
      var init := ys[..|ys| - 1];
      var last := ys[|ys| - 1];
      assert (xs + ys)[..|xs + ys| - 1] == xs + init;
      assert (xs + ys)[|xs + ys| - 1] == last;
      NotInAppend(xs, init, s);
    }
  }

  /** `sum(1 for x in xs if x in s)`. */
  function CountIn(xs: seq<string>, s: set<string>): nat
    decreases |xs|
  {
    if |xs| == 0 then 0 else CountIn(xs[..|xs| - 1], s) + (if xs[|xs| - 1] in s then 1 else 0)
  }

  /** Every id is either kept by NotIn or counted by CountIn. */
  lemma {:induction false} NotInCountIn(xs: seq<string>, s: set<string>)
    ensures |NotIn(xs, s)| + CountIn(xs, s) == |xs|
    decreases |xs|
  {
    if |xs| > 0 {
      NotInCountIn(xs[..|xs| - 1], s);
    }
  }

  /** Filtering keeps ascending order: pending ids stay in `ORDER BY` order. */
  lemma {:induction false} NotInSorted(xs: seq<string>, s: set<string>)
    requires StrictlySorted(xs)
    ensures StrictlySorted(NotIn(xs, s))
    decreases |xs|
  {
    if |xs| > 0 {
      var init := xs[..|xs| - 1];
      assert StrictlySorted(init);
      NotInSorted(init, s);
      var last := xs[|xs| - 1];
      var r := NotIn(xs, s);
      var p := NotIn(init, s);
      if last !in s {
        forall i, j | 0 <= i < j < |r| ensures Less(r[i], r[j]) {
          if j == |r| - 1 {
            assert r[j] == last;
            assert r[i] == p[i] && p[i] in init;
            var k :| 0 <= k < |init| && init[k] == p[i];
          } else {
            assert r[i] == p[i] && r[j] == p[j];
          }
        }
      }
    }
  }

  /** The ids to work on: all of them with `refresh`, otherwise the ones without a stored result. */
  function Candidates(allIds: seq<string>, computed: set<string>, refresh: bool): (r: seq<string>)
    ensures refresh ==> r == allIds
    ensures !refresh ==> forall i :: 0 <= i < |r| ==> r[i] in allIds && r[i] !in computed
    ensures !refresh ==> forall i :: 0 <= i < |allIds| && allIds[i] !in computed ==> allIds[i] in r
  {
    if refresh then allIds else NotIn(allIds, computed)
  }

  /** The candidates of a concatenation are the candidates of each part, in the same order. */
  lemma CandidatesAppend(xs: seq<string>, ys: seq<string>, computed: set<string>, refresh: bool)
    ensures Candidates(xs + ys, computed, refresh) == Candidates(xs, computed, refresh) + Candidates(ys, computed, refresh)
  {
    if !refresh {
      NotInAppend(xs, ys, computed);
    }
  }

  /** The progress bar's starting count: ids with a stored result plus candidates already done. */
  function InitialProgress(allIds: seq<string>, candidates: seq<string>, processed: set<string>): int {
    (|allIds| - |candidates|) + CountIn(candidates, processed)
  }

  /** The starting count and the pending ids together account for every id. */
  lemma ProgressAccounts(allIds: seq<string>, computed: set<string>, refresh: bool, processed: set<string>)
    ensures var c := Candidates(allIds, computed, refresh);
            InitialProgress(allIds, c, processed) + |NotIn(c, processed)| == |allIds|
  {
    NotInCountIn(Candidates(allIds, computed, refresh), processed);
  }

  // --------------------------------------------------------------- the run

  /** The ids whose attempt failed, in order. */
  function Failed(ids: seq<string>, ok: seq<bool>): seq<string>
    requires |ids| == |ok|
    decreases |ids|
  {
    if |ids| == 0 then []
    else Failed(ids[..|ids| - 1], ok[..|ok| - 1]) + (if ok[|ok| - 1] then [] else [ids[|ids| - 1]])
  }

  /** An id is among the failures exactly when one of its attempts failed. */
  lemma {:induction false} FailedMembers(ids: seq<string>, ok: seq<bool>, x: string)
    requires |ids| == |ok|
    ensures x in Failed(ids, ok) <==> exists i :: 0 <= i < |ids| && !ok[i] && ids[i] == x
    decreases |ids|
  {
    if |ids| > 0 {
      var n := |ids| - 1;
      FailedMembers(ids[..n], ok[..n], x);
      if x in Failed(ids, ok) {
        if x in Failed(ids[..n], ok[..n]) {
          var i :| 0 <= i < n && !ok[..n][i] && ids[..n][i] == x;
          assert !ok[i] && ids[i] == x;
        } else {
          assert !ok[n] && ids[n] == x;
        }
      }
      if exists i :: 0 <= i < |ids| && !ok[i] && ids[i] == x {
        var i :| 0 <= i < |ids| && !ok[i] && ids[i] == x;
        if i < n {
          assert !ok[..n][i] && ids[..n][i] == x;
        }
      }
    }
  }

  /** Failures of consecutive attempts are concatenated. */
  lemma {:induction false} FailedAppend(xs: seq<string>, ox: seq<bool>, ys: seq<string>, oy: seq<bool>)
    requires |xs| == |ox| && |ys| == |oy|
    ensures Failed(xs + ys, ox + oy) == Failed(xs, ox) + Failed(ys, oy)
    decreases |ys|
  {
    if |ys| == 0 {
      assert xs + ys == xs && ox + oy == ox;
    } else {
      var ys', oy' := ys[..|ys| - 1], oy[..|oy| - 1];
      FailedAppend(xs, ox, ys', oy');
      assert (xs + ys)[..|xs + ys| - 1] == xs + ys';
      assert (ox + oy)[..|ox + oy| - 1] == ox + oy';
    }
  }

  /** No failure is recorded exactly when every attempt succeeded. */
  lemma {:induction false} FailedEmpty(ids: seq<string>, ok: seq<bool>)
    requires |ids| == |ok|
    ensures Failed(ids, ok) == [] <==> forall i :: 0 <= i < |ok| ==> ok[i]
    decreases |ids|
  {
    if |ids| > 0 {
      FailedEmpty(ids[..|ids| - 1], ok[..|ok| - 1]);
      assert forall i :: 0 <= i < |ok| - 1 ==> ok[..|ok| - 1][i] == ok[i];
    }
  }

  /** The ids whose attempt succeeded. */
  function Succeeded(ids: seq<string>, ok: seq<bool>): set<string>
    requires |ids| == |ok|
  {
    set i | 0 <= i < |ids| && ok[i] :: ids[i]
  }

  /** Successes of consecutive attempts are united. */
  lemma SucceededAppend(xs: seq<string>, ox: seq<bool>, ys: seq<string>, oy: seq<bool>)
    requires |xs| == |ox| && |ys| == |oy|
    ensures Succeeded(xs + ys, ox + oy) == Succeeded(xs, ox) + Succeeded(ys, oy)
  {
    var ids, ok := xs + ys, ox + oy;
    forall x | x in Succeeded(ids, ok) ensures x in Succeeded(xs, ox) + Succeeded(ys, oy) {
      var i :| 0 <= i < |ids| && ok[i] && ids[i] == x;
      if i < |xs| {
        assert xs[i] == x && ox[i];
      } else {
        assert ys[i - |xs|] == x && oy[i - |xs|];
      }
    }
    forall x | x in Succeeded(xs, ox) ensures x in Succeeded(ids, ok) {
      var i :| 0 <= i < |xs| && ox[i] && xs[i] == x;
      assert ids[i] == x && ok[i];
    }
    forall x | x in Succeeded(ys, oy) ensures x in Succeeded(ids, ok) {
      var i :| 0 <= i < |ys| && oy[i] && ys[i] == x;
      assert ids[|xs| + i] == x && ok[|xs| + i];
    }
  }

  /** When every attempt fails, every id is a failure and none is marked. */
  lemma {:induction false} NoneSucceeded(ids: seq<string>, ok: seq<bool>)
    requires |ids| == |ok| && forall i :: 0 <= i < |ok| ==> !ok[i]
    ensures Failed(ids, ok) == ids && Succeeded(ids, ok) == {}
    decreases |ids|
  {
    if |ids| > 0 {
      NoneSucceeded(ids[..|ids| - 1], ok[..|ok| - 1]);
      assert ids[..|ids| - 1] + [ids[|ids| - 1]] == ids;
    }
  }

  /** The state after resolving each id in turn, and whether each call succeeded. */
  datatype Progress = Progress(tables: Tables, outcomes: seq<bool>)

  /**
   * Resolving `ids` one after another with the settings of `q` (its own id
   * is ignored), each call seeing the tables the previous one left.
   */
  function ResolveEach(tables: Tables, compute: Call -> Computation, q: Request, now: string, ids: seq<string>): (p: Progress)
    ensures |p.outcomes| == |ids|
    decreases |ids|
  {
    if |ids| == 0 then Progress(tables, [])
    else
      var before := ResolveEach(tables, compute, q, now, ids[..|ids| - 1]);
      var o := ResolveSpec(before.tables, compute, q.(id := ids[|ids| - 1]), now);
      Progress(o.tables, before.outcomes + [o.result.Success?])
  }

  /** Resolving `xs` and then `ys` is resolving `xs + ys`. */
  lemma {:induction false} ResolveEachAppend(tables: Tables, compute: Call -> Computation, q: Request, now: string,
                                             xs: seq<string>, ys: seq<string>)
    ensures var first := ResolveEach(tables, compute, q, now, xs);
            var second := ResolveEach(first.tables, compute, q, now, ys);
            ResolveEach(tables, compute, q, now, xs + ys) == Progress(second.tables, first.outcomes + second.outcomes)
    decreases |ys|
  {
    if |ys| == 0 {
      assert xs + ys == xs;
    } else {
      var ys' := ys[..|ys| - 1];
      ResolveEachAppend(tables, compute, q, now, xs, ys');
      assert (xs + ys)[..|xs + ys| - 1] == xs + ys';
      assert (xs + ys)[|xs + ys| - 1] == ys[|ys| - 1];
    }
  }

  /** What a run works out before processing anything. */
  datatype Plan =
    | NoIds
    | Work(loaded: set<string>, candidates: seq<string>, pending: seq<string>, initial: int)

  /** The ids that already have a stored result, or the error the query on a missing table raises. */
  function Computed(tables: Tables, dataset: string, aiFunction: string, refresh: bool): (r: Result<set<string>, Error>)
    ensures refresh ==> r == Success({})
    ensures !refresh ==> match EntriesOf(tables, TableName(dataset, aiFunction))
                         case Failure(e) => r == Failure(e)
                         case Success(entries) => r == Success(entries.Keys)
  {
    if refresh then Success({})
    else match EntriesOf(tables, TableName(dataset, aiFunction))
         case Failure(e) => Failure(e)
         case Success(entries) => Success(entries.Keys)
  }

  /**
   * The checks and the id arithmetic of `run_bulk_process`, in the source's
   * order: configuration, function name, the raw ids (an empty table ends the
   * run), the progress file, then the stored results.
   */
  ghost function PlanSpec(tables: Tables, file: FileState, dataset: string, aiFunction: string, refresh: bool): Result<Plan, Error> {
    match GetDatasetConfig(dataset)
    case Failure(e) => Failure(e)
    case Success(config) =>
      if aiFunction !in config.aiFunctions then Failure(InvalidAiFunction(aiFunction, config.aiFunctions))
      else
        match RawRowsOf(tables, config.table)
        case Failure(e) => Failure(e)
        case Success(rows) =>
          if rows == map[] then Success(NoIds)
          else
            match LoadSpec(file, dataset, aiFunction, refresh)
            case Failure(e) => Failure(e)
            case Success(adopted) =>
              WorkSpec(tables, dataset, aiFunction, refresh, Sorted(rows.Keys), if adopted.Some? then adopted.value else {})
  }

  /** The part of PlanSpec after the progress file is loaded: the stored results, the candidates and the pending ids. */
  function WorkSpec(tables: Tables, dataset: string, aiFunction: string, refresh: bool, allIds: seq<string>,
                    loaded: set<string>): (r: Result<Plan, Error>)
    ensures r.Success? ==> r.value.Work? && r.value.loaded == loaded
  {
    match Computed(tables, dataset, aiFunction, refresh)
    case Failure(e) => Failure(e)
    case Success(done) =>
      var candidates := Candidates(allIds, done, refresh);
      Success(Work(loaded, candidates, NotIn(candidates, loaded), InitialProgress(allIds, candidates, loaded)))
  }

  /** The pending ids of a run come in ascending order, and with the starting count account for every record. */
  lemma PlanAccounts(tables: Tables, file: FileState, dataset: string, aiFunction: string, refresh: bool)
    requires PlanSpec(tables, file, dataset, aiFunction, refresh).Success?
    requires PlanSpec(tables, file, dataset, aiFunction, refresh).value.Work?
    ensures var p := PlanSpec(tables, file, dataset, aiFunction, refresh).value;
            var rows := tables[dataset + "_raw"].rows;
            StrictlySorted(p.pending) && p.initial + |p.pending| == |rows|
  {
    var config := Configs[dataset];
    var rows := tables[config.table].rows;
    var allIds := Sorted(rows.Keys);
    SortedIsSorted(rows.Keys);
    var done := Computed(tables, dataset, aiFunction, refresh).value;
    var adopted := LoadSpec(file, dataset, aiFunction, refresh).value;
    var loaded := if adopted.Some? then adopted.value else {};
    ProgressAccounts(allIds, done, refresh, loaded);
    var candidates := Candidates(allIds, done, refresh);
    if !refresh {
      NotInSorted(allIds, done);
    }
    NotInSorted(candidates, loaded);
    assert |allIds| == |rows.Keys| == |rows|;
  }

  /** How a run that gets past its checks ends. */
  datatype Report =
    | NoRecords
    | NothingToProcess(initial: int)
    | Completed(initial: int, attempted: seq<string>, failures: seq<string>)

  /**
   * `_process_single` with the call completed: the resolver is awaited with
   * every argument it needs, and the result is whether it succeeded.
   */
  method ProcessSingle(resolver: FunctionResolver, dataset: string, aiFunction: string, id: string,
                       sessionId: string, userId: string, refresh: bool, now: string) returns (ok: bool)
    modifies resolver, resolver.db
    ensures var o := ResolveSpec(old(resolver.db.tables), resolver.compute,
                                 Request(dataset, aiFunction, id, sessionId, userId, refresh), now);
            ok == o.result.Success? && resolver.db.tables == o.tables
  {
    var r := resolver.Resolve(dataset, aiFunction, id, sessionId, userId, refresh, now);
    ok := r.Success?;
  }

  /**
   * `_process_single` as written: `resolve` is called without its `user_id`
   * argument, so binding the call raises TypeError before anything runs, and
   * the handler turns that into False for every id.
   */
  function ProcessSingleAsWritten(dataset: string, aiFunction: string, id: string, sessionId: string, refresh: bool): bool {
    false
  }

  /**
   * With `_process_single` as written, a run marks nothing, records every
   * pending id as a failure, and so never clears its progress file.
   */
  lemma AsWrittenEveryIdFails(dataset: string, aiFunction: string, sessionId: string, refresh: bool,
                              pending: seq<string>, ok: seq<bool>, loaded: set<string>)
    requires |ok| == |pending|
    requires forall i :: 0 <= i < |pending| ==>
               ok[i] == ProcessSingleAsWritten(dataset, aiFunction, pending[i], sessionId, refresh)
    ensures Failed(pending, ok) == pending && loaded + Succeeded(pending, ok) == loaded
  {
    NoneSucceeded(pending, ok);
  }

  /**
   * The configuration lists `slow_enrichment` but the resolver has no such
   * function: every resolve of it fails with "Invalid function" and changes
   * nothing.
   */
  lemma SlowEnrichmentNeverResolves(tables: Tables, compute: Call -> Computation, q: Request, now: string)
    requires q.dataset in Configs && q.func == "slow_enrichment"
    ensures "slow_enrichment" in Configs[q.dataset].aiFunctions
    ensures ResolveSpec(tables, compute, q, now) == Outcome(Failure(InvalidFunction(q.func, q.dataset)), tables, None)
  {
  }

  /** One more id: the ids so far, then that id resolved. */
  lemma ResolveEachStep(tables: Tables, compute: Call -> Computation, q: Request, now: string, ids: seq<string>)
    requires |ids| > 0
    ensures var before := ResolveEach(tables, compute, q, now, ids[..|ids| - 1]);
            var o := ResolveSpec(before.tables, compute, q.(id := ids[|ids| - 1]), now);
            ResolveEach(tables, compute, q, now, ids) == Progress(o.tables, before.outcomes + [o.result.Success?])
  {
  }

  /** One more attempt: the failures so far, then that id when it failed. */
  lemma FailedStep(ids: seq<string>, ok: seq<bool>)
    requires |ids| == |ok| > 0
    ensures Failed(ids, ok) == Failed(ids[..|ids| - 1], ok[..|ok| - 1]) + (if ok[|ok| - 1] then [] else [ids[|ids| - 1]])
  {
  }

  /** One more failed attempt after attempts that all failed: still every id failed. */
  lemma FailedGrow(ids: seq<string>, ok: seq<bool>)
    requires |ids| == |ok| + 1
    requires Failed(ids[..|ok|], ok) == ids[..|ok|]
    ensures Failed(ids, ok + [false]) == ids
  {
    var n := |ok|;
    assert (ok + [false])[..n] == ok;
    FailedStep(ids, ok + [false]);
    assert ids[..n] + [ids[n]] == ids;
  }

  /** One more failed resolve that writes nothing keeps a run that failed throughout failing throughout. */
  lemma FailingStep(tables: Tables, compute: Call -> Computation, q: Request, now: string, ids: seq<string>)
    requires |ids| > 0
    requires var p := ResolveEach(tables, compute, q, now, ids[..|ids| - 1]);
             p.tables == tables && Failed(ids[..|ids| - 1], p.outcomes) == ids[..|ids| - 1]
    requires var o := ResolveSpec(tables, compute, q.(id := ids[|ids| - 1]), now);
             o.tables == tables && o.result.Failure?
    ensures var p := ResolveEach(tables, compute, q, now, ids);
            p.tables == tables && Failed(ids, p.outcomes) == ids
  {
    var before := ResolveEach(tables, compute, q, now, ids[..|ids| - 1]);
    ResolveEachStep(tables, compute, q, now, ids);
    FailedGrow(ids, before.outcomes);
  }

  /** A run in which every resolve fails without writing fails on every id and changes no table. */
  lemma {:induction false} FailingRun(tables: Tables, compute: Call -> Computation, q: Request, now: string,
                                      ids: seq<string>)
    requires forall id: string :: ResolveSpec(tables, compute, q.(id := id), now).tables == tables &&
                                  ResolveSpec(tables, compute, q.(id := id), now).result.Failure?
    ensures var p := ResolveEach(tables, compute, q, now, ids);
            p.tables == tables && Failed(ids, p.outcomes) == ids
    decreases |ids|
  {
    if |ids| > 0 {
      FailingRun(tables, compute, q, now, ids[..|ids| - 1]);
      FailingStep(tables, compute, q, now, ids);
    }
  }

  /** So a bulk run of `slow_enrichment` fails on every id and changes no table. */
  lemma SlowEnrichmentRunFails(tables: Tables, compute: Call -> Computation, q: Request, now: string,
                               ids: seq<string>)
    requires q.dataset in Configs && q.func == "slow_enrichment"
    ensures var p := ResolveEach(tables, compute, q, now, ids);
            p.tables == tables && Failed(ids, p.outcomes) == ids
  {
    forall id: string
      ensures ResolveSpec(tables, compute, q.(id := id), now).tables == tables &&
              ResolveSpec(tables, compute, q.(id := id), now).result.Failure?
    {
      SlowEnrichmentNeverResolves(tables, compute, q.(id := id), now);
    }
    FailingRun(tables, compute, q, now, ids);
  }

  /** The run's bookkeeping after `ids`: the resolver's tables and the outcomes, the failures and the marked ids. */
  ghost predicate Done(tables0: Tables, compute: Call -> Computation, q: Request, now: string, ids: seq<string>,
                       tables: Tables, outcomes: seq<bool>, failures: seq<string>, processed0: set<string>, processed: set<string>)
  {
    && ResolveEach(tables0, compute, q, now, ids) == Progress(tables, outcomes)
    && failures == Failed(ids, outcomes)
    && processed == processed0 + Succeeded(ids, outcomes)
  }

  /**
   * One id of a chunk: resolve it, then mark it when that succeeded and add
   * it to the failures otherwise.  The ghost parameters say what the run has
   * done before it.
   */
  method ProcessId(resolver: FunctionResolver, cache: CacheManager, id: string, sessionId: string, userId: string,
                   now: string, ghost tables0: Tables, ghost processed0: set<string>, ghost seen: seq<string>,
                   outcomes0: seq<bool>, failures0: seq<string>)
    returns (outcomes: seq<bool>, failures: seq<string>)
    requires Done(tables0, resolver.compute, Request(cache.dataset, cache.aiFunction, "", sessionId, userId, cache.refresh),
                  now, seen, resolver.db.tables, outcomes0, failures0, processed0, cache.processed)
    modifies resolver, resolver.db, cache
    ensures Done(tables0, resolver.compute, Request(cache.dataset, cache.aiFunction, "", sessionId, userId, cache.refresh),
                 now, seen + [id], resolver.db.tables, outcomes, failures, processed0, cache.processed)
  {
    var ok := ProcessSingle(resolver, cache.dataset, cache.aiFunction, id, sessionId, userId, cache.refresh, now);
    failures := failures0;
    if ok {
      cache.Mark(id);
    } else {
      failures := failures + [id];
    }
    outcomes := outcomes0 + [ok];
    assert (seen + [id])[..|seen|] == seen;
    assert outcomes[..|outcomes0|] == outcomes0;
    SucceededAppend(seen, outcomes0, [id], [ok]);
  }

  /**
   * The inner loop of `run_bulk_process`: each id of one chunk in turn.  The
   * ghost parameters say what the run has done before this chunk.
   */
  method ProcessChunk(resolver: FunctionResolver, cache: CacheManager, batch: seq<string>, sessionId: string,
                      userId: string, now: string, ghost tables0: Tables, ghost processed0: set<string>,
                      ghost done: seq<string>, outcomes0: seq<bool>, failures0: seq<string>)
    returns (outcomes: seq<bool>, failures: seq<string>)
    requires Done(tables0, resolver.compute, Request(cache.dataset, cache.aiFunction, "", sessionId, userId, cache.refresh),
                  now, done, resolver.db.tables, outcomes0, failures0, processed0, cache.processed)
    modifies resolver, resolver.db, cache
    ensures Done(tables0, resolver.compute, Request(cache.dataset, cache.aiFunction, "", sessionId, userId, cache.refresh),
                 now, done + batch, resolver.db.tables, outcomes, failures, processed0, cache.processed)
  {
    ghost var q := Request(cache.dataset, cache.aiFunction, "", sessionId, userId, cache.refresh);
    outcomes, failures := outcomes0, failures0;
    var j := 0;
    assert done + batch[..0] == done;
    while j < |batch|
      invariant 0 <= j <= |batch|
      invariant Done(tables0, resolver.compute, q, now, done + batch[..j], resolver.db.tables, outcomes, failures,
                     processed0, cache.processed)
    {
      ghost var seen := done + batch[..j];
      outcomes, failures := ProcessId(resolver, cache, batch[j], sessionId, userId, now,
                                      tables0, processed0, seen, outcomes, failures);
      PrefixStep(done, batch, j);
      j := j + 1;
    }
    assert batch[..j] == batch;
  }

  /**
   * `run_bulk_process`: resolve every pending id, chunk by chunk, marking
   * successes and collecting failures; the progress file is saved after every
   * chunk, and cleared when nothing failed.  `now` is the clock every store
   * sees.
   */
  method RunBulkProcess(resolver: FunctionResolver, file: ProgressFile, dataset: string, aiFunction: string,
                        batchSize: int, sessionId: string, userId: string, refresh: bool, now: string)
    returns (r: Result<Report, Error>, outcomes: seq<bool>, ghost plan: Result<Plan, Error>)
    modifies resolver, resolver.db, file
    ensures plan == PlanSpec(old(resolver.db.tables), old(file.state), dataset, aiFunction, refresh)
    ensures plan.Failure? ==>
              r == Failure(plan.error) && file.state == old(file.state) && resolver.db.tables == old(resolver.db.tables)
    ensures plan.Success? && plan.value.NoIds? ==>
              r == Success(NoRecords) && file.state == old(file.state) && resolver.db.tables == old(resolver.db.tables)
    ensures plan.Success? && plan.value.Work? && plan.value.pending == [] ==>
              && r == Success(NothingToProcess(plan.value.initial))
              && file.state == (if plan.value.loaded != {} then Absent else old(file.state))
              && resolver.db.tables == old(resolver.db.tables)
    ensures plan.Success? && plan.value.Work? && plan.value.pending != [] && batchSize <= 0 ==>
              && r == Failure(NonPositiveBatchSize)
              && file.state == Holds(SavedDocument(dataset, aiFunction, refresh, plan.value.loaded))
              && resolver.db.tables == old(resolver.db.tables)
    ensures plan.Success? && plan.value.Work? && plan.value.pending != [] && batchSize > 0 ==>
              var p := plan.value;
              var each := ResolveEach(old(resolver.db.tables), resolver.compute,
                                      Request(dataset, aiFunction, "", sessionId, userId, refresh), now, p.pending);
              && outcomes == each.outcomes
              && resolver.db.tables == each.tables
              && r == Success(Completed(p.initial, p.pending, Failed(p.pending, outcomes)))
              && file.state == (if Failed(p.pending, outcomes) == [] then Absent
                                else Holds(SavedDocument(dataset, aiFunction, refresh, p.loaded + Succeeded(p.pending, outcomes))))
  {
    outcomes := [];
    plan := PlanSpec(resolver.db.tables, file.state, dataset, aiFunction, refresh);
    var configured := GetDatasetConfig(dataset);
    if configured.Failure? {
      return Failure(configured.error), outcomes, plan;
    }
    var config := configured.value;
    if aiFunction !in config.aiFunctions {
      return Failure(InvalidAiFunction(aiFunction, config.aiFunctions)), outcomes, plan;
    }
    var db := resolver.db;
    var raw := RawRowsOf(db.tables, config.table);
    if raw.Failure? {
      return Failure(raw.error), outcomes, plan;
    }
    if raw.value == map[] {
      return Success(NoRecords), outcomes, plan;
    }
    var allIds := SortSet(raw.value.Keys);
    var cache := new CacheManager(file, dataset, aiFunction, refresh);
    var err := cache.Load();
    if err.Some? {
      return Failure(err.value), outcomes, plan;
    }
    ghost var work;
    r, outcomes, work := ProcessPending(resolver, cache, allIds, batchSize, sessionId, userId, now);
  }

  /**
   * The second half of `run_bulk_process`, once the progress file is loaded:
   * the stored results, the pending ids, and either nothing to do, the
   * ValueError of a non-positive batch size, or the chunked run.
   */
  method ProcessPending(resolver: FunctionResolver, cache: CacheManager, allIds: seq<string>, batchSize: int,
                        sessionId: string, userId: string, now: string)
    returns (r: Result<Report, Error>, outcomes: seq<bool>, ghost plan: Result<Plan, Error>)
    modifies resolver, resolver.db, cache, cache.file
    ensures plan == WorkSpec(old(resolver.db.tables), cache.dataset, cache.aiFunction, cache.refresh, allIds, old(cache.processed))
    ensures plan.Failure? ==>
              && r == Failure(plan.error) && cache.file.state == old(cache.file.state)
              && resolver.db.tables == old(resolver.db.tables)
    ensures plan.Success? && plan.value.pending == [] ==>
              && r == Success(NothingToProcess(plan.value.initial))
              && cache.file.state == (if plan.value.loaded != {} then Absent else old(cache.file.state))
              && resolver.db.tables == old(resolver.db.tables)
    ensures plan.Success? && plan.value.pending != [] && batchSize <= 0 ==>
              && r == Failure(NonPositiveBatchSize)
              && cache.file.state == Holds(SavedDocument(cache.dataset, cache.aiFunction, cache.refresh, plan.value.loaded))
              && resolver.db.tables == old(resolver.db.tables)
    ensures plan.Success? && plan.value.pending != [] && batchSize > 0 ==>
              var p := plan.value;
              var each := ResolveEach(old(resolver.db.tables), resolver.compute,
                                      Request(cache.dataset, cache.aiFunction, "", sessionId, userId, cache.refresh), now, p.pending);
              && outcomes == each.outcomes
              && resolver.db.tables == each.tables
              && r == Success(Completed(p.initial, p.pending, Failed(p.pending, outcomes)))
              && cache.file.state == (if Failed(p.pending, outcomes) == [] then Absent
                                      else Holds(SavedDocument(cache.dataset, cache.aiFunction, cache.refresh,
                                                               p.loaded + Succeeded(p.pending, outcomes))))
  {
    outcomes := [];
    plan := WorkSpec(resolver.db.tables, cache.dataset, cache.aiFunction, cache.refresh, allIds, cache.processed);
    var done := Computed(resolver.db.tables, cache.dataset, cache.aiFunction, cache.refresh);
    if done.Failure? {
      return Failure(done.error), outcomes, plan;
    }
    var candidates := Candidates(allIds, done.value, cache.refresh);
    var pending := NotIn(candidates, cache.processed);
    var initial := InitialProgress(allIds, candidates, cache.processed);
    if pending == [] {
      if cache.processed != {} {
        cache.Clear();
      }
      return Success(NothingToProcess(initial)), outcomes, plan;
    }
    if batchSize <= 0 {
      // chunked raises inside the try block, whose handler saves and re-raises
      cache.Save();
      return Failure(NonPositiveBatchSize), outcomes, plan;
    }
    var failures;
    outcomes, failures := RunChunks(resolver, cache, pending, batchSize, sessionId, userId, now);
    if failures == [] {
      cache.Clear();
    }
    r := Success(Completed(initial, pending, failures));
  }

  /**
   * The outer loop of `run_bulk_process`: the pending ids in chunks of
   * `batchSize`, the progress file saved after each chunk.
   */
  method RunChunks(resolver: FunctionResolver, cache: CacheManager, pending: seq<string>, batchSize: int,
                   sessionId: string, userId: string, now: string)
    returns (outcomes: seq<bool>, failures: seq<string>)
    requires pending != [] && batchSize > 0
    modifies resolver, resolver.db, cache, cache.file
    ensures var each := ResolveEach(old(resolver.db.tables), resolver.compute,
                                    Request(cache.dataset, cache.aiFunction, "", sessionId, userId, cache.refresh), now, pending);
            outcomes == each.outcomes && resolver.db.tables == each.tables
    ensures failures == Failed(pending, outcomes)
    ensures cache.processed == old(cache.processed) + Succeeded(pending, outcomes)
    ensures cache.file.state == Holds(SavedDocument(cache.dataset, cache.aiFunction, cache.refresh, cache.processed))
  {
    ghost var q := Request(cache.dataset, cache.aiFunction, "", sessionId, userId, cache.refresh);
    ghost var tables0 := resolver.db.tables;
    ghost var processed0 := cache.processed;
    var chunks := Chunks(pending, batchSize);
    ChunksFlatten(pending, batchSize);
    assert |chunks| > 0;
    outcomes, failures := [], [];
    var c := 0;
    while c < |chunks|
      invariant 0 <= c <= |chunks|
      invariant Done(tables0, resolver.compute, q, now, Flatten(chunks[..c]), resolver.db.tables, outcomes, failures,
                     processed0, cache.processed)
      invariant c > 0 ==> cache.file.state == Holds(SavedDocument(cache.dataset, cache.aiFunction, cache.refresh, cache.processed))
    {
      ghost var seen := Flatten(chunks[..c]);
      outcomes, failures := ProcessChunk(resolver, cache, chunks[c], sessionId, userId, now,
                                         tables0, processed0, seen, outcomes, failures);
      cache.Save();
      FlattenStep(chunks, c);
      c := c + 1;
    }
    assert chunks[..c] == chunks;
  }
}
