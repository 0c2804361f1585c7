/**
 * Python values as the backend handles them: JSON-shaped values, dicts that
 * remember insertion order, truthiness, and the exceptions the core raises.
 */
module Values {
  import opened Seqs
  import opened Strings

  datatype Option<+T> = None | Some(value: T)

  datatype Result<+T, +E> = Success(value: T) | Failure(error: E)

  /** A JSON-shaped Python value (`None`, bool, int, str, list, dict). */
  datatype Value =
    | Null
    | Bool(b: bool)
    | Int(i: int)
    | Str(s: string)
    | List(items: seq<Value>)
    | Obj(d: Dict)

  /** A Python dict with string keys: the keys in insertion order, and the mapping. */
  datatype Dict = Dict(keys: seq<string>, vals: map<string, Value>)

  const EmptyDict: Dict := Dict([], map[])

  /**
   * Exactly the mapped keys are listed, and as many times as there are
   * entries, so each of them once (`WellFormedDistinct`).
   */
  ghost predicate WellFormed(d: Dict) {
    Elems(d.keys) == d.vals.Keys && |d.keys| == |d.vals|
  }

  /** The keys of a well-formed dict are listed once each; such a listing of the mapped keys is well formed. */
  lemma WellFormedDistinct(d: Dict)
    ensures WellFormed(d) <==> Distinct(d.keys) && Elems(d.keys) == d.vals.Keys
  {
    DistinctCard(d.keys);
    if Elems(d.keys) == d.vals.Keys {
      assert |Elems(d.keys)| == |d.vals|;
    }
  }

  /** Python truthiness: None, False, 0, "", [] and {} are false. */
  predicate Truthy(v: Value) {
    match v
    case Null => false
    case Bool(b) => b
    case Int(i) => i != 0
    case Str(s) => s != ""
    case List(items) => items != []
    case Obj(d) => d.keys != []
  }

  /** `x or ""`: the value itself when truthy, otherwise the empty string. */
  function OrEmpty(v: Value): (r: Value)
    ensures Truthy(v) ==> r == v
    ensures !Truthy(v) ==> r == Str("")
  {
    if Truthy(v) then v else Str("")
  }

  /** `d.get(k, default)`. */
  function GetOr(d: Dict, k: string, default: Value): (r: Value)
    ensures k in d.vals ==> r == d.vals[k]
    ensures k !in d.vals ==> r == default
  {
    if k in d.vals then d.vals[k] else default
  }

  /** `d[k] = v`: a new key goes to the end, an existing key keeps its place. */
  function Put(d: Dict, k: string, v: Value): (r: Dict)
    requires WellFormed(d)
    ensures WellFormed(r)
    ensures r.vals == d.vals[k := v]
    ensures k in d.vals ==> r.keys == d.keys
    ensures k !in d.vals ==> r.keys == d.keys + [k]
  {
    if k in d.vals then Dict(d.keys, d.vals[k := v]) else Dict(d.keys + [k], d.vals[k := v])
  }

  /** `d.setdefault(k, v)`: adds `k` only when it is absent; an existing value always wins. */
  function SetDefault(d: Dict, k: string, v: Value): (r: Dict)
    requires WellFormed(d)
    ensures WellFormed(r)
    ensures k in d.vals ==> r == d
    ensures k !in d.vals ==> r.keys == d.keys + [k] && r.vals == d.vals[k := v]
  {
    if k in d.vals then d else Put(d, k, v)
  }

  /** `d.update(src)`: copies the entries of `src` into `d` in `src`'s key order. */
  function Update(d: Dict, src: Dict): (r: Dict)
    requires WellFormed(d)
    ensures WellFormed(r)
    decreases |src.keys|
  {
    if |src.keys| == 0 then d
    else
      var k := src.keys[0];
      var d' := if k in src.vals then Put(d, k, src.vals[k]) else d;
      Update(d', Dict(src.keys[1..], src.vals))
  }

  /** Updating an empty dict with a well-formed dict gives that dict back. */
  lemma {:induction false} UpdateEmpty(src: Dict)
    requires WellFormed(src)
    ensures Update(EmptyDict, src) == src
  {
    UpdatePrefix(src, 0);
  }

  lemma {:induction false} UpdatePrefix(src: Dict, n: nat)
    requires WellFormed(src)
    requires n <= |src.keys|
    ensures Update(Prefix(src, n), Dict(src.keys[n..], src.vals)) == src
    decreases |src.keys| - n
  {
    var p := Prefix(src, n);
    var rest := Dict(src.keys[n..], src.vals);
    WellFormedDistinct(src);
    if n == |src.keys| {
      assert p.keys == src.keys;
      assert p.vals.Keys == src.vals.Keys;
      assert p.vals == src.vals;
    } else {
      var k := src.keys[n];
      assert rest.keys[0] == k;
      assert forall j :: 0 <= j < n ==> src.keys[..n][j] != k;
      assert k !in p.vals;
      PrefixPut(src, n);
      assert rest.keys[1..] == src.keys[n + 1..];
      UpdatePrefix(src, n + 1);
    }
  }

  /** The first `n + 1` entries are the first `n` with entry `n` put after them. */
  lemma PrefixPut(src: Dict, n: nat)
    requires WellFormed(src)
    requires n < |src.keys|
    ensures var k := src.keys[n];
            k in src.vals && Put(Prefix(src, n), k, src.vals[k]) == Prefix(src, n + 1)
  {
    var k := src.keys[n];
    PrefixFresh(src, n);
    PrefixNext(src, n);
    var p, q := Prefix(src, n), Prefix(src, n + 1);
    assert Put(p, k, src.vals[k]).keys == q.keys;
    assert Put(p, k, src.vals[k]).vals == q.vals;
  }

  /** Entry by entry, `Prefix(src, n + 1)` extends `Prefix(src, n)` with entry `n`. */
  lemma PrefixNext(src: Dict, n: nat)
    requires WellFormed(src)
    requires n < |src.keys|
    ensures Prefix(src, n + 1).keys == Prefix(src, n).keys + [src.keys[n]]
    ensures src.keys[n] in src.vals
    ensures Prefix(src, n + 1).vals == Prefix(src, n).vals[src.keys[n] := src.vals[src.keys[n]]]
  {
    var k := src.keys[n];
    var p, q := Prefix(src, n), Prefix(src, n + 1);
    TakeStep(src.keys, n);
    assert k in Elems(src.keys);
    assert Elems(q.keys) == Elems(p.keys) + {k};
  }

  /** Entry `n` of a well-formed dict is not among the entries before it. */
  lemma PrefixFresh(src: Dict, n: nat)
    requires WellFormed(src)
    requires n < |src.keys|
    ensures src.keys[n] !in Elems(src.keys[..n])
  {
    var ks := src.keys[..n + 1];
    WellFormedDistinct(src);
    assert Distinct(ks) by {
      forall i, j | 0 <= i < j < |ks| ensures ks[i] != ks[j] {
        assert ks[i] == src.keys[i] && ks[j] == src.keys[j];
      }
    }
    DistinctSnoc(ks);
    assert ks[..n] == src.keys[..n];
  }

  /** The first `n` entries of a well-formed dict. */
  ghost function Prefix(src: Dict, n: nat): (r: Dict)
    requires WellFormed(src)
    requires n <= |src.keys|
    ensures WellFormed(r)
  {
    var ks := src.keys[..n];
    WellFormedDistinct(src);
    assert Distinct(ks);
    var m := map k | k in Elems(ks) :: src.vals[k];
    WellFormedDistinct(Dict(ks, m));
    Dict(ks, m)
  }

  /** The exceptions the core raises, one constructor per message shape. */
  datatype Error =
    | InvalidDataset(dataset: string)                      // ValueError "Invalid dataset: ..."
    | UnknownDataset(dataset: string)                      // ValueError "Unknown dataset '...'"
    | InvalidFunction(func: string, dataset: string)   // ValueError "Invalid function ... for dataset ..."
    | InvalidAiFunction(func: string, valid: seq<string>) // ValueError "Invalid ai_function ..."
    | RecordNotFound(id: string, dataset: string)          // ValueError "ID ... not found in ..."
    | ComputeFailed(func: string, cause: string)       // RuntimeError "Failed to compute ..."
    | NonPositiveBatchSize                                 // ValueError "batch size must be positive"
    | ZeroRangeStep                                        // ValueError from range() with step 0
    | NoSuchTable(table: string)                           // the SQLite error for a missing table
    | MalformedJson(text: string)                          // json.JSONDecodeError
    | NotADict                                             // AttributeError: `.get` on a non-dict record
    | CsvFileNotFound(path: string)                        // FileNotFoundError
    | NotIterable(typeName: string)                        // TypeError from `set()` of a scalar
    | Unhashable(typeName: string)                         // TypeError from `set()` of a list holding a list or dict
    | NonPositiveWorkers                                   // ValueError from a thread pool of no workers

  /** `str(exc)` for the errors whose text ends up in a report. */
  function Message(e: Error): string {
    match e
    case InvalidDataset(ds) => "Invalid dataset: " + ds
    case UnknownDataset(ds) => "Unknown dataset '" + ds + "'"
    case InvalidFunction(f, ds) => "Invalid function '" + f + "' for dataset '" + ds + "'"
    case InvalidAiFunction(f, valid) => "Invalid ai_function '" + f + "'. Valid options: " + JoinWith(valid, ", ")
    case RecordNotFound(id, ds) => "ID '" + id + "' not found in " + ds
    case ComputeFailed(f, cause) => "Failed to compute " + f + ": " + cause
    case NonPositiveBatchSize => "batch size must be positive"
    case ZeroRangeStep => "range() arg 3 must not be zero"
    case NoSuchTable(t) => "no such table: " + t
    case MalformedJson(_) => "Expecting value"
    case NotADict => "object has no attribute 'get'"
    case CsvFileNotFound(path) => "CSV file not found: " + path
    case NotIterable(t) => "'" + t + "' object is not iterable"
    case Unhashable(t) => "unhashable type: '" + t + "'"
    case NonPositiveWorkers => "max_workers must be greater than 0"
  }

  /** What a compute function does: return a payload or raise with a message. */
  datatype Computation = Computed(payload: Value) | Raised(message: string)
}
