/**
 * The SQLite database seen as data: a map from table name to table.  A raw
 * table maps a record id to its columns, a result table maps an id to a
 * stored payload and its timestamp, and a token table is a list of
 * (id, token) rows.  A name the map does not hold is a table that does not
 * exist, and every statement on it fails.
 */
module Store {
  import opened Values
  import opened Seqs

  /**
   * The `raw_data` column: NULL or empty (both falsy, so every reader skips
   * them), JSON text and what it decodes to, or non-empty text that does not
   * decode.  `Undecodable("")` stands for no state of the column.
   */
  datatype Blob = NoBlob | Parsed(value: Value) | Undecodable(text: string)

  /** A row of a `<dataset>_raw` table; the key column is the map key. */
  datatype RawRow = RawRow(
    title: Value,
    category: Value,
    theme: Value,
    subtheme: Value,
    rawData: Blob,
    description: Value := Null,
    nfrTaxonomy: Value := Null)

  /** A row of a `<dataset>_<function>` table: the JSON payload and `created_at`. */
  datatype Entry = Entry(payload: Value, createdAt: string)

  /** A row of a `<dataset>_taxonomy_map` table. */
  datatype TokenRow = TokenRow(id: string, token: string)

  datatype Table =
    | RawTable(rows: map<string, RawRow>)
    | ResultTable(entries: map<string, Entry>)
    | TokenTable(tokens: seq<TokenRow>)

  type Tables = map<string, Table>

  /** `SELECT COUNT(*) FROM t`. */
  function RowCount(t: Table): nat {
    match t
    case RawTable(rows) => |rows|
    case ResultTable(entries) => |entries|
    case TokenTable(tokens) => |tokens|
  }

  /** `SELECT 1 FROM t WHERE key = id` finds a row. */
  predicate HasRow(t: Table, id: string) {
    match t
    case RawTable(rows) => id in rows
    case ResultTable(entries) => id in entries
    case TokenTable(tokens) => exists i :: 0 <= i < |tokens| && tokens[i].id == id
  }

  predicate SameKind(t: Table, u: Table) {
    (t.RawTable? && u.RawTable?) || (t.ResultTable? && u.ResultTable?) || (t.TokenTable? && u.TokenTable?)
  }

  /** `u` holds exactly the rows of `t` whose key is not `id`. */
  ghost predicate Keeps(t: Table, u: Table, id: string) {
    && SameKind(t, u)
    && (t.RawTable? ==> u.rows.Keys == t.rows.Keys - {id} && forall k :: k in u.rows ==> u.rows[k] == t.rows[k])
    && (t.ResultTable? ==>
          u.entries.Keys == t.entries.Keys - {id} && forall k :: k in u.entries ==> u.entries[k] == t.entries[k])
    && (t.TokenTable? ==>
          && (forall i :: 0 <= i < |u.tokens| ==> u.tokens[i].id != id && u.tokens[i] in t.tokens)
          && (forall i :: 0 <= i < |t.tokens| && t.tokens[i].id != id ==> t.tokens[i] in u.tokens))
  }

  /** The table after a DELETE, and the cursor's row count. */
  datatype Deletion = Deletion(table: Table, count: nat)

  /**
   * `DELETE FROM t WHERE key = id` when an id is given, `DELETE FROM t`
   * otherwise; the count is the number of rows the statement removed.
   */
  function DeleteRows(t: Table, id: Option<string>): (r: Deletion)
    ensures SameKind(t, r.table)
    ensures id.None? ==> RowCount(r.table) == 0 && r.count == RowCount(t)
  {
    match id
    case None =>
      (match t
       case RawTable(_) => Deletion(RawTable(map[]), RowCount(t))
       case ResultTable(_) => Deletion(ResultTable(map[]), RowCount(t))
       case TokenTable(_) => Deletion(TokenTable([]), RowCount(t)))
    case Some(k) =>
      match t
      case RawTable(rows) => Deletion(RawTable(Remove(rows, k)), if k in rows then 1 else 0)
      case ResultTable(entries) => Deletion(ResultTable(Remove(entries, k)), if k in entries then 1 else 0)
      case TokenTable(tokens) =>
        var kept := Without(tokens, k);
        Deletion(TokenTable(kept), |tokens| - |kept|)
  }

  /** The reported count is the number of rows the statement removed. */
  lemma DeleteCount(t: Table, id: Option<string>)
    ensures RowCount(DeleteRows(t, id).table) <= RowCount(t)
    ensures DeleteRows(t, id).count == RowCount(t) - RowCount(DeleteRows(t, id).table)
  {
    match id
    case None =>
    case Some(k) =>
      match t
      case RawTable(rows) => MapRemoveCount(rows, k);
      case ResultTable(entries) => MapRemoveCount(entries, k);
      case TokenTable(tokens) =>
  }

  /** Deleting an id's rows leaves none for it, and deletes nothing when there was none. */
  lemma DeleteRemoves(t: Table, id: string)
    ensures !HasRow(DeleteRows(t, Some(id)).table, id)
    ensures !HasRow(t, id) ==> DeleteRows(t, Some(id)).count == 0
  {
    match t
    case RawTable(rows) =>
    case ResultTable(entries) =>
    case TokenTable(tokens) =>
      WithoutRows(tokens, id);
      if !HasRow(t, id) {
        WithoutNone(tokens, id);
      }
  }

  /** Replacing an existing table neither adds nor drops a name. */
  lemma ReplaceKeys(tables: Tables, n: string, t: Table)
    requires n in tables
    ensures tables[n := t].Keys == tables.Keys
  { }

  /** The map without key `k`. */
  function Remove<V>(m: map<string, V>, k: string): map<string, V> {
    map x | x in m && x != k :: m[x]
  }

  lemma MapRemoveCount<V>(m: map<string, V>, k: string)
    ensures Remove(m, k).Keys == m.Keys - {k}
    ensures |Remove(m, k)| == if k in m then |m| - 1 else |m|
  {
    var r := Remove(m, k);
    assert r.Keys == m.Keys - {k};
    assert |r| == |r.Keys|;
    if k !in m {
      assert m.Keys - {k} == m.Keys;
    }
  }

  /** Deleting an id's rows keeps every row of the other ids, and nothing else. */
  lemma DeleteKeeps(t: Table, id: string)
    ensures Keeps(t, DeleteRows(t, Some(id)).table, id)
  {
    match t
    case RawTable(rows) =>
      MapRemoveCount(rows, id);
    case ResultTable(entries) =>
      MapRemoveCount(entries, id);
    case TokenTable(tokens) =>
      WithoutRows(tokens, id);
  }

  /** The token rows whose id is not `k`, in order. */
  function Without(tokens: seq<TokenRow>, k: string): (r: seq<TokenRow>)
    ensures |r| <= |tokens|
  {
    if |tokens| == 0 then [] else (if tokens[0].id != k then [tokens[0]] else []) + Without(tokens[1..], k)
  }

  /** `Without` keeps exactly the rows of other ids. */
  lemma {:induction false} WithoutRows(tokens: seq<TokenRow>, k: string)
    ensures forall i :: 0 <= i < |Without(tokens, k)| ==> Without(tokens, k)[i].id != k && Without(tokens, k)[i] in tokens
    ensures forall i :: 0 <= i < |tokens| && tokens[i].id != k ==> tokens[i] in Without(tokens, k)
  {
    if |tokens| > 0 {
      WithoutRows(tokens[1..], k);
      var head: seq<TokenRow> := if tokens[0].id != k then [tokens[0]] else [];
      var rest := Without(tokens[1..], k);
      assert Without(tokens, k) == head + rest;
      forall i | 0 <= i < |head + rest|
        ensures (head + rest)[i].id != k && (head + rest)[i] in tokens
      {
        if i >= |head| {
          assert (head + rest)[i] == rest[i - |head|];
          assert rest[i - |head|] in tokens[1..];
        }
      }
      forall i | 0 <= i < |tokens| && tokens[i].id != k
        ensures tokens[i] in head + rest
      {
        if i > 0 {
          assert tokens[i] == tokens[1..][i - 1];
          assert tokens[i] in rest;
        }
      }
    }
  }

  /** When no row has id `k`, `Without` keeps every row. */
  lemma {:induction false} WithoutNone(tokens: seq<TokenRow>, k: string)
    requires forall i :: 0 <= i < |tokens| ==> tokens[i].id != k
    ensures Without(tokens, k) == tokens
  {
    if |tokens| > 0 {
      assert forall i :: 0 <= i < |tokens[1..]| ==> tokens[1..][i].id != k by {
        forall i | 0 <= i < |tokens[1..]| ensures tokens[1..][i].id != k {
          assert tokens[1..][i] == tokens[i + 1];
        }
      }
      WithoutNone(tokens[1..], k);
      assert [tokens[0]] + tokens[1..] == tokens;
    }
  }

  /** The rows of a raw table, or the error a query on a missing table raises. */
  function RawRowsOf(tables: Tables, name: string): (r: Result<map<string, RawRow>, Error>)
    ensures r.Success? <==> name in tables && tables[name].RawTable?
    ensures r.Success? ==> r.value == tables[name].rows
    ensures r.Failure? ==> r.error == NoSuchTable(name)
  {
    if name in tables && tables[name].RawTable? then Success(tables[name].rows)
    else Failure(NoSuchTable(name))
  }

  /** The entries of a result table, or the error a query on a missing table raises. */
  function EntriesOf(tables: Tables, name: string): (r: Result<map<string, Entry>, Error>)
    ensures r.Success? <==> name in tables && tables[name].ResultTable?
    ensures r.Success? ==> r.value == tables[name].entries
    ensures r.Failure? ==> r.error == NoSuchTable(name)
  {
    if name in tables && tables[name].ResultTable? then Success(tables[name].entries)
    else Failure(NoSuchTable(name))
  }

  /** The connection every component shares (`get_db()`). */
  class Database {
    var tables: Tables

    constructor (initial: Tables)
      ensures tables == initial
    {
      tables := initial;
    }
  }
}
