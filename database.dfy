/**
 * `execute_query`: open a connection, run one statement, turn the fetched
 * tuples into dictionaries keyed by the cursor's column names, and close the
 * connection whatever happened. The database server is an oracle: a function
 * from the statement to what the server will do with it.
 */
module Database {
  import opened Wrappers
  import opened Json

  /** One result row as a Python dict from column name to cell. */
  type Row = map<string, Value>

  /**
   * What the server does with a statement once it is sent.
   * `description` holds the names in `cursor.description`; an empty list
   * stands for a falsy description (None, or no columns at all).
   * `fetched` is what `fetchall()` yields or the message it raises with.
   */
  datatype Reply =
    | Raises(message: string)
    | Completed(description: seq<string>, fetched: Result<seq<seq<Value>>, string>)

  /** What `execute_query` returns: a list of rows, or `{"error": str(e)}`. */
  datatype QueryResult = Rows(rows: seq<Row>) | Error(message: string)

  /** The message every `{"error": ...}` result carries, as a JSON object. */
  function ErrorObject(message: string): (v: Value)
    ensures v.Obj? && v.fields.Keys == {"error"} && v.fields["error"] == Str(message)
  {
    Obj(map["error" := Str(message)])
  }

  // ---------------------------------------------------------------------------
  // dict(zip(columns, row))

  /**
   * The dictionary built from key/value pairs inserted from first to last:
   * a key seen twice keeps its last value.
   */
  function Assoc(keys: seq<string>, vals: seq<Value>): Row
    requires |keys| == |vals|
    decreases |keys|
  {
    if keys == [] then map[]
    else Assoc(keys[..|keys| - 1], vals[..|keys| - 1])[keys[|keys| - 1] := vals[|keys| - 1]]
  }

  function Min(a: nat, b: nat): nat { if a <= b then a else b }

  /** `dict(zip(columns, row))`: `zip` stops at the shorter of the two. */
  function ZipDict(columns: seq<string>, row: seq<Value>): Row {
    var n := Min(|columns|, |row|);
    Assoc(columns[..n], row[..n])
  }

  /** `[dict(zip(columns, row)) for row in rows]`. */
  function ToDicts(columns: seq<string>, rows: seq<seq<Value>>): (r: seq<Row>)
    ensures |r| == |rows|
    ensures forall i :: 0 <= i < |rows| ==> r[i] == ZipDict(columns, rows[i])
  {
    seq(|rows|, i requires 0 <= i < |rows| => ZipDict(columns, rows[i]))
  }

  /** The column at index `j` is not repeated later in the first `n` names. */
  predicate LastOccurrence(columns: seq<string>, j: nat, n: nat)
    requires j < n <= |columns|
  {
    forall k :: j < k < n ==> columns[k] != columns[j]
  }

  /** The keys of the dictionary are exactly the names inserted. */
  lemma {:induction false} AssocKeys(keys: seq<string>, vals: seq<Value>)
    requires |keys| == |vals|
    ensures Assoc(keys, vals).Keys == set j | 0 <= j < |keys| :: keys[j]
    decreases |keys|
  {
    if keys != [] {
      var n := |keys| - 1;
      AssocKeys(keys[..n], vals[..n]);
      assert (set j | 0 <= j < |keys| :: keys[j]) == (set j | 0 <= j < n :: keys[..n][j]) + {keys[n]};
    }
  }

  /** A name that is not inserted again later maps to the value inserted with it. */
  lemma {:induction false} AssocLastWins(keys: seq<string>, vals: seq<Value>, j: nat)
    requires |keys| == |vals| && j < |keys|
    requires LastOccurrence(keys, j, |keys|)
    ensures keys[j] in Assoc(keys, vals) && Assoc(keys, vals)[keys[j]] == vals[j]
    decreases |keys|
  {
    var n := |keys| - 1;
    if j < n {
      assert LastOccurrence(keys[..n], j, n);
      AssocLastWins(keys[..n], vals[..n], j);
    }
  }

  /**
   * The dictionary for one row: its keys are the first min(|columns|, |row|)
   * names, and each name maps to the cell of its LAST position among them.
   */
  lemma ZipDictCells(columns: seq<string>, row: seq<Value>)
    ensures var n := Min(|columns|, |row|);
      && ZipDict(columns, row).Keys == (set j | 0 <= j < n :: columns[j])
      && forall j :: 0 <= j < n && LastOccurrence(columns, j, n) ==>
           columns[j] in ZipDict(columns, row) && ZipDict(columns, row)[columns[j]] == row[j]
  {
    var n := Min(|columns|, |row|);
    AssocKeys(columns[..n], row[..n]);
    assert (set j | 0 <= j < n :: columns[..n][j]) == (set j | 0 <= j < n :: columns[j]);
    forall j | 0 <= j < n && LastOccurrence(columns, j, n)
      ensures columns[j] in ZipDict(columns, row) && ZipDict(columns, row)[columns[j]] == row[j]
    {
      assert LastOccurrence(columns[..n], j, n);
      AssocLastWins(columns[..n], row[..n], j);
    }
  }

  /** Column names are pairwise distinct. */
  predicate Distinct(columns: seq<string>) {
    forall j, k :: 0 <= j < k < |columns| ==> columns[j] != columns[k]
  }

  /**
   * With distinct names and rows as wide as the description, result i has
   * exactly the column names as keys and maps `columns[j]` to `rows[i][j]`.
   */
  lemma ToDictsCells(columns: seq<string>, rows: seq<seq<Value>>, i: nat, j: nat)
    requires Distinct(columns) && i < |rows| && |rows[i]| == |columns| && j < |columns|
    ensures ToDicts(columns, rows)[i].Keys == set k | 0 <= k < |columns| :: columns[k]
    ensures ToDicts(columns, rows)[i][columns[j]] == rows[i][j]
  {
    ZipDictCells(columns, rows[i]);
  }

  // ---------------------------------------------------------------------------
  // The connection and the operation

  /** The behaviour of `execute_query`, path by path. */
  function ExecuteQuerySpec(connectError: Option<string>, reply: Reply): QueryResult {
    if connectError.Some? then Error(connectError.value)
    else match reply
      case Raises(m) => Error(m)
      case Completed(description, fetched) =>
        if description == [] then Rows([])
        else match fetched
          case Failure(m) => Error(m)
          case Success(tuples) => Rows(ToDicts(description, tuples))
  }

  /**
   * A database connection with its cursor folded in. `server` is how the
   * server answers each statement; `sent` records the statements executed.
   */
  class Connection {
    const server: Value -> Reply
    var isOpen: bool
    var sent: seq<Value>
    var pending: Reply

    constructor (server: Value -> Reply)
      ensures this.server == server && isOpen && sent == []
    {
      this.server := server;
      isOpen := true;
      sent := [];
      pending := Raises("");  // no statement executed yet; Description and FetchAll are not reachable before Execute
    }

    /** `cur.execute(sql)`: returns the message it raises with, if any. */
    method Execute(sql: Value) returns (raised: Option<string>)
      requires isOpen
      modifies this
      ensures isOpen && sent == old(sent) + [sql] && pending == server(sql)
      ensures raised == if pending.Raises? then Some(pending.message) else None
    {
      sent := sent + [sql];
      pending := server(sql);
      raised := if pending.Raises? then Some(pending.message) else None;
    }

    /** The column names of `cur.description`, empty when it is falsy. */
    method Description() returns (columns: seq<string>)
      requires isOpen && pending.Completed?
      ensures columns == pending.description
    {
      columns := pending.description;
    }

    /** `cur.fetchall()`. */
    method FetchAll() returns (fetched: Result<seq<seq<Value>>, string>)
      requires isOpen && pending.Completed?
      ensures fetched == pending.fetched
    {
      fetched := pending.fetched;
    }

    /** `conn.close()`. */
    method Close()
      modifies this
      ensures !isOpen && sent == old(sent) && pending == old(pending)
    {
      isOpen := false;
    }
  }

  /**
   * `execute_query(sql)`. `connectError` is the message `psycopg2.connect`
   * raises with, if it does. `conn` is the connection opened, null when none
   * was; when one was, exactly this statement went through it and it is
   * closed on return, on the success and the error paths alike.
   */
  method ExecuteQuery(connectError: Option<string>, server: Value -> Reply, sql: Value)
    returns (result: QueryResult, conn: Connection?)
    ensures result == ExecuteQuerySpec(connectError, server(sql))
    ensures conn == null <==> connectError.Some?
    ensures conn != null ==> fresh(conn) && conn.server == server && !conn.isOpen && conn.sent == [sql]
  {
    conn := null;
    if connectError.Some? {
      result := Error(connectError.value);
      return;
    }
    conn := new Connection(server);
    var raised := conn.Execute(sql);
    if raised.Some? {
      result := Error(raised.value);
    } else {
      var columns := conn.Description();
      if columns != [] {
        var fetched := conn.FetchAll();
        match fetched
        case Failure(m) =>
          result := Error(m);
        case Success(tuples) =>
          result := Rows(ToDicts(columns, tuples));
      } else {
        result := Rows([]);
      }
    }
    conn.Close();
  }

  // ---------------------------------------------------------------------------
  // Properties of the specification

  /**
   * The result is an error exactly when connecting, executing or fetching
   * raised, and then it carries that message; a statement without column
   * metadata yields the empty list, not an error.
   */
  lemma ExecuteQueryOutcomes(connectError: Option<string>, reply: Reply)
    ensures var r := ExecuteQuerySpec(connectError, reply);
      r.Error? <==> (connectError.Some? || reply.Raises?
                     || (reply.description != [] && reply.fetched.Failure?))
    ensures var r := ExecuteQuerySpec(connectError, reply);
      r.Error? ==> r.message == (if connectError.Some? then connectError.value
                                 else if reply.Raises? then reply.message
                                 else reply.fetched.error)
    ensures connectError.None? && reply.Completed? && reply.description == [] ==>
      ExecuteQuerySpec(connectError, reply) == Rows([])
  {
  }

  /** With column metadata the result has exactly one dictionary per fetched tuple, none included. */
  lemma ExecuteQueryRowCount(description: seq<string>, tuples: seq<seq<Value>>)
    requires description != []
    ensures var r := ExecuteQuerySpec(None, Completed(description, Success(tuples)));
      r.Rows? && |r.rows| == |tuples|
  {
  }

  /** With column metadata, dictionary i maps each column name to the cell of its last position in tuple i. */
  lemma ExecuteQueryRows(description: seq<string>, tuples: seq<seq<Value>>, i: nat, j: nat)
    requires description != [] && i < |tuples| && j < Min(|description|, |tuples[i]|)
    requires LastOccurrence(description, j, Min(|description|, |tuples[i]|))
    ensures var r := ExecuteQuerySpec(None, Completed(description, Success(tuples)));
      && r.Rows? && |r.rows| == |tuples|
      && description[j] in r.rows[i] && r.rows[i][description[j]] == tuples[i][j]
  {
    ZipDictCells(description, tuples[i]);
  }

  /**
   * With a repeated column name the later column's cell wins, as `dict` does:
   * when the name at `j` appears again at `k` and not after `k`, it maps to
   * the cell at `k`.
   */
  lemma DuplicateColumnLaterWins(columns: seq<string>, row: seq<Value>, j: nat, k: nat)
    requires j < k < Min(|columns|, |row|) && columns[j] == columns[k]
    requires LastOccurrence(columns, k, Min(|columns|, |row|))
    ensures columns[j] in ZipDict(columns, row) && ZipDict(columns, row)[columns[j]] == row[k]
    ensures row[j] != row[k] ==> ZipDict(columns, row)[columns[j]] != row[j]
  {
    ZipDictCells(columns, row);
  }
}
