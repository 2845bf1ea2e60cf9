/** The PostgreSQL database behind the stores, as three in-memory tables.

    A `Conn` is a querier: the connection pool itself, or the private working
    copy of an open transaction. `Begin` copies the pool's tables into a fresh
    working copy, `Commit` publishes the working copy and `Rollback` discards
    it. Driver failures (a lost connection, a failed scan) can happen at any
    call and are drawn nondeterministically. */
module Database {
  import opened Common
  import opened UploadTypes
  import Paths

  /** The `files` jsonb column: a map that decodes, or bytes that do not. */
  datatype FilesColumn = Encoded(files: map<string, FileRef>) | Undecodable

  /** A row of `uploads`, keyed by its id. */
  datatype UploadRow = UploadRow(files: FilesColumn, datasetId: Option<string>, modelId: Option<string>)

  /** A row of `datasets`. */
  datatype DatasetRow = DatasetRow(
    id: string, name: string, parent: Option<string>, version: string, description: string)

  /** A row of `models`: the dataset columns plus the model's extra columns. */
  datatype ModelRow = ModelRow(
    id: string, name: string, parent: Option<string>, version: string, description: string,
    dataset: string, config: Bytes, metadata: Bytes, environment: Bytes, evaluation: Bytes)

  /** The whole database; `serial` is the sequence that hands out the next id. */
  datatype Tables = Tables(
    uploads: map<string, UploadRow>,
    datasets: seq<DatasetRow>,
    models: seq<ModelRow>,
    serial: nat)

  /** pgx's `ErrNoRows`, returned by `Scan` when the query matched no row. */
  const NoRows: Error := Error("no rows in result set")

  /** pgx's `ErrTxClosed`, returned when a finished transaction is used again. */
  const TxClosed: Error := Error("tx is closed")

  function DigitChar(d: nat): (c: char)
    requires d < 10
    ensures '0' <= c <= '9'
  {
    "0123456789"[d]
  }

  /** `n` in decimal. */
  function Decimal(n: nat): (s: string)
    ensures s != []
    ensures forall i :: 0 <= i < |s| ==> '0' <= s[i] <= '9'
  {
    if n < 10 then [DigitChar(n)] else Decimal(n / 10) + [DigitChar(n % 10)]
  }

  /** The id the database assigns to the next inserted row. Ids are clean path
      segments, which the saga relies on when it builds directory names. */
  function NextId(t: Tables): (id: string)
    ensures Paths.IsSegment(id)
  {
    Decimal(t.serial)
  }

  /** The positions `0 .. n - 1` of a table's rows. */
  function Positions(n: nat): (s: set<nat>)
    ensures |s| == n
    ensures forall j: int :: j in s <==> 0 <= j < n
  {
    if n == 0 then {} else Positions(n - 1) + {n - 1}
  }

  /** `order` names distinct row positions of a table of `n` rows: the rows a
      listing read, in the order the database returned them. */
  predicate DistinctBelow(order: seq<nat>, n: nat) {
    (forall i :: 0 <= i < |order| ==> order[i] < n)
    && forall i, k :: 0 <= i < k < |order| ==> order[i] != order[k]
  }

  /** A querier: the pool, or a transaction's working copy. */
  class Conn {
    var tables: Tables

    constructor (t: Tables)
      ensures tables == t
    {
      tables := t;
    }
  }

  datatype TxStatus = Active | Committed | RolledBack

  /** An open transaction over `pool`, whose statements run against `work`. */
  class Tx {
    const pool: Conn
    const work: Conn
    var status: TxStatus

    ghost predicate Valid()
      reads this
    {
      pool != work
    }

    constructor (pool: Conn)
      ensures Valid() && this.pool == pool && fresh(work)
      ensures work.tables == pool.tables && status == Active
    {
      this.pool := pool;
      work := new Conn(pool.tables);
      status := Active;
    }

    /** `tx.Commit(ctx)`: publishes the working copy, or fails and publishes
        nothing. A transaction that is no longer active cannot commit. */
    method Commit() returns (r: Outcome<Error>)
      requires Valid()
      modifies this, pool
      ensures Valid() && work.tables == old(work.tables)
      ensures old(status) != Active ==> r == Fail(TxClosed)
      ensures r.Pass? ==> old(status) == Active && status == Committed && pool.tables == work.tables
      ensures r.Fail? ==> status == old(status) && pool.tables == old(pool.tables)
    {
      if status != Active {
        return Fail(TxClosed);
      }
      var ok: bool := *;
      if !ok {
        var message: string := *;
        return Fail(Error(message));
      }
      pool.tables := work.tables;
      status := Committed;
      r := Pass;
    }

    /** `tx.Rollback(ctx)`: discards the working copy; the pool never changes. */
    method Rollback() returns (r: Outcome<Error>)
      modifies this
      ensures old(status) == Active ==> r == Pass && status == RolledBack
      ensures old(status) != Active ==> r == Fail(TxClosed) && status == old(status)
    {
      if status != Active {
        return Fail(TxClosed);
      }
      status := RolledBack;
      r := Pass;
    }
  }

  /** `db.Begin(ctx)`: opens a transaction whose working copy starts as the
      pool's tables, or fails and opens nothing. */
  method Begin(pool: Conn) returns (r: Result<Tx, Error>)
    ensures r.Success? ==> fresh(r.value) && fresh(r.value.work) && r.value.Valid()
    ensures r.Success? ==> r.value.pool == pool && r.value.status == Active
    ensures r.Success? ==> r.value.work.tables == pool.tables
  {
    var ok: bool := *;
    if !ok {
      var message: string := *;
      return Failure(Error(message));
    }
    var tx := new Tx(pool);
    r := Success(tx);
  }
}
