/** The dataset catalogue (`datasets.Store`): inserting a dataset row and
    listing every dataset. */
module DatasetStore {
  import opened Common
  import opened Database

  /** A dataset. `uploadIds` maps artefact names to the uploads that hold them;
      `parent` is the id of the dataset it was derived from, if any. */
  datatype Dataset = Dataset(
    id: string,
    name: string,
    parent: Option<string>,
    version: string,
    description: string,
    uploadIds: map<string, string>)

  /** The tables after `INSERT INTO datasets (name, parent, version,
      description) … RETURNING id`: one row appended under the next id. */
  function Inserted(t: Tables, d: Dataset): Tables {
    t.(datasets := t.datasets + [DatasetRow(NextId(t), d.name, d.parent, d.version, d.description)],
       serial := t.serial + 1)
  }

  /** A listed dataset shows the columns of its row. Its artefacts, which
      the query aggregates from the uploads the dataset owns, are not
      constrained. */
  predicate Shows(d: Dataset, row: DatasetRow) {
    d.id == row.id && d.name == row.name && d.parent == row.parent
    && d.version == row.version && d.description == row.description
  }

  /** `ds` lists the rows at the positions `order`, one dataset per row read. */
  predicate Listed(ds: seq<Dataset>, rows: seq<DatasetRow>, order: seq<nat>) {
    |ds| == |order| && DistinctBelow(order, |rows|)
    && forall i :: 0 <= i < |ds| ==> Shows(ds[i], rows[order[i]])
  }

  const QueryFailedPrefix := "could not query datasets: "

  /** `createWithQuerier`: the insert echoes the four inserted fields under the
      new id and leaves the artefacts empty. */
  method InsertDataset(q: Conn, d: Dataset) returns (r: Result<Dataset, Error>)
    modifies q
    ensures r.Success? ==> r.value == Dataset(NextId(old(q.tables)), d.name, d.parent, d.version, d.description, map[])
    ensures r.Success? ==> q.tables == Inserted(old(q.tables), d)
    ensures r.Failure? ==> q.tables == old(q.tables)
  {
    var ok: bool := *;
    if !ok {
      var message: string := *;
      return Failure(Error(message));
    }
    var id := NextId(q.tables);
    q.tables := Inserted(q.tables, d);
    r := Success(Dataset(id, d.name, d.parent, d.version, d.description, map[]));
  }

  /** `List`: the query ends in `GROUP BY` with no `ORDER BY`, so the rows
      come back in an order the database chooses, recorded in `order`.
      `rows.Next` ends the iteration on a read error as it does at the end
      of the rows, and `rows.Err()` is never consulted, so such an error is
      swallowed and the datasets read so far, possibly none, are returned
      as a success (`cut`). A failed `Scan` returns an error and no
      datasets. */
  method ListDatasets(q: Conn) returns (r: Result<seq<Dataset>, Error>, ghost queried: bool, ghost order: seq<nat>, ghost cut: bool)
    ensures !queried ==> r.Failure? && r.error.Error? && QueryFailedPrefix <= r.error.text
    ensures r.Failure? ==> r.error.Error?
    ensures r.Success? ==> queried && Listed(r.value, q.tables.datasets, order)
    ensures r.Success? ==> (cut <==> |r.value| < |q.tables.datasets|)
    ensures r.Success? && !cut ==> forall j :: 0 <= j < |q.tables.datasets| ==> j in order
  {
    var ok: bool := *;
    queried, order, cut := ok, [], false;
    if !ok {
      var message: string := *;
      return Failure(Error(QueryFailedPrefix + message)), queried, order, cut;
    }
    var rows := q.tables.datasets;
    var pending: set<nat> := Positions(|rows|);
    var ds: seq<Dataset> := [];
    while pending != {}
      invariant Listed(ds, rows, order)
      invariant forall j :: j in pending ==> 0 <= j < |rows|
      invariant forall j :: 0 <= j < |rows| ==> (j in pending <==> j !in order)
      invariant |order| + |pending| == |rows|
      decreases |pending|
    {
      var next: bool := *;
      if !next {
        cut := true;
        break;
      }
      var scanned: bool := *;
      if !scanned {
        var message: string := *;
        return Failure(Error(message)), queried, order, cut;
      }
      var k :| k in pending;
      var artefacts: map<string, string> := *;
      var row := rows[k];
      ds := ds + [Dataset(row.id, row.name, row.parent, row.version, row.description, artefacts)];
      order := order + [k];
      pending := pending - {k};
    }
    r := Success(ds);
  }

  /** `datasets.Store`, bound to the connection pool it was built with. */
  class Store {
    const q: Conn

    constructor (q: Conn)
      ensures this.q == q
    {
      this.q := q;
    }

    /** `create` is `createWithQuerier` on the store's own connection. */
    method Create(d: Dataset) returns (r: Result<Dataset, Error>)
      modifies q
      ensures r.Success? ==> r.value == Dataset(NextId(old(q.tables)), d.name, d.parent, d.version, d.description, map[])
      ensures r.Success? ==> q.tables == Inserted(old(q.tables), d)
      ensures r.Failure? ==> q.tables == old(q.tables)
    {
      r := InsertDataset(q, d);
    }

    /** Inserts through `conn`, which may be a transaction. */
    method CreateWithQuerier(conn: Conn, d: Dataset) returns (r: Result<Dataset, Error>)
      modifies conn
      ensures r.Success? ==> r.value == Dataset(NextId(old(conn.tables)), d.name, d.parent, d.version, d.description, map[])
      ensures r.Success? ==> conn.tables == Inserted(old(conn.tables), d)
      ensures r.Failure? ==> conn.tables == old(conn.tables)
    {
      r := InsertDataset(conn, d);
    }

    /** Lists the datasets on the store's own connection. */
    method List() returns (r: Result<seq<Dataset>, Error>, ghost order: seq<nat>, ghost cut: bool)
      ensures r.Success? ==> Listed(r.value, q.tables.datasets, order)
      ensures r.Success? ==> (cut <==> |r.value| < |q.tables.datasets|)
      ensures r.Success? && !cut ==> forall j :: 0 <= j < |q.tables.datasets| ==> j in order
      ensures r.Failure? ==> r.error.Error?
    {
      ghost var queried;
      r, queried, order, cut := ListDatasets(q);
    }
  }

  /** The insert appends the new row after every existing one, which it
      leaves unchanged. */
  lemma InsertAppends(t: Tables, d: Dataset)
    ensures |Inserted(t, d).datasets| == |t.datasets| + 1
    ensures Shows(Dataset(NextId(t), d.name, d.parent, d.version, d.description, map[]),
                  Inserted(t, d).datasets[|t.datasets|])
    ensures Inserted(t, d).datasets[..|t.datasets|] == t.datasets
  {
  }

  /** A listing that read every row after an insert shows the created
      dataset, with the fields the insert echoed, at some position. */
  lemma CreatedThenListed(t: Tables, d: Dataset, ds: seq<Dataset>, order: seq<nat>)
    requires Listed(ds, Inserted(t, d).datasets, order)
    requires forall j :: 0 <= j < |Inserted(t, d).datasets| ==> j in order
    ensures exists i :: 0 <= i < |ds| && Shows(ds[i], DatasetRow(NextId(t), d.name, d.parent, d.version, d.description))
  {
    var rows := Inserted(t, d).datasets;
    assert |t.datasets| in order;
    var i :| 0 <= i < |order| && order[i] == |t.datasets|;
    assert Shows(ds[i], rows[order[i]]);
  }
}
