/** The older dataset catalogue (`datasets.Repository`): the same insert and
    listing as `datasets.Store`, exported under capitalised names. */
module DatasetRepository {
  import opened Common
  import opened Database
  import opened DatasetStore

  class Repository {
    const conn: Conn

    constructor (conn: Conn)
      ensures this.conn == conn
    {
      this.conn := conn;
    }

    /** `Create` is `CreateWithQuerier` on the repository's own connection. */
    method Create(d: Dataset) returns (r: Result<Dataset, Error>)
      modifies conn
      ensures r.Success? ==> r.value == Dataset(NextId(old(conn.tables)), d.name, d.parent, d.version, d.description, map[])
      ensures r.Success? ==> conn.tables == Inserted(old(conn.tables), d)
      ensures r.Failure? ==> conn.tables == old(conn.tables)
    {
      r := CreateWithQuerier(conn, d);
    }

    /** Echoes name, parent, version and description under the scanned id. */
    method CreateWithQuerier(q: Conn, d: Dataset) returns (r: Result<Dataset, Error>)
      modifies q
      ensures r.Success? ==> r.value == Dataset(NextId(old(q.tables)), d.name, d.parent, d.version, d.description, map[])
      ensures r.Success? ==> q.tables == Inserted(old(q.tables), d)
      ensures r.Failure? ==> q.tables == old(q.tables)
    {
      r := InsertDataset(q, d);
    }

    /** The same listing as the store's: rows in the database's order, a
        swallowed read error ending it early, a failed scan giving nothing. */
    method List() returns (r: Result<seq<Dataset>, Error>, ghost order: seq<nat>, ghost cut: bool)
      ensures r.Success? ==> Listed(r.value, conn.tables.datasets, order)
      ensures r.Success? ==> (cut <==> |r.value| < |conn.tables.datasets|)
      ensures r.Success? && !cut ==> forall j :: 0 <= j < |conn.tables.datasets| ==> j in order
      ensures r.Failure? ==> r.error.Error?
    {
      ghost var queried;
      r, queried, order, cut := ListDatasets(conn);
    }
  }
}
