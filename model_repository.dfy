/** The older model catalogue (`models.Repository`): the same insert and
    listing as `models.Store`. */
module ModelRepository {
  import opened Common
  import opened Database
  import opened ModelStore

  class Repository {
    const conn: Conn

    constructor (conn: Conn)
      ensures this.conn == conn
    {
      this.conn := conn;
    }

    /** `Create` is `CreateWithQuerier` on the repository's own connection. */
    method Create(m: Model) returns (r: Result<Model, Error>)
      modifies conn
      ensures r.Success? ==> r.value == Echo(m, NextId(old(conn.tables)))
      ensures r.Success? ==> conn.tables == Inserted(old(conn.tables), m)
      ensures r.Failure? ==> conn.tables == old(conn.tables)
    {
      r := CreateWithQuerier(conn, m);
    }

    /** Sends all nine columns and returns five. */
    method CreateWithQuerier(q: Conn, m: Model) returns (r: Result<Model, Error>)
      modifies q
      ensures r.Success? ==> r.value == Echo(m, NextId(old(q.tables)))
      ensures r.Success? ==> q.tables == Inserted(old(q.tables), m)
      ensures r.Failure? ==> q.tables == old(q.tables)
    {
      r := InsertModel(q, m);
    }

    /** The same listing as the store's: rows in the database's order, a
        swallowed read error ending it early, a failed scan giving nothing. */
    method List() returns (r: Result<seq<Model>, Error>, ghost order: seq<nat>, ghost cut: bool)
      ensures r.Success? ==> Listed(r.value, conn.tables.models, order)
      ensures r.Success? ==> (cut <==> |r.value| < |conn.tables.models|)
      ensures r.Success? && !cut ==> forall j :: 0 <= j < |conn.tables.models| ==> j in order
      ensures r.Failure? ==> r.error.Error?
    {
      ghost var queried;
      r, queried, order, cut := ListModels(conn);
    }
  }
}
