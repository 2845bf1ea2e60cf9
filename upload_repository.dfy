/** The older upload ledger (`uploads.Repository`). It inserts and reads like
    `uploads.Store`, but its update writes the `files` column only, so the
    owner columns survive a move. */
module UploadRepository {
  import opened Common
  import opened UploadTypes
  import opened Database
  import UploadStore

  /** The tables after `UPDATE uploads SET files = $1 WHERE id = $2`. */
  function FilesUpdated(t: Tables, u: Upload): Tables {
    if u.id in t.uploads
    then t.(uploads := t.uploads[u.id := t.uploads[u.id].(files := Encoded(u.files))])
    else t
  }

  class Repository {
    const conn: Conn

    constructor (conn: Conn)
      ensures this.conn == conn
    {
      this.conn := conn;
    }

    /** Records a new upload: the input files under the newly assigned id. */
    method Create(u: Upload) returns (r: Result<Upload, Error>)
      modifies conn
      ensures r.Success? ==> r.value == Upload(NextId(old(conn.tables)), u.files, None, None)
      ensures r.Success? ==> conn.tables == UploadStore.Inserted(old(conn.tables), u.files)
      ensures r.Failure? ==> conn.tables == old(conn.tables)
    {
      r := UploadStore.Insert(conn, u);
    }

    /** `Move` is `MoveWithQuerier` on the repository's own connection. */
    method Move(u: Upload) returns (r: Outcome<Error>)
      modifies conn
      ensures r.Pass? ==> conn.tables == FilesUpdated(old(conn.tables), u)
      ensures r.Fail? ==> conn.tables == old(conn.tables)
    {
      r := MoveWithQuerier(conn, u);
    }

    /** Rewrites the files of row `u.id`, leaving its owners alone. */
    method MoveWithQuerier(q: Conn, u: Upload) returns (r: Outcome<Error>)
      modifies q
      ensures r.Pass? ==> q.tables == FilesUpdated(old(q.tables), u)
      ensures r.Fail? ==> q.tables == old(q.tables)
    {
      var ok: bool := *;
      if !ok {
        var message: string := *;
        return Fail(Error(message));
      }
      q.tables := FilesUpdated(q.tables, u);
      r := Pass;
    }

    /** Reads id and decoded files, wrapping scan and decode failures. */
    method GetByIdWithQuerier(q: Conn, id: string) returns (r: Result<Upload, Error>)
      ensures id !in q.tables.uploads ==> r == Failure(Wrapped("scan upload", NoRows))
      ensures r.Success? ==> UploadStore.Loaded(q.tables, id) == Some(r.value)
      ensures UploadStore.Loaded(q.tables, id).None? ==> r.Failure?
      ensures r.Failure? ==> r.error.Wrapped? && r.error.context in {"scan upload", "unmarshal files"}
    {
      r := UploadStore.SelectWrapped(q, id);
    }
  }

  /** Unlike the newer ledger, this update keeps both owners and changes only
      the files that a later read returns. */
  lemma FilesUpdateKeepsOwners(t: Tables, u: Upload)
    requires u.id in t.uploads
    ensures FilesUpdated(t, u).uploads[u.id].datasetId == t.uploads[u.id].datasetId
    ensures FilesUpdated(t, u).uploads[u.id].modelId == t.uploads[u.id].modelId
    ensures UploadStore.Loaded(FilesUpdated(t, u), u.id) == Some(Upload(u.id, u.files, None, None))
  {
  }
}
