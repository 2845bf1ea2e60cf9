/** The upload ledger (`uploads.Store`): one row per upload holding its files as
    jsonb and the ids of its owning dataset and model.

    Reads select only `id` and `files`, so an upload read back never carries
    its owners; the update writes `files`, `dataset_id` and `model_id`
    together, so whatever owner the caller leaves unset is cleared. */
module UploadStore {
  import opened Common
  import opened UploadTypes
  import opened Database

  /** The tables after `INSERT INTO uploads (files) VALUES ($1) RETURNING id`. */
  function Inserted(t: Tables, files: map<string, FileRef>): Tables {
    t.(uploads := t.uploads[NextId(t) := UploadRow(Encoded(files), None, None)],
       serial := t.serial + 1)
  }

  /** The tables after `UPDATE uploads SET files = $1, dataset_id = $2,
      model_id = $3 WHERE id = $4`: a missing id matches no row and changes
      nothing. */
  function Updated(t: Tables, u: Upload): Tables {
    if u.id in t.uploads
    then t.(uploads := t.uploads[u.id := UploadRow(Encoded(u.files), u.datasetId, u.modelId)])
    else t
  }

  /** What `SELECT id, files FROM uploads WHERE id = $1` yields when the driver
      does not fail: the id and the decoded files, owners unset. */
  function Loaded(t: Tables, id: string): Option<Upload> {
    if id in t.uploads && t.uploads[id].files.Encoded?
    then Some(Upload(id, t.uploads[id].files.files, None, None))
    else None
  }

  /** The insert behind `Create`: the new row gets the next id and no owner. */
  method Insert(q: Conn, u: Upload) returns (r: Result<Upload, Error>)
    modifies q
    ensures r.Success? ==> r.value == Upload(NextId(old(q.tables)), u.files, None, None)
    ensures r.Success? ==> q.tables == Inserted(old(q.tables), u.files)
    ensures r.Failure? ==> q.tables == old(q.tables)
    ensures NextId(old(q.tables)) in old(q.tables.uploads) ==> r.Failure?
  {
    var ok: bool := *;
    if !ok || NextId(q.tables) in q.tables.uploads {
      var message: string := *;
      return Failure(Error(message));
    }
    var id := NextId(q.tables);
    q.tables := Inserted(q.tables, u.files);
    r := Success(Upload(id, u.files, None, None));
  }

  /** The read behind `Get`: errors are returned as the driver reports them. */
  method Select(q: Conn, id: string) returns (r: Result<Upload, Error>)
    ensures id !in q.tables.uploads ==> r == Failure(NoRows)
    ensures r.Success? ==> Loaded(q.tables, id) == Some(r.value)
    ensures Loaded(q.tables, id).None? ==> r.Failure?
  {
    if id !in q.tables.uploads {
      return Failure(NoRows);
    }
    var ok: bool := *;
    if !ok || q.tables.uploads[id].files.Undecodable? {
      var message: string := *;
      return Failure(Error(message));
    }
    r := Success(Upload(id, q.tables.uploads[id].files.files, None, None));
  }

  /** `GetByIDWithQuerier`: a missing or unreadable row fails as
      `"scan upload: …"`, files that do not decode as `"unmarshal files: …"`. */
  method SelectWrapped(q: Conn, id: string) returns (r: Result<Upload, Error>)
    ensures id !in q.tables.uploads ==> r == Failure(Wrapped("scan upload", NoRows))
    ensures r.Success? ==> Loaded(q.tables, id) == Some(r.value)
    ensures Loaded(q.tables, id).None? ==> r.Failure?
    ensures r.Failure? ==> r.error.Wrapped?
    ensures r.Failure? && r.error.context != "scan upload" ==>
      r.error.context == "unmarshal files" && q.tables.uploads[id].files.Undecodable?
  {
    if id !in q.tables.uploads {
      return Failure(Wrapped("scan upload", NoRows));
    }
    var ok: bool := *;
    if !ok {
      var message: string := *;
      return Failure(Wrapped("scan upload", Error(message)));
    }
    if q.tables.uploads[id].files.Undecodable? {
      var message: string := *;
      return Failure(Wrapped("unmarshal files", Error(message)));
    }
    r := Success(Upload(id, q.tables.uploads[id].files.files, None, None));
  }

  /** `MoveWithQuerier`: replaces the row's files and both owner columns. */
  method UpdateAll(q: Conn, u: Upload) returns (r: Outcome<Error>)
    modifies q
    ensures r.Pass? ==> q.tables == Updated(old(q.tables), u)
    ensures r.Fail? ==> q.tables == old(q.tables)
  {
    var ok: bool := *;
    if !ok {
      var message: string := *;
      return Fail(Error(message));
    }
    q.tables := Updated(q.tables, u);
    r := Pass;
  }

  /** `uploads.Store`, bound to the connection pool it was built with. */
  class Store {
    const q: Conn

    constructor (q: Conn)
      ensures this.q == q
    {
      this.q := q;
    }

    /** Records a new upload: the result has the store-assigned id, exactly the
        given files and no owner. */
    method Create(u: Upload) returns (r: Result<Upload, Error>)
      modifies q
      ensures r.Success? ==> r.value == Upload(NextId(old(q.tables)), u.files, None, None)
      ensures r.Success? ==> q.tables == Inserted(old(q.tables), u.files)
      ensures r.Failure? ==> q.tables == old(q.tables)
    {
      r := Insert(q, u);
    }

    /** Reads an upload on the store's own connection. */
    method Get(id: string) returns (r: Result<Upload, Error>)
      ensures id !in q.tables.uploads ==> r == Failure(NoRows)
      ensures r.Success? ==> Loaded(q.tables, id) == Some(r.value)
      ensures r.Success? ==> r.value.id == id && r.value.datasetId.None? && r.value.modelId.None?
    {
      r := Select(q, id);
    }

    /** `Move` is `MoveWithQuerier` on the store's own connection. */
    method Move(u: Upload) returns (r: Outcome<Error>)
      modifies q
      ensures r.Pass? ==> q.tables == Updated(old(q.tables), u)
      ensures r.Fail? ==> q.tables == old(q.tables)
    {
      r := MoveWithQuerier(q, u);
    }

    /** Writes `u` through the querier `conn`, which may be a transaction. */
    method MoveWithQuerier(conn: Conn, u: Upload) returns (r: Outcome<Error>)
      modifies conn
      ensures r.Pass? ==> conn.tables == Updated(old(conn.tables), u)
      ensures r.Fail? ==> conn.tables == old(conn.tables)
    {
      r := UpdateAll(conn, u);
    }

    /** Reads an upload through the querier `conn`, which may be a transaction. */
    method GetByIdWithQuerier(conn: Conn, id: string) returns (r: Result<Upload, Error>)
      ensures id !in conn.tables.uploads ==> r == Failure(Wrapped("scan upload", NoRows))
      ensures r.Success? ==> Loaded(conn.tables, id) == Some(r.value)
      ensures Loaded(conn.tables, id).None? ==> r.Failure?
      ensures r.Failure? ==> r.error.Wrapped? && r.error.context in {"scan upload", "unmarshal files"}
    {
      r := SelectWrapped(conn, id);
    }
  }

  /** Reading back a row this ledger just rewrote returns the written files
      under the same id, but never the owners that were written with them. */
  lemma MovedThenLoaded(t: Tables, u: Upload)
    requires u.id in t.uploads
    ensures Loaded(Updated(t, u), u.id) == Some(Upload(u.id, u.files, None, None))
    ensures Updated(t, u).uploads[u.id].datasetId == u.datasetId
    ensures Updated(t, u).uploads[u.id].modelId == u.modelId
  {
  }

  /** A freshly created upload reads back with the files it was created with. */
  lemma CreatedThenLoaded(t: Tables, files: map<string, FileRef>)
    ensures Loaded(Inserted(t, files), NextId(t)) == Some(Upload(NextId(t), files, None, None))
    ensures forall id :: id in t.uploads && id != NextId(t) ==> Loaded(Inserted(t, files), id) == Loaded(t, id)
  {
  }

  /** An update replaces both owner columns: a row owned by a dataset that is
      rewritten from an upload read back through `Loaded` loses that owner. */
  lemma UpdateFromLoadedClearsOwners(t: Tables, id: string, files: map<string, FileRef>)
    requires Loaded(t, id).Some?
    ensures var u := Loaded(t, id).value.(files := files);
      Updated(t, u).uploads[id] == UploadRow(Encoded(files), None, None)
  {
  }
}
