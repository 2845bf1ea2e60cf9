/** The model catalogue (`models.Store`): inserting a model row and listing
    every model. */
module ModelStore {
  import opened Common
  import opened Database

  /** A trained model: the dataset fields plus the dataset it was trained on
      and four opaque JSON documents. */
  datatype Model = Model(
    id: string,
    name: string,
    parent: Option<string>,
    version: string,
    description: string,
    uploadIds: map<string, string>,
    datasetId: string,
    config: Bytes,
    metadata: Bytes,
    environment: Bytes,
    evaluation: Bytes)

  /** The row the insert writes: all nine inserted columns under `id`. */
  function RowOf(m: Model, id: string): ModelRow {
    ModelRow(id, m.name, m.parent, m.version, m.description,
             m.datasetId, m.config, m.metadata, m.environment, m.evaluation)
  }

  /** The tables after `INSERT INTO models (…nine columns…) … RETURNING id`. */
  function Inserted(t: Tables, m: Model): Tables {
    t.(models := t.models + [RowOf(m, NextId(t))], serial := t.serial + 1)
  }

  /** What the insert hands back: only id, name, parent, version and
      description; the dataset, the JSON documents and the artefacts are not
      echoed. */
  function Echo(m: Model, id: string): Model {
    Model(id, m.name, m.parent, m.version, m.description, map[], "", [], [], [], [])
  }

  /** A listed model shows the first five columns of its row. Its
      artefacts, which the query aggregates from the uploads the model owns,
      are not constrained. */
  predicate Shows(m: Model, row: ModelRow) {
    m.id == row.id && m.name == row.name && m.parent == row.parent
    && m.version == row.version && m.description == row.description
  }

  /** `ms` lists the rows at the positions `order`, one model per row read. */
  predicate Listed(ms: seq<Model>, rows: seq<ModelRow>, order: seq<nat>) {
    |ms| == |order| && DistinctBelow(order, |rows|)
    && forall i :: 0 <= i < |ms| ==> Shows(ms[i], rows[order[i]])
  }

  const QueryFailedPrefix := "could not query models: "

  /** `createWithQuerier`. */
  method InsertModel(q: Conn, m: Model) returns (r: Result<Model, Error>)
    modifies q
    ensures r.Success? ==> r.value == Echo(m, NextId(old(q.tables)))
    ensures r.Success? ==> q.tables == Inserted(old(q.tables), m)
    ensures r.Failure? ==> q.tables == old(q.tables)
  {
    var ok: bool := *;
    if !ok {
      var message: string := *;
      return Failure(Error(message));
    }
    var id := NextId(q.tables);
    q.tables := Inserted(q.tables, m);
    r := Success(Echo(m, id));
  }

  /** `List`: the rows come back in an order the database chooses (the
      query has no `ORDER BY`), recorded in `order`. A read error ends
      `rows.Next` as the end of the rows does and `rows.Err()` is never
      consulted, so the models read so far, possibly none, are returned as
      a success (`cut`). A failed `Scan` returns an error and no models. */
  method ListModels(q: Conn) returns (r: Result<seq<Model>, Error>, ghost queried: bool, ghost order: seq<nat>, ghost cut: bool)
    ensures !queried ==> r.Failure? && r.error.Error? && QueryFailedPrefix <= r.error.text
    ensures r.Failure? ==> r.error.Error?
    ensures r.Success? ==> queried && Listed(r.value, q.tables.models, order)
    ensures r.Success? ==> (cut <==> |r.value| < |q.tables.models|)
    ensures r.Success? && !cut ==> forall j :: 0 <= j < |q.tables.models| ==> j in order
  {
    var ok: bool := *;
    queried, order, cut := ok, [], false;
    if !ok {
      var message: string := *;
      return Failure(Error(QueryFailedPrefix + message)), queried, order, cut;
    }
    var rows := q.tables.models;
    var pending: set<nat> := Positions(|rows|);
    var ms: seq<Model> := [];
    while pending != {}
      invariant Listed(ms, rows, order)
      invariant forall j :: j in pending ==> 0 <= j < |rows|
      invariant forall j :: 0 <= j < |rows| ==> (j in pending <==> j !in order)
      invariant |order| + |pending| == |rows|
      decreases |pending|
    {
      var next: bool := *;
      if !next {
        cut := true;
        break;
      }
      var scanned: bool := *;
      if !scanned {
        var message: string := *;
        return Failure(Error(message)), queried, order, cut;
      }
      var k :| k in pending;
      var artefacts: map<string, string> := *;
      var row := rows[k];
      ms := ms + [Model(row.id, row.name, row.parent, row.version, row.description, artefacts, "", [], [], [], [])];
      order := order + [k];
      pending := pending - {k};
    }
    r := Success(ms);
  }

  /** `models.Store`, bound to the connection pool it was built with. */
  class Store {
    const q: Conn

    constructor (q: Conn)
      ensures this.q == q
    {
      this.q := q;
    }

    /** `create` is `createWithQuerier` on the store's own connection. */
    method Create(m: Model) returns (r: Result<Model, Error>)
      modifies q
      ensures r.Success? ==> r.value == Echo(m, NextId(old(q.tables)))
      ensures r.Success? ==> q.tables == Inserted(old(q.tables), m)
      ensures r.Failure? ==> q.tables == old(q.tables)
    {
      r := InsertModel(q, m);
    }

    /** Inserts all nine columns through `conn`, which may be a transaction,
        and echoes five of them. */
    method CreateWithQuerier(conn: Conn, m: Model) returns (r: Result<Model, Error>)
      modifies conn
      ensures r.Success? ==> r.value == Echo(m, NextId(old(conn.tables)))
      ensures r.Success? ==> conn.tables == Inserted(old(conn.tables), m)
      ensures r.Failure? ==> conn.tables == old(conn.tables)
    {
      r := InsertModel(conn, m);
    }

    /** Lists the models on the store's own connection. */
    method List() returns (r: Result<seq<Model>, Error>, ghost order: seq<nat>, ghost cut: bool)
      ensures r.Success? ==> Listed(r.value, q.tables.models, order)
      ensures r.Success? ==> (cut <==> |r.value| < |q.tables.models|)
      ensures r.Success? && !cut ==> forall j :: 0 <= j < |q.tables.models| ==> j in order
      ensures r.Failure? ==> r.error.Error?
    {
      ghost var queried;
      r, queried, order, cut := ListModels(q);
    }
  }

  /** The insert stores every column it was given, yet the model it returns
      carries only five of them: the stored row and the returned value agree on
      exactly those five. */
  lemma InsertedRowKeepsWhatEchoDrops(t: Tables, m: Model)
    ensures var row := Inserted(t, m).models[|t.models|];
      row.dataset == m.datasetId && row.config == m.config && row.metadata == m.metadata
      && row.environment == m.environment && row.evaluation == m.evaluation
      && Shows(Echo(m, NextId(t)), row)
    ensures Echo(m, NextId(t)).uploadIds == map[] && Echo(m, NextId(t)).datasetId == ""
  {
  }

  /** A listing that read every row after an insert shows the created model,
      with the five fields the insert echoed, at some position. */
  lemma CreatedThenListed(t: Tables, m: Model, ms: seq<Model>, order: seq<nat>)
    requires Listed(ms, Inserted(t, m).models, order)
    requires forall j :: 0 <= j < |Inserted(t, m).models| ==> j in order
    ensures exists i :: 0 <= i < |ms| && Shows(ms[i], RowOf(m, NextId(t)))
  {
    var rows := Inserted(t, m).models;
    assert |t.models| in order;
    var i :| 0 <= i < |order| && order[i] == |t.models|;
    assert Shows(ms[i], rows[order[i]]);
  }
}
