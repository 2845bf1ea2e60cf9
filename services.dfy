/** The three entry points that run the saga: `models.DefaultCreator` and the
    older `models.Service` and `datasets.Service`. Each opens its transaction
    on `db`, moves files through `storage`, and hands back the catalogue's
    own type; `List` passes the repository's answer through. */
module Services {
  import opened Common
  import opened Database
  import opened Saga
  import Creator
  import DatasetStore
  import ModelStore
  import DatasetRepository
  import ModelRepository
  import FileSystem

  /** `models.DefaultCreator`, wired with the pool and the file store. */
  class DefaultCreator {
    const db: Conn
    const fileMover: FileSystem.FileSystemStore

    constructor (db: Conn, fileMover: FileSystem.FileSystemStore)
      ensures this.db == db && this.fileMover == fileMover
    {
      this.db := db;
      this.fileMover := fileMover;
    }

    /** Creates the model and moves its artefacts under `models/<id>/`. */
    method Create(m: ModelStore.Model) returns (r: Result<ModelStore.Model, Error>, calls: seq<Call>, ghost run: Run)
      modifies db, fileMover
      ensures r.Failure? ==> db.tables == old(db.tables)
      ensures run == BeginFailed ==> r.Failure? && calls == [] && fileMover.disk == old(fileMover.disk)
      ensures run == InsertFailed ==> r.Failure? && calls == [CreateEntity(Models), Rollback]
      ensures run.Ran? ==> LogOk(run.log) && Creator.Tracked(run.log, ModelEntity(m).UploadIds(), ModelStore.Inserted(old(db.tables), m),
                                                     Models, run.id, old(fileMover.disk), fileMover.baseDir, fileMover.disk)
      ensures run.Ran? ==> (run.finished <==> Creator.Finished(run.log, ModelEntity(m).UploadIds()))
      ensures run.Ran? && !run.finished ==> r.Failure? && run.log != [] && Explains(r.error, run.log[|run.log| - 1])
      ensures run.Ran? ==> (calls == [CreateEntity(Models)] + Blocks(run.log, Models, run.id)
        + (if run.finished then [Commit] else []) + (if r.Failure? then [Rollback] else []))
      ensures r.Success? ==> run.Ran? && run.finished && r.value == ModelStore.Echo(m, run.id)
      ensures r.Success? ==> db.tables == TablesAfter(ModelStore.Inserted(old(db.tables), m), run.log, Models, run.id)
    {
      var created;
      created, calls, run := Creator.Create(ModelEntity(m), db, fileMover);
      r := if created.Success? then Success(created.value.model) else Failure(created.error);
    }
  }

  /** `models.Service`: the same saga, with the listing passed through. */
  class ModelService {
    const modelsRepo: ModelRepository.Repository
    const db: Conn
    const storage: FileSystem.FileSystemStore

    constructor (modelsRepo: ModelRepository.Repository, db: Conn, storage: FileSystem.FileSystemStore)
      ensures this.modelsRepo == modelsRepo && this.db == db && this.storage == storage
    {
      this.modelsRepo := modelsRepo;
      this.db := db;
      this.storage := storage;
    }

    /** Creates the model and moves its artefacts under `models/<id>/`. */
    method Create(m: ModelStore.Model) returns (r: Result<ModelStore.Model, Error>, calls: seq<Call>, ghost run: Run)
      modifies db, storage
      ensures r.Failure? ==> db.tables == old(db.tables)
      ensures run == BeginFailed ==> r.Failure? && calls == [] && storage.disk == old(storage.disk)
      ensures run == InsertFailed ==> r.Failure? && calls == [CreateEntity(Models), Rollback]
      ensures run.Ran? ==> LogOk(run.log) && Creator.Tracked(run.log, ModelEntity(m).UploadIds(), ModelStore.Inserted(old(db.tables), m),
                                                     Models, run.id, old(storage.disk), storage.baseDir, storage.disk)
      ensures run.Ran? ==> (run.finished <==> Creator.Finished(run.log, ModelEntity(m).UploadIds()))
      ensures run.Ran? && !run.finished ==> r.Failure? && run.log != [] && Explains(r.error, run.log[|run.log| - 1])
      ensures run.Ran? ==> (calls == [CreateEntity(Models)] + Blocks(run.log, Models, run.id)
        + (if run.finished then [Commit] else []) + (if r.Failure? then [Rollback] else []))
      ensures r.Success? ==> run.Ran? && run.finished && r.value == ModelStore.Echo(m, run.id)
      ensures r.Success? ==> db.tables == TablesAfter(ModelStore.Inserted(old(db.tables), m), run.log, Models, run.id)
    {
      var created;
      created, calls, run := Creator.Create(ModelEntity(m), db, storage);
      r := if created.Success? then Success(created.value.model) else Failure(created.error);
    }

    /** Whatever the repository lists, unchanged. */
    method List() returns (r: Result<seq<ModelStore.Model>, Error>, ghost order: seq<nat>, ghost cut: bool)
      ensures r.Success? ==> ModelStore.Listed(r.value, modelsRepo.conn.tables.models, order)
      ensures r.Success? ==> (cut <==> |r.value| < |modelsRepo.conn.tables.models|)
      ensures r.Success? && !cut ==> forall j :: 0 <= j < |modelsRepo.conn.tables.models| ==> j in order
      ensures r.Failure? ==> r.error.Error?
    {
      r, order, cut := modelsRepo.List();
    }
  }

  /** `datasets.Service`: the saga with the `datasets` prefix. */
  class DatasetService {
    const datasetsRepo: DatasetRepository.Repository
    const db: Conn
    const storage: FileSystem.FileSystemStore

    constructor (datasetsRepo: DatasetRepository.Repository, db: Conn, storage: FileSystem.FileSystemStore)
      ensures this.datasetsRepo == datasetsRepo && this.db == db && this.storage == storage
    {
      this.datasetsRepo := datasetsRepo;
      this.db := db;
      this.storage := storage;
    }

    /** Creates the dataset and moves its artefacts under `datasets/<id>/`. */
    method Create(d: DatasetStore.Dataset) returns (r: Result<DatasetStore.Dataset, Error>, calls: seq<Call>, ghost run: Run)
      modifies db, storage
      ensures r.Failure? ==> db.tables == old(db.tables)
      ensures run == BeginFailed ==> r.Failure? && calls == [] && storage.disk == old(storage.disk)
      ensures run == InsertFailed ==> r.Failure? && calls == [CreateEntity(Datasets), Rollback]
      ensures run.Ran? ==> LogOk(run.log) && Creator.Tracked(run.log, DatasetEntity(d).UploadIds(), DatasetStore.Inserted(old(db.tables), d),
                                                     Datasets, run.id, old(storage.disk), storage.baseDir, storage.disk)
      ensures run.Ran? ==> (run.finished <==> Creator.Finished(run.log, DatasetEntity(d).UploadIds()))
      ensures run.Ran? && !run.finished ==> r.Failure? && run.log != [] && Explains(r.error, run.log[|run.log| - 1])
      ensures run.Ran? ==> (calls == [CreateEntity(Datasets)] + Blocks(run.log, Datasets, run.id)
        + (if run.finished then [Commit] else []) + (if r.Failure? then [Rollback] else []))
      ensures r.Success? ==> (run.Ran? && run.finished
        && r.value == DatasetStore.Dataset(run.id, d.name, d.parent, d.version, d.description, map[]))
      ensures r.Success? ==> db.tables == TablesAfter(DatasetStore.Inserted(old(db.tables), d), run.log, Datasets, run.id)
    {
      var created;
      created, calls, run := Creator.Create(DatasetEntity(d), db, storage);
      r := if created.Success? then Success(created.value.dataset) else Failure(created.error);
    }

    /** Whatever the repository lists, unchanged. */
    method List() returns (r: Result<seq<DatasetStore.Dataset>, Error>, ghost order: seq<nat>, ghost cut: bool)
      ensures r.Success? ==> DatasetStore.Listed(r.value, datasetsRepo.conn.tables.datasets, order)
      ensures r.Success? ==> (cut <==> |r.value| < |datasetsRepo.conn.tables.datasets|)
      ensures r.Success? && !cut ==> forall j :: 0 <= j < |datasetsRepo.conn.tables.datasets| ==> j in order
      ensures r.Failure? ==> r.error.Error?
    {
      r, order, cut := datasetsRepo.List();
    }
  }
}
