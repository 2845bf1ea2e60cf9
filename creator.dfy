/** The entity-creation saga (`DefaultCreator.Create` for models, the dataset
    service's `Create` for datasets), proved against the functions of `Saga`.

    Every collaborator call is recorded in the real out-parameter `calls`
    just before it is made, the way the collaborators' test doubles log it.
    The ghost `run` records how far the saga got and, once the entity was
    inserted, the steps it took. */
module Creator {
  import opened Common
  import opened Paths
  import opened UploadTypes
  import opened Database
  import UploadStore
  import DatasetStore
  import ModelStore
  import FileSystem
  import opened Saga

  /** The files in `order` have been moved, in that order, each finding its
      source on disk. */
  ghost predicate MovedSoFar(files: map<string, FileRef>, kind: Kind, id: string, disk0: map<string, Bytes>, base: string,
                             order: seq<string>, calls: seq<Call>, disk: map<string, Bytes>)
  {
    KeysOf(order, files) && Distinct(order)
    && calls == MoveCalls(Moves(files, order, kind, id))
    && disk == Applied(disk0, base, Moves(files, order, kind, id))
    && Performed(disk0, base, Moves(files, order, kind, id))
  }

  /** The files not in `order` are `pending`; the others are rehomed in `newFiles`. */
  ghost predicate Split(files: map<string, FileRef>, kind: Kind, id: string, order: seq<string>,
                        pending: set<string>, newFiles: map<string, FileRef>)
  {
    pending <= files.Keys
    && (forall k :: k in files ==> (k in pending <==> k !in order))
    && (forall k :: k in newFiles <==> k in files && k !in pending)
    && (forall k :: k in newFiles ==> newFiles[k] == Rehomed(files[k], kind, id))
  }

  /** The loop invariant of `MoveFiles`: the files in `order` have been moved,
      in that order, and the others are still `pending`. */
  ghost predicate Visiting(files: map<string, FileRef>, kind: Kind, id: string, disk0: map<string, Bytes>, base: string,
                           order: seq<string>, pending: set<string>, newFiles: map<string, FileRef>,
                           calls: seq<Call>, disk: map<string, Bytes>)
  {
    MovedSoFar(files, kind, id, disk0, base, order, calls, disk) && Split(files, kind, id, order, pending, newFiles)
  }

  lemma VisitStart(files: map<string, FileRef>, kind: Kind, id: string, disk0: map<string, Bytes>, base: string)
    ensures Visiting(files, kind, id, disk0, base, [], files.Keys, map[], [], disk0)
  {
  }

  /** A successful move of a file not yet visited extends the moves. */
  lemma MovedNext(files: map<string, FileRef>, kind: Kind, id: string, disk0: map<string, Bytes>, base: string,
                  order: seq<string>, calls: seq<Call>, disk: map<string, Bytes>, name: string)
    requires MovedSoFar(files, kind, id, disk0, base, order, calls, disk)
    requires name in files && name !in order && Join([base, Source(files[name])]) in disk
    ensures MovedSoFar(files, kind, id, disk0, base, order + [name],
                       calls + [MoveFile(Source(files[name]), Destination(kind, id, files[name]))],
                       FileSystem.Renamed(disk, Join([base, Source(files[name])]), Join([base, Destination(kind, id, files[name])])))
  {
    MovesSnoc(disk0, base, files, order, name, kind, id);
    DistinctSnoc(order, name);
  }

  /** Visiting a pending file moves it out of `pending` and into `newFiles`. */
  lemma SplitNext(files: map<string, FileRef>, kind: Kind, id: string, order: seq<string>,
                  pending: set<string>, newFiles: map<string, FileRef>, name: string)
    requires Split(files, kind, id, order, pending, newFiles) && name in pending
    ensures name !in order
    ensures Split(files, kind, id, order + [name], pending - {name}, newFiles[name := Rehomed(files[name], kind, id)])
  {
    var order' := order + [name];
    forall k | k in files ensures k in pending - {name} <==> k !in order' {
      assert k in order' <==> k in order || k == name;
    }
  }

  /** A successful move of a pending file keeps the invariant. */
  lemma VisitNext(files: map<string, FileRef>, kind: Kind, id: string, disk0: map<string, Bytes>, base: string,
                  order: seq<string>, pending: set<string>, newFiles: map<string, FileRef>,
                  calls: seq<Call>, disk: map<string, Bytes>, name: string)
    requires Visiting(files, kind, id, disk0, base, order, pending, newFiles, calls, disk)
    requires name in pending && Join([base, Source(files[name])]) in disk
    ensures Visiting(files, kind, id, disk0, base, order + [name], pending - {name},
                     newFiles[name := Rehomed(files[name], kind, id)],
                     calls + [MoveFile(Source(files[name]), Destination(kind, id, files[name]))],
                     FileSystem.Renamed(disk, Join([base, Source(files[name])]), Join([base, Destination(kind, id, files[name])])))
  {
    SplitNext(files, kind, id, order, pending, newFiles, name);
    MovedNext(files, kind, id, disk0, base, order, calls, disk, name);
  }

  /** A failed move of a pending file leaves the disk as the earlier moves left it. */
  lemma VisitFailed(files: map<string, FileRef>, kind: Kind, id: string, disk0: map<string, Bytes>, base: string,
                    order: seq<string>, pending: set<string>, newFiles: map<string, FileRef>,
                    calls: seq<Call>, disk: map<string, Bytes>, name: string)
    requires Visiting(files, kind, id, disk0, base, order, pending, newFiles, calls, disk)
    requires name in pending
    ensures var order' := order + [name];
      && KeysOf(order', files) && Distinct(order') && order'[|order'| - 1] == name
      && calls + [MoveFile(Source(files[name]), Destination(kind, id, files[name]))] == MoveCalls(Moves(files, order', kind, id))
      && disk == Applied(disk0, base, Moves(files, order'[..|order'| - 1], kind, id))
      && Performed(disk0, base, Moves(files, order'[..|order'| - 1], kind, id))
  {
    MovesSnoc(disk0, base, files, order, name, kind, id);
    assert (order + [name])[..|order|] == order;
  }

  /** With nothing pending every file was moved and rehomed. */
  lemma VisitEnd(files: map<string, FileRef>, kind: Kind, id: string, disk0: map<string, Bytes>, base: string,
                 order: seq<string>, newFiles: map<string, FileRef>, calls: seq<Call>, disk: map<string, Bytes>)
    requires Visiting(files, kind, id, disk0, base, order, {}, newFiles, calls, disk)
    ensures forall k :: k in files ==> k in order
    ensures newFiles == Relocated(files, kind, id)
  {
  }

  /** Moves every file of one upload into the entity's directory, in an
      arbitrary order, stopping at the first failed move. */
  method MoveFiles(fs: FileSystem.FileSystemStore, files: map<string, FileRef>, kind: Kind, id: string)
    returns (res: Outcome<Error>, newFiles: map<string, FileRef>, calls: seq<Call>, ghost order: seq<string>)
    modifies fs
    ensures KeysOf(order, files) && Distinct(order)
    ensures calls == MoveCalls(Moves(files, order, kind, id))
    ensures res.Pass? ==> (forall k :: k in files ==> k in order) && newFiles == Relocated(files, kind, id)
    ensures res.Pass? ==> fs.disk == Applied(old(fs.disk), fs.baseDir, Moves(files, order, kind, id))
    ensures res.Pass? ==> Performed(old(fs.disk), fs.baseDir, Moves(files, order, kind, id))
    ensures res.Fail? ==> (order != [] && res.error.Wrapped?
      && res.error.context == "move file " + FormatFileRef(files[order[|order| - 1]]))
    ensures res.Fail? ==> fs.disk == Applied(old(fs.disk), fs.baseDir, Moves(files, order[..|order| - 1], kind, id))
    ensures res.Fail? ==> Performed(old(fs.disk), fs.baseDir, Moves(files, order[..|order| - 1], kind, id))
  {
    var pending := files.Keys;
    newFiles, calls, order := map[], [], [];
    VisitStart(files, kind, id, fs.disk, fs.baseDir);
    while pending != {}
      invariant Visiting(files, kind, id, old(fs.disk), fs.baseDir, order, pending, newFiles, calls, fs.disk)
      decreases pending
    {
      var name :| name in pending;
      var file := files[name];
      ghost var diskBefore := fs.disk;
      var moved, call, newPath := MoveOne(fs, file, kind, id);
      if moved.Fail? {
        VisitFailed(files, kind, id, old(fs.disk), fs.baseDir, order, pending, newFiles, calls, fs.disk, name);
        return moved, newFiles, calls + [call], order + [name];
      }
      VisitNext(files, kind, id, old(fs.disk), fs.baseDir, order, pending, newFiles, calls, diskBefore, name);
      calls, order := calls + [call], order + [name];
      newFiles := newFiles[name := FileRef(file.provider, file.fileName, newPath)];
      pending := pending - {name};
    }
    VisitEnd(files, kind, id, old(fs.disk), fs.baseDir, order, newFiles, calls, fs.disk);
    res := Pass;
  }

  /** Moves one file from `Join(path, fileName)` to `Join(<kind>, id, fileName)`. */
  method MoveOne(fs: FileSystem.FileSystemStore, file: FileRef, kind: Kind, id: string)
    returns (res: Outcome<Error>, call: Call, newPath: string)
    modifies fs
    ensures call == MoveFile(Source(file), Destination(kind, id, file)) && newPath == Home(kind, id)
    ensures res.Pass? ==> (Join([fs.baseDir, Source(file)]) in old(fs.disk)
      && fs.disk == FileSystem.Renamed(old(fs.disk), Join([fs.baseDir, Source(file)]), Join([fs.baseDir, Destination(kind, id, file)])))
    ensures res.Fail? ==> (fs.disk == old(fs.disk) && res.error.Wrapped? && res.error.context == "move file " + FormatFileRef(file))
  {
    var origPath := Join([file.path, file.fileName]);
    newPath := Join([kind.Prefix(), id]);
    call := MoveFile(origPath, Join([newPath, file.fileName]));
    var moved := fs.MoveFile(origPath, Join([newPath, file.fileName]));
    if moved.Fail? {
      return Fail(Wrapped("move file " + FormatFileRef(file), moved.error)), call, newPath;
    }
    res := Pass;
  }

  /** The calls, result and ledger of processing one upload, relative to the
      ledger `t0` it started from. */
  ghost predicate StepShape(step: Step, res: Outcome<Error>, kind: Kind, id: string, calls: seq<Call>, t0: Tables, t: Tables)
  {
    StepOk(step)
    && (res.Pass? <==> step.end == Done) && (res.Fail? ==> Explains(res.error, step))
    && (step.end != FetchFailed ==> UploadStore.Loaded(t0, step.uploadId) == Some(step.fetched))
    && calls == StepCalls(step, kind, id)
    && t == StepTables(t0, step, kind, id)
  }

  /** The disk after processing one upload: the renames that went through,
      performed on `disk0`. */
  ghost predicate StepDisk(step: Step, kind: Kind, id: string, disk0: map<string, Bytes>, base: string, disk: map<string, Bytes>)
  {
    StepOk(step)
    && disk == Applied(disk0, base, StepMoves(step, kind, id))
    && Performed(disk0, base, StepMoves(step, kind, id))
  }

  /** What processing one upload did, relative to the ledger `t0` and the disk
      `disk0` it started from. */
  ghost predicate Processed(step: Step, res: Outcome<Error>, kind: Kind, id: string, calls: seq<Call>,
                            t0: Tables, t: Tables, disk0: map<string, Bytes>, base: string, disk: map<string, Bytes>)
  {
    StepShape(step, res, kind, id, calls, t0, t) && StepDisk(step, kind, id, disk0, base, disk)
  }

  lemma FetchFailedProcessed(artefact: string, uid: string, cause: Error, kind: Kind, id: string,
                             t0: Tables, disk0: map<string, Bytes>, base: string)
    ensures Processed(Step(artefact, uid, Upload(uid, map[], None, None), [], FetchFailed),
                      Fail(Wrapped("get upload " + uid, cause)), kind, id,
                      [GetUpload(uid)], t0, t0, disk0, base, disk0)
  {
    var step := Step(artefact, uid, Upload(uid, map[], None, None), [], FetchFailed);
    assert StepMoves(step, kind, id) == [];
    assert MoveCalls(Moves(step.fetched.files, step.order, kind, id)) == [];
  }

  lemma MoveFailedShape(artefact: string, uid: string, upload: Upload, order: seq<string>, kind: Kind, id: string,
                        res: Outcome<Error>, moveCalls: seq<Call>, t0: Tables)
    requires UploadStore.Loaded(t0, uid) == Some(upload)
    requires KeysOf(order, upload.files) && Distinct(order) && order != []
    requires res.Fail? && res.error.Wrapped?
    requires res.error.context == "move file " + FormatFileRef(upload.files[order[|order| - 1]])
    requires moveCalls == MoveCalls(Moves(upload.files, order, kind, id))
    ensures StepShape(Step(artefact, uid, upload, order, MoveFailed), res, kind, id, [GetUpload(uid)] + moveCalls, t0, t0)
  {
  }

  lemma MoveFailedDisk(artefact: string, uid: string, upload: Upload, order: seq<string>, kind: Kind, id: string,
                       disk0: map<string, Bytes>, base: string, disk: map<string, Bytes>)
    requires KeysOf(order, upload.files) && Distinct(order) && order != []
    requires disk == Applied(disk0, base, Moves(upload.files, order[..|order| - 1], kind, id))
    requires Performed(disk0, base, Moves(upload.files, order[..|order| - 1], kind, id))
    ensures StepDisk(Step(artefact, uid, upload, order, MoveFailed), kind, id, disk0, base, disk)
  {
    var step := Step(artefact, uid, upload, order, MoveFailed);
    assert StepOk(step);
    assert StepMoves(step, kind, id) == Moves(upload.files, order[..|order| - 1], kind, id);
  }

  lemma MovedShape(artefact: string, uid: string, upload: Upload, order: seq<string>, end: StepEnd, kind: Kind, id: string,
                   res: Outcome<Error>, moveCalls: seq<Call>, t0: Tables, t: Tables)
    requires UploadStore.Loaded(t0, uid) == Some(upload)
    requires KeysOf(order, upload.files) && Distinct(order) && forall k :: k in upload.files ==> k in order
    requires moveCalls == MoveCalls(Moves(upload.files, order, kind, id))
    requires end == UpdateFailed || end == Done
    requires end == Done ==> res.Pass?
    requires end == UpdateFailed ==> res.Fail? && res.error.Wrapped? && res.error.context == "update upload " + uid
    requires t == if end == Done then UploadStore.Updated(t0, Claimed(upload, kind, id)) else t0
    ensures StepShape(Step(artefact, uid, upload, order, end), res, kind, id, [GetUpload(uid)] + moveCalls + [MoveUpload(uid)], t0, t)
  {
  }

  lemma MovedDisk(artefact: string, uid: string, upload: Upload, order: seq<string>, end: StepEnd, kind: Kind, id: string,
                  disk0: map<string, Bytes>, base: string, disk: map<string, Bytes>)
    requires KeysOf(order, upload.files) && Distinct(order) && forall k :: k in upload.files ==> k in order
    requires disk == Applied(disk0, base, Moves(upload.files, order, kind, id))
    requires Performed(disk0, base, Moves(upload.files, order, kind, id))
    requires end == UpdateFailed || end == Done
    ensures StepDisk(Step(artefact, uid, upload, order, end), kind, id, disk0, base, disk)
  {
    var step := Step(artefact, uid, upload, order, end);
    assert StepOk(step);
    assert StepMoves(step, kind, id) == Moves(upload.files, order, kind, id);
  }

  /** One iteration of the saga's loop over the draft's uploads: read the
      upload, move its files, write it back as claimed by the new entity. */
  method ProcessUpload(q: Conn, fs: FileSystem.FileSystemStore, artefact: string, uid: string, kind: Kind, id: string)
    returns (res: Outcome<Error>, calls: seq<Call>, ghost step: Step)
    modifies q, fs
    ensures step.artefact == artefact && step.uploadId == uid
    ensures Processed(step, res, kind, id, calls, old(q.tables), q.tables, old(fs.disk), fs.baseDir, fs.disk)
  {
    calls := [GetUpload(uid)];
    var got := UploadStore.SelectWrapped(q, uid);
    if got.Failure? {
      step := Step(artefact, uid, Upload(uid, map[], None, None), [], FetchFailed);
      FetchFailedProcessed(artefact, uid, got.error, kind, id, q.tables, fs.disk, fs.baseDir);
      return Fail(Wrapped("get upload " + uid, got.error)), calls, step;
    }
    var upload := got.value;
    var moved, newFiles, moveCalls, order := MoveFiles(fs, upload.files, kind, id);
    calls := calls + moveCalls;
    if moved.Fail? {
      step := Step(artefact, uid, upload, order, MoveFailed);
      MoveFailedShape(artefact, uid, upload, order, kind, id, moved, moveCalls, q.tables);
      MoveFailedDisk(artefact, uid, upload, order, kind, id, old(fs.disk), fs.baseDir, fs.disk);
      return moved, calls, step;
    }
    var claimed := upload.(files := newFiles);
    if kind == Datasets {
      claimed := claimed.(datasetId := Some(id));
    } else {
      claimed := claimed.(modelId := Some(id));
    }
    assert claimed == Claimed(upload, kind, id);
    calls := calls + [MoveUpload(uid)];
    var updated := UploadStore.UpdateAll(q, claimed);
    if updated.Fail? {
      step := Step(artefact, uid, upload, order, UpdateFailed);
      res := Fail(Wrapped("update upload " + uid, updated.error));
      MovedShape(artefact, uid, upload, order, UpdateFailed, kind, id, res, moveCalls, old(q.tables), q.tables);
      MovedDisk(artefact, uid, upload, order, UpdateFailed, kind, id, old(fs.disk), fs.baseDir, fs.disk);
      return;
    }
    step := Step(artefact, uid, upload, order, Done);
    res := Pass;
    MovedShape(artefact, uid, upload, order, Done, kind, id, res, moveCalls, old(q.tables), q.tables);
    MovedDisk(artefact, uid, upload, order, Done, kind, id, old(fs.disk), fs.baseDir, fs.disk);
  }

  /** Every upload was processed to the end: the saga reached its commit. */
  ghost predicate Finished(log: seq<Step>, ids: map<string, string>) {
    (forall i :: 0 <= i < |log| ==> log[i].end == Done)
    && (forall a :: a in ids ==> a in Artefacts(log))
  }

  /** The steps the saga took are the uploads the draft names, each at most
      once, each read from the ledger as the earlier steps had left it. */
  ghost predicate Followed(log: seq<Step>, ids: map<string, string>, t: Tables, kind: Kind, id: string) {
    LogOk(log) && Distinct(Artefacts(log))
    && (forall i :: 0 <= i < |log| ==> log[i].artefact in ids && log[i].uploadId == ids[log[i].artefact])
    && (forall i :: 0 <= i < |log| - 1 ==> log[i].end == Done)
    && ReadInTurn(log, t, kind, id)
  }

  /** The steps in `log` followed the draft's uploads, and the disk is what
      their renames made of `disk0`. */
  ghost predicate Tracked(log: seq<Step>, ids: map<string, string>, t1: Tables, kind: Kind, id: string,
                          disk0: map<string, Bytes>, base: string, disk: map<string, Bytes>)
  {
    Followed(log, ids, t1, kind, id)
    && disk == Applied(disk0, base, LogMoves(log, kind, id))
    && Performed(disk0, base, LogMoves(log, kind, id))
  }

  lemma TrackedStart(ids: map<string, string>, t1: Tables, kind: Kind, id: string, disk0: map<string, Bytes>, base: string)
    ensures Tracked([], ids, t1, kind, id, disk0, base, disk0)
  {
  }

  /** The folds over a log, one step longer. */
  lemma LogSnoc(log: seq<Step>, step: Step, t1: Tables, kind: Kind, id: string)
    requires LogOk(log) && StepOk(step)
    ensures LogOk(log + [step])
    ensures Blocks(log + [step], kind, id) == Blocks(log, kind, id) + StepCalls(step, kind, id)
    ensures LogMoves(log + [step], kind, id) == LogMoves(log, kind, id) + StepMoves(step, kind, id)
    ensures TablesAfter(t1, log + [step], kind, id) == StepTables(TablesAfter(t1, log, kind, id), step, kind, id)
    ensures Artefacts(log + [step]) == Artefacts(log) + [step.artefact]
  {
    assert (log + [step])[..|log|] == log;
  }

  lemma DistinctSnoc<T>(s: seq<T>, x: T)
    requires Distinct(s) && x !in s
    ensures Distinct(s + [x])
  {
  }

  lemma FollowedNext(log: seq<Step>, ids: map<string, string>, t1: Tables, kind: Kind, id: string, step: Step)
    requires Followed(log, ids, t1, kind, id) && StepOk(step)
    requires forall i :: 0 <= i < |log| ==> log[i].end == Done
    requires step.artefact in ids && step.artefact !in Artefacts(log) && step.uploadId == ids[step.artefact]
    requires step.end != FetchFailed ==> UploadStore.Loaded(TablesAfter(t1, log, kind, id), step.uploadId) == Some(step.fetched)
    ensures Followed(log + [step], ids, t1, kind, id)
  {
    var log' := log + [step];
    LogSnoc(log, step, t1, kind, id);
    DistinctSnoc(Artefacts(log), step.artefact);
    assert log'[..|log|] == log;
    assert ReadInTurn(log', t1, kind, id);
    forall i | 0 <= i < |log'|
      ensures log'[i].artefact in ids && log'[i].uploadId == ids[log'[i].artefact]
      ensures i < |log'| - 1 ==> log'[i].end == Done
    {
      if i < |log| {
        assert log'[i] == log[i];
      }
    }
  }

  /** Appending a processed step to a run whose steps all finished. */
  lemma TrackedNext(log: seq<Step>, ids: map<string, string>, t1: Tables, kind: Kind, id: string,
                    disk0: map<string, Bytes>, base: string, disk: map<string, Bytes>, t: Tables,
                    step: Step, res: Outcome<Error>, stepCalls: seq<Call>, disk': map<string, Bytes>, t': Tables)
    requires Tracked(log, ids, t1, kind, id, disk0, base, disk) && t == TablesAfter(t1, log, kind, id)
    requires forall i :: 0 <= i < |log| ==> log[i].end == Done
    requires step.artefact in ids && step.artefact !in Artefacts(log) && step.uploadId == ids[step.artefact]
    requires Processed(step, res, kind, id, stepCalls, t, t', disk, base, disk')
    ensures LogOk(log + [step])
    ensures Tracked(log + [step], ids, t1, kind, id, disk0, base, disk') && t' == TablesAfter(t1, log + [step], kind, id)
    ensures Blocks(log + [step], kind, id) == Blocks(log, kind, id) + stepCalls
    ensures Artefacts(log + [step]) == Artefacts(log) + [step.artefact]
  {
    LogSnoc(log, step, t1, kind, id);
    FollowedNext(log, ids, t1, kind, id, step);
    AppliedAppend(disk0, base, LogMoves(log, kind, id), StepMoves(step, kind, id));
    PerformedAppend(disk0, base, LogMoves(log, kind, id), StepMoves(step, kind, id));
  }

  /** Inserts the entity through the querier `q`. */
  method InsertEntity(q: Conn, draft: Entity) returns (r: Result<Entity, Error>)
    modifies q
    ensures r.Success? ==> r.value == EntityEcho(draft, NextId(old(q.tables))) && r.value.Id() == NextId(old(q.tables))
    ensures r.Success? ==> q.tables == EntityInserted(old(q.tables), draft)
    ensures r.Failure? ==> q.tables == old(q.tables)
  {
    match draft
    case DatasetEntity(d) =>
      var got := DatasetStore.InsertDataset(q, d);
      r := if got.Success? then Success(DatasetEntity(got.value)) else Failure(got.error);
    case ModelEntity(m) =>
      var got := ModelStore.InsertModel(q, m);
      r := if got.Success? then Success(ModelEntity(got.value)) else Failure(got.error);
  }

  /** The saga's loop over the draft's uploads, in an arbitrary order,
      stopping at the first upload that fails. */
  method ProcessAll(q: Conn, fs: FileSystem.FileSystemStore, ids: map<string, string>, kind: Kind, id: string)
    returns (res: Outcome<Error>, calls: seq<Call>, ghost log: seq<Step>)
    modifies q, fs
    ensures LogOk(log) && calls == Blocks(log, kind, id)
    ensures Tracked(log, ids, old(q.tables), kind, id, old(fs.disk), fs.baseDir, fs.disk)
    ensures q.tables == TablesAfter(old(q.tables), log, kind, id)
    ensures res.Pass? <==> Finished(log, ids)
    ensures res.Fail? ==> log != [] && Explains(res.error, log[|log| - 1])
  {
    calls, log := [], [];
    var pending := ids.Keys;
    TrackedStart(ids, q.tables, kind, id, fs.disk, fs.baseDir);
    while pending != {}
      invariant pending <= ids.Keys
      invariant LogOk(log) && calls == Blocks(log, kind, id)
      invariant Tracked(log, ids, old(q.tables), kind, id, old(fs.disk), fs.baseDir, fs.disk)
      invariant q.tables == TablesAfter(old(q.tables), log, kind, id)
      invariant forall i :: 0 <= i < |log| ==> log[i].end == Done
      invariant forall a :: a in ids ==> (a in pending <==> a !in Artefacts(log))
      decreases pending
    {
      var artefact :| artefact in pending;
      var uid := ids[artefact];
      ghost var disk, t := fs.disk, q.tables;
      var stepRes, stepCalls, step := ProcessUpload(q, fs, artefact, uid, kind, id);
      TrackedNext(log, ids, old(q.tables), kind, id, old(fs.disk), fs.baseDir, disk, t, step, stepRes, stepCalls, fs.disk, q.tables);
      log := log + [step];
      calls := calls + stepCalls;
      if stepRes.Fail? {
        assert log[|log| - 1] == step;
        assert !Finished(log, ids);
        return stepRes, calls, log;
      }
      pending := pending - {artefact};
    }
    assert Finished(log, ids);
    res := Pass;
  }

  /** The work done inside the transaction before its commit: insert the
      entity through `q`, then process every upload it names. It succeeds
      exactly when every upload was processed. */
  method Claim(q: Conn, draft: Entity, fs: FileSystem.FileSystemStore)
    returns (r: Result<Entity, Error>, calls: seq<Call>, ghost run: Run)
    modifies q, fs
    ensures run != BeginFailed
    ensures r.Success? <==> run.Ran? && run.finished
    ensures run == InsertFailed ==> calls == [CreateEntity(draft.Kind())] && fs.disk == old(fs.disk) && q.tables == old(q.tables)
    ensures run.Ran? ==> run.id == NextId(old(q.tables)) && LogOk(run.log)
    ensures run.Ran? ==> Tracked(run.log, draft.UploadIds(), EntityInserted(old(q.tables), draft), draft.Kind(), run.id,
                                 old(fs.disk), fs.baseDir, fs.disk)
    ensures run.Ran? ==> q.tables == TablesAfter(EntityInserted(old(q.tables), draft), run.log, draft.Kind(), run.id)
    ensures run.Ran? ==> (run.finished <==> Finished(run.log, draft.UploadIds()))
    ensures run.Ran? ==> calls == [CreateEntity(draft.Kind())] + Blocks(run.log, draft.Kind(), run.id)
    ensures run.Ran? && !run.finished ==> r.Failure? && run.log != [] && Explains(r.error, run.log[|run.log| - 1])
    ensures r.Success? ==> r.value == EntityEcho(draft, run.id)
  {
    var kind := draft.Kind();
    calls := [CreateEntity(kind)];
    var created := InsertEntity(q, draft);
    if created.Failure? {
      return Failure(created.error), calls, InsertFailed;
    }
    var id := created.value.Id();
    assert id == NextId(old(q.tables));
    ghost var t1 := q.tables;
    assert t1 == EntityInserted(old(q.tables), draft) && fs.disk == old(fs.disk);
    var res, more, log := ProcessAll(q, fs, draft.UploadIds(), kind, id);
    assert Tracked(log, draft.UploadIds(), t1, kind, id, old(fs.disk), fs.baseDir, fs.disk);
    calls := calls + more;
    r := if res.Fail? then Failure(res.error) else created;
    run := Ran(id, log, res.Pass?);
  }

  /** Ends the transaction: commits after a successful claim, and rolls back
      (the deferred `Rollback`) when the claim or the commit failed. */
  method Conclude(tx: Tx, claimed: Result<Entity, Error>) returns (r: Result<Entity, Error>, calls: seq<Call>)
    requires tx.Valid() && tx.status == Active
    modifies tx, tx.pool
    ensures calls == (if claimed.Success? then [Commit] else []) + (if r.Failure? then [Rollback] else [])
    ensures claimed.Failure? ==> r == claimed
    ensures r.Success? ==> r == claimed && tx.pool.tables == tx.work.tables
    ensures r.Failure? ==> tx.pool.tables == old(tx.pool.tables)
  {
    r, calls := claimed, [];
    if claimed.Success? {
      calls := [Commit];
      var committed := tx.Commit();
      if committed.Fail? {
        r := Failure(committed.error);
      }
    }
    if r.Failure? {
      calls := calls + [Rollback];
      var _ := tx.Rollback();
    }
  }

  /** `Create`: opens a transaction, runs the saga, and rolls the transaction
      back on any error after `Begin`. File moves are never undone. */
  method Create(draft: Entity, pool: Conn, fs: FileSystem.FileSystemStore)
    returns (r: Result<Entity, Error>, calls: seq<Call>, ghost run: Run)
    modifies pool, fs
    ensures r.Failure? ==> pool.tables == old(pool.tables)
    ensures run == BeginFailed ==> (r.Failure? && r.error.Wrapped? && r.error.context == "begin tx"
      && calls == [] && fs.disk == old(fs.disk))
    ensures run == InsertFailed ==> r.Failure? && calls == [CreateEntity(draft.Kind()), Rollback] && fs.disk == old(fs.disk)
    ensures run.Ran? ==> run.id == NextId(old(pool.tables))
    ensures run.Ran? ==> LogOk(run.log) && Tracked(run.log, draft.UploadIds(), EntityInserted(old(pool.tables), draft),
                                                   draft.Kind(), run.id, old(fs.disk), fs.baseDir, fs.disk)
    ensures run.Ran? ==> (run.finished <==> Finished(run.log, draft.UploadIds()))
    ensures run.Ran? ==> (calls == [CreateEntity(draft.Kind())] + Blocks(run.log, draft.Kind(), run.id)
      + (if run.finished then [Commit] else [])
      + (if r.Failure? then [Rollback] else []))
    ensures run.Ran? && !run.finished ==> r.Failure? && run.log != [] && Explains(r.error, run.log[|run.log| - 1])
    ensures r.Success? ==> run.Ran? && run.finished && r.value == EntityEcho(draft, run.id)
    ensures r.Success? ==> pool.tables == TablesAfter(EntityInserted(old(pool.tables), draft), run.log, draft.Kind(), run.id)
  {
    var begun := Begin(pool);
    if begun.Failure? {
      return Failure(Wrapped("begin tx", begun.error)), [], BeginFailed;
    }
    var tx := begun.value;
    assert tx.pool == pool && tx.work.tables == old(pool.tables);
    var claimed, more;
    claimed, calls, run := Claim(tx.work, draft, fs);
    r, more := Conclude(tx, claimed);
    ghost var commit: seq<Call> := if claimed.Success? then [Commit] else [];
    ghost var rollback: seq<Call> := if r.Failure? then [Rollback] else [];
    assert more == commit + rollback;
    AppendAssoc(calls, commit, rollback);
    calls := calls + more;
  }
}
