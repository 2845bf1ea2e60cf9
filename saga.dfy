/** What the entity-creation saga does, stated as functions of what it saw.

    Creating a dataset or a model inserts the entity inside a transaction and
    then, upload by upload, moves every file of each referenced upload from
    `Join(path, fileName)` to `Join(<kind>, <new id>, fileName)` and rewrites
    the upload's ledger row. The file moves happen outside the transaction:
    when a later step fails the transaction is rolled back, but no file is
    moved back.

    A `Step` records one upload as it was processed: which artefact named it,
    the upload that was read, the order its files were visited in (Go map
    order is unspecified) and how far the step got. The trace, the disk and
    the tables are then functions of the list of steps. */
module Saga {
  import opened Common
  import opened Paths
  import opened UploadTypes
  import opened Database
  import UploadStore
  import DatasetStore
  import ModelStore
  import FileSystem

  /** Which catalogue the saga creates into; it names the storage prefix. */
  datatype Kind = Datasets | Models
  {
    function Prefix(): string {
      match this
      case Datasets => "datasets"
      case Models => "models"
    }
  }

  /** The entity being created. */
  datatype Entity = DatasetEntity(dataset: DatasetStore.Dataset) | ModelEntity(model: ModelStore.Model)
  {
    function Kind(): Kind {
      if DatasetEntity? then Datasets else Models
    }

    function Id(): string {
      if DatasetEntity? then dataset.id else model.id
    }

    /** Artefact name to upload id. */
    function UploadIds(): map<string, string> {
      if DatasetEntity? then dataset.uploadIds else model.uploadIds
    }
  }

  /** The tables after the entity insert. */
  function EntityInserted(t: Tables, e: Entity): Tables {
    match e
    case DatasetEntity(d) => DatasetStore.Inserted(t, d)
    case ModelEntity(m) => ModelStore.Inserted(t, m)
  }

  /** What the entity insert returns under `id`. */
  function EntityEcho(e: Entity, id: string): Entity {
    match e
    case DatasetEntity(d) => DatasetEntity(DatasetStore.Dataset(id, d.name, d.parent, d.version, d.description, map[]))
    case ModelEntity(m) => ModelEntity(ModelStore.Echo(m, id))
  }

  /** A call the saga makes on a collaborator. */
  datatype Call =
    | CreateEntity(kind: Kind)
    | GetUpload(id: string)
    | MoveFile(src: string, dst: string)
    | MoveUpload(id: string)
    | Commit
    | Rollback
  {
    /** How the collaborators' test doubles log the call. */
    function Label(): string {
      match this
      case CreateEntity(Datasets) => "create-dataset"
      case CreateEntity(Models) => "create-model"
      case GetUpload(_) => "get-upload"
      case MoveFile(src, dst) => "move-file " + src + " -> " + dst
      case MoveUpload(_) => "move-upload"
      case Commit => "commit"
      case Rollback => "rollback"
    }

    predicate IsControl() {
      Commit? || Rollback?
    }
  }

  function Labels(calls: seq<Call>): (r: seq<string>)
    ensures |r| == |calls|
    ensures forall i :: 0 <= i < |calls| ==> r[i] == calls[i].Label()
  {
    if calls == [] then [] else [calls[0].Label()] + Labels(calls[1..])
  }

  /** The directory that owns the entity's files: `Join(<kind>, id)`. */
  function Home(kind: Kind, id: string): string {
    Join([kind.Prefix(), id])
  }

  /** Where a file lives before the saga: `Join(path, fileName)`. */
  function Source(f: FileRef): string {
    Join([f.path, f.fileName])
  }

  /** Where the saga moves a file: `Join(Join(<kind>, id), fileName)`. */
  function Destination(kind: Kind, id: string, f: FileRef): string {
    Join([Home(kind, id), f.fileName])
  }

  /** The file reference after the move: same provider and name, new path. */
  function Rehomed(f: FileRef, kind: Kind, id: string): FileRef {
    FileRef(f.provider, f.fileName, Home(kind, id))
  }

  /** The upload's files after every one of them was moved. */
  function Relocated(files: map<string, FileRef>, kind: Kind, id: string): map<string, FileRef> {
    map k | k in files :: Rehomed(files[k], kind, id)
  }

  /** The upload as the saga writes it back: relocated files and the new
      entity as owner of the kind's column. */
  function Claimed(u: Upload, kind: Kind, id: string): Upload {
    var moved := u.(files := Relocated(u.files, kind, id));
    if kind == Datasets then moved.(datasetId := Some(id)) else moved.(modelId := Some(id))
  }

  /** A rename request, relative to the store's base directory. */
  datatype Move = Move(src: string, dst: string)

  predicate KeysOf(order: seq<string>, files: map<string, FileRef>) {
    forall i :: 0 <= i < |order| ==> order[i] in files
  }

  /** The renames for visiting `files` in `order`. */
  function Moves(files: map<string, FileRef>, order: seq<string>, kind: Kind, id: string): (r: seq<Move>)
    requires KeysOf(order, files)
    ensures |r| == |order|
  {
    if order == [] then []
    else
      var f := files[order[|order| - 1]];
      Moves(files, order[..|order| - 1], kind, id) + [Move(Source(f), Destination(kind, id, f))]
  }

  /** The `MoveFile` calls for a list of renames. */
  function MoveCalls(moves: seq<Move>): (r: seq<Call>)
    ensures |r| == |moves|
  {
    if moves == [] then [] else MoveCalls(moves[..|moves| - 1]) + [MoveFile(moves[|moves| - 1].src, moves[|moves| - 1].dst)]
  }

  /** The disk after performing `moves` in order under `base`. */
  function Applied(disk: map<string, Bytes>, base: string, moves: seq<Move>): map<string, Bytes> {
    if moves == [] then disk
    else
      var m := moves[|moves| - 1];
      FileSystem.Renamed(Applied(disk, base, moves[..|moves| - 1]), Join([base, m.src]), Join([base, m.dst]))
  }

  /** Every rename in `moves` found its source on disk when it ran. */
  predicate Performed(disk: map<string, Bytes>, base: string, moves: seq<Move>) {
    moves == [] ||
    (Performed(disk, base, moves[..|moves| - 1])
     && Join([base, moves[|moves| - 1].src]) in Applied(disk, base, moves[..|moves| - 1]))
  }

  /** How far the processing of one upload got. */
  datatype StepEnd = FetchFailed | MoveFailed | UpdateFailed | Done

  /** One upload as the saga processed it. */
  datatype Step = Step(artefact: string, uploadId: string, fetched: Upload, order: seq<string>, end: StepEnd)

  /** A step is well formed: files are visited at most once each; a finished
      visit covers every file; a failed move is the last one visited. */
  predicate StepOk(s: Step) {
    KeysOf(s.order, s.fetched.files) && Distinct(s.order)
    && (s.end == FetchFailed ==> s.order == [])
    && (s.end == MoveFailed ==> s.order != [])
    && (s.end == UpdateFailed || s.end == Done ==> forall k :: k in s.fetched.files ==> k in s.order)
  }

  /** The files whose move succeeded. */
  function Succeeded(s: Step): seq<string> {
    if s.end == MoveFailed && s.order != [] then s.order[..|s.order| - 1] else s.order
  }

  function StepMoves(s: Step, kind: Kind, id: string): seq<Move>
    requires StepOk(s)
  {
    Moves(s.fetched.files, Succeeded(s), kind, id)
  }

  /** The calls made for one upload: fetch, one move per visited file (the
      failed one included), then the update once every move succeeded. */
  function StepCalls(s: Step, kind: Kind, id: string): seq<Call>
    requires StepOk(s)
  {
    [GetUpload(s.uploadId)]
    + MoveCalls(Moves(s.fetched.files, s.order, kind, id))
    + (if s.end == UpdateFailed || s.end == Done then [MoveUpload(s.uploadId)] else [])
  }

  /** The tables after one upload: rewritten only when its update went through. */
  function StepTables(t: Tables, s: Step, kind: Kind, id: string): Tables {
    if s.end == Done then UploadStore.Updated(t, Claimed(s.fetched, kind, id)) else t
  }

  predicate LogOk(log: seq<Step>) {
    forall i :: 0 <= i < |log| ==> StepOk(log[i])
  }

  function Blocks(log: seq<Step>, kind: Kind, id: string): seq<Call>
    requires LogOk(log)
  {
    if log == [] then [] else Blocks(log[..|log| - 1], kind, id) + StepCalls(log[|log| - 1], kind, id)
  }

  /** Every rename the saga performed, in order. */
  function LogMoves(log: seq<Step>, kind: Kind, id: string): seq<Move>
    requires LogOk(log)
  {
    if log == [] then [] else LogMoves(log[..|log| - 1], kind, id) + StepMoves(log[|log| - 1], kind, id)
  }

  function TablesAfter(t: Tables, log: seq<Step>, kind: Kind, id: string): Tables {
    if log == [] then t else StepTables(TablesAfter(t, log[..|log| - 1], kind, id), log[|log| - 1], kind, id)
  }

  function Artefacts(log: seq<Step>): (r: seq<string>)
    ensures |r| == |log|
    ensures forall i :: 0 <= i < |log| ==> r[i] == log[i].artefact
  {
    if log == [] then [] else Artefacts(log[..|log| - 1]) + [log[|log| - 1].artefact]
  }

  /** Each step that read its upload read it from the ledger as the steps
      before it had left it. */
  predicate ReadInTurn(log: seq<Step>, t: Tables, kind: Kind, id: string) {
    log == [] ||
    (ReadInTurn(log[..|log| - 1], t, kind, id)
     && (log[|log| - 1].end != FetchFailed ==>
           UploadStore.Loaded(TablesAfter(t, log[..|log| - 1], kind, id), log[|log| - 1].uploadId) == Some(log[|log| - 1].fetched)))
  }

  /** The context a failed step wraps its cause in. */
  function FailureContext(s: Step): string {
    match s.end
    case FetchFailed => "get upload " + s.uploadId
    case MoveFailed =>
      if s.order != [] && s.order[|s.order| - 1] in s.fetched.files
      then "move file " + FormatFileRef(s.fetched.files[s.order[|s.order| - 1]])
      else ""
    case UpdateFailed => "update upload " + s.uploadId
    case Done => ""
  }

  /** The error a failed step returns: its cause, wrapped in the step's context. */
  predicate Explains(e: Error, s: Step) {
    s.end != Done && e.Wrapped? && e.context == FailureContext(s)
  }

  /** How far a whole run got: `finished` tells whether every upload was
      processed, so that the saga went on to commit. */
  datatype Run = BeginFailed | InsertFailed | Ran(id: string, log: seq<Step>, finished: bool)

  /** The upload row the saga leaves behind: decoded files all under the new
      entity's directory, the new entity in its own column and the other owner
      column cleared. */
  predicate Owned(row: UploadRow, kind: Kind, id: string) {
    row.files.Encoded?
    && (forall k :: k in row.files.files ==> row.files.files[k].path == Home(kind, id))
    && (kind == Datasets ==> row.datasetId == Some(id) && row.modelId == None)
    && (kind == Models ==> row.modelId == Some(id) && row.datasetId == None)
  }

  /** Renames performed one list after another are the concatenated list. */
  lemma {:induction false} AppliedAppend(disk: map<string, Bytes>, base: string, a: seq<Move>, b: seq<Move>)
    ensures Applied(disk, base, a + b) == Applied(Applied(disk, base, a), base, b)
    decreases |b|
  {
    if b == [] {
      assert a + b == a;
    } else {
      assert (a + b)[..|a + b| - 1] == a + b[..|b| - 1];
      AppliedAppend(disk, base, a, b[..|b| - 1]);
    }
  }

  lemma {:induction false} PerformedAppend(disk: map<string, Bytes>, base: string, a: seq<Move>, b: seq<Move>)
    requires Performed(disk, base, a) && Performed(Applied(disk, base, a), base, b)
    ensures Performed(disk, base, a + b)
    decreases |b|
  {
    if b == [] {
      assert a + b == a;
    } else {
      assert (a + b)[..|a + b| - 1] == a + b[..|b| - 1];
      PerformedAppend(disk, base, a, b[..|b| - 1]);
      AppliedAppend(disk, base, a, b[..|b| - 1]);
    }
  }

  /** Visiting one more file adds one rename, and one `MoveFile` call, at the end. */
  lemma MovesSnoc(disk: map<string, Bytes>, base: string, files: map<string, FileRef>, order: seq<string>,
                  name: string, kind: Kind, id: string)
    requires KeysOf(order, files) && name in files
    ensures KeysOf(order + [name], files)
    ensures var m := Move(Source(files[name]), Destination(kind, id, files[name]));
      && Moves(files, order + [name], kind, id) == Moves(files, order, kind, id) + [m]
      && MoveCalls(Moves(files, order + [name], kind, id)) == MoveCalls(Moves(files, order, kind, id)) + [MoveFile(m.src, m.dst)]
      && Applied(disk, base, Moves(files, order + [name], kind, id))
         == FileSystem.Renamed(Applied(disk, base, Moves(files, order, kind, id)), Join([base, m.src]), Join([base, m.dst]))
      && (Performed(disk, base, Moves(files, order + [name], kind, id)) <==>
          Performed(disk, base, Moves(files, order, kind, id)) && Join([base, m.src]) in Applied(disk, base, Moves(files, order, kind, id)))
  {
    assert (order + [name])[..|order|] == order;
    var m := Move(Source(files[name]), Destination(kind, id, files[name]));
    var ms := Moves(files, order + [name], kind, id);
    assert ms == Moves(files, order, kind, id) + [m];
    assert ms[..|ms| - 1] == Moves(files, order, kind, id);
  }
}
