# traintrack backplane: entity creation, upload ledger and history, in Dafny

traintrack tracks versioned datasets and models. Each dataset or model refers
to artefacts that were first uploaded to a temporary area. This project models
the parts of the backplane (Go) and of the Python SDK that decide what happens
to those records and files:

- **The entity-creation saga** (`DefaultCreator.Create`, and the older
  `models.Service.Create` and `datasets.Service.Create`).
  - It opens a transaction and inserts the dataset or model row.
  - Then, upload by upload, it reads the upload and renames every file from
    `Join(path, fileName)` to `Join(<kind>, <new id>, fileName)`.
  - It writes the upload back, owned by the new entity, and commits.
  - Any error after `Begin` rolls the transaction back. The renames are never
    undone.
  - Go map order is unspecified, so uploads and files are visited in an
    arbitrary order. Every property holds for every order.
  - The saga records the calls it makes in `calls`, the way the collaborators'
    test doubles log them.
- **The collaborators.**
  - The upload ledger: `uploads.Store` and the older `uploads.Repository`.
  - The dataset and model catalogues: `Store` and `Repository` in each of
    `datasets` and `models`.
  - `FileSystemStore`.
  - The database is three in-memory tables. A transaction works on a private
    copy that `Commit` publishes and `Rollback` drops. Driver failures are
    chosen nondeterministically at every call whose error the code checks.
  - A catalogue listing reads the rows in an order the database chooses,
    since its query has no `ORDER BY`. The code never consults
    `rows.Err()`, so a read error that ends `rows.Next` early is swallowed.
    The rows read so far, possibly none, come back as a success.
- **Upload intake** (`uploads.Handler`, HTTP removed).
  - `Create` saves the first file of every form field under
    `tmp/uploads/<uuid>/` and records the upload.
  - `Get` finds one artefact of an upload and reads it back.
- **The history view** (`cmd/trees` and its copy in `cmd/log.go`).
  - `BuildTree` links commits to their parents by id and sorts children and
    roots by id.
  - `RenderTree` draws git-log-style lines, as the code writes them (see
    "## Findings" for the branch line it misplaces).
- **The SDK helpers** (`traintrack/datasets.py`): `transform`, the guard in
  `save`, `len`, indexing, `filter_by_name` and `latest_version`.

Modules, one per file:

- `Common`: `common.dfy`
- `Strings`: `strings.dfy`
- `Paths`: `paths.dfy`
- `UploadTypes`: `upload_types.dfy`
- `Database`: `database.dfy`
- `UploadStore`: `upload_store.dfy`
- `UploadRepository`: `upload_repository.dfy`
- `DatasetStore`: `dataset_store.dfy`
- `DatasetRepository`: `dataset_repository.dfy`
- `ModelStore`: `model_store.dfy`
- `ModelRepository`: `model_repository.dfy`
- `FileSystem`: `file_system.dfy`
- `Saga` (the saga as functions of what it saw): `saga.dfy`
- `Creator` (the saga's methods): `creator.dfy`
- `SagaLaws`: `saga_laws.dfy`
- `SagaOutcomes`: `saga_outcomes.dfy`
- `Services`: `services.dfy`
- `UploadHandler`: `upload_handler.dfy`
- `Trees`: `trees.dfy`
- `TreesGolden`: `trees_golden.dfy`
- `LogTree`: `log_tree.dfy`
- `SdkDatasets`: `sdk_datasets.dfy`

Consequences of the code that the model keeps:

- **The ledger's read leaves the owners unset.** The read selects only `id`
  and `files` (`uploads/store.go:82-96`, `121-136`). The store's update
  writes both owner columns (`uploads/store.go:102-119`), so it clears
  whichever owner the saga does not set (`UploadStore.UpdateFromLoadedClearsOwners`).
- **Owners are two columns.** An upload row has `dataset_id` and `model_id`
  (`uploads/store.go:12-17`), and the saga sets only the one of its own kind.
- **A failed saga can leave files half-moved.** The deferred rollback
  (`models/creator.go:59-63`) undoes the database work only. The renames
  already made by `MoveFile` are never undone (`SagaLaws.StaysMoved`).
- **A failed upload intake leaves files on disk.** `Create` returns its error
  without removing what it saved (`uploads/handler.go:138-183`).

Normalisations:

- Artefacts are the map form `map[string]string`, as `datasets/store.go:17`
  has it. Owners are `Option<string>`.
- The assignment at `datasets/service.go:82` sets the dataset owner to
  `Some(id)`.
- `backplane/internal/datasets/creator.go` is not part of this model. The
  dataset saga is the shared `Creator.Create` with the `datasets` prefix.
- The services (`models.Service`, `datasets.Service`) accept any upload
  ledger. They are modelled wired with `uploads.Store`, whose update writes
  the owner columns. Wired with the older `uploads.Repository`, the saga
  would write only the files and never the owner
  (`UploadRepository.FilesUpdateKeepsOwners`).

## Model

| member | source | states |
|---|---|---|
| `Paths.Join` | backplane/internal/models/creator.go:77-80 | `filepath.Join` without its `Clean` step: the segments of the result are exactly those of the arguments; the result is empty only when no argument has a segment |
| `Paths.JoinNested` | backplane/internal/models/creator.go:78-80 | joining a joined path with more parts equals joining all parts at once |
| `Paths.JoinIdempotent` | backplane/internal/models/creator.go:78-80 | a joined path joins to itself |
| `Paths.JoinTrailingSlash` | backplane/internal/uploads/handler.go:114 | a trailing separator on the first argument makes no difference |
| `Paths.JoinUnderDirectory` | backplane/internal/models/service_test.go:108-116 | `a/b/` joined with a name is `a/b/name`, with segments `[a, b, name]` |
| `Paths.JoinUnderJoin` | backplane/internal/models/creator.go:78-80 | `Join(Join(a, b), name)` is `a/b/name`, with segments `[a, b, name]` |
| `Paths.SegmentsAfterHead` | backplane/internal/models/creator.go:78-80 | a path starting with a clean segment and a slash has that segment first |
| `Database.Tx.constructor` | backplane/internal/models/creator.go:55 | a fresh transaction whose working copy equals the pool's tables |
| `Database.Tx.Commit` | backplane/internal/models/creator.go:97-99 | a commit publishes the working copy; it fails on a transaction that is no longer active; a failed commit publishes nothing |
| `Database.Tx.Rollback` | backplane/internal/models/creator.go:59-63 | rolling back an active transaction succeeds and ends it without publishing anything; rolling back a committed or rolled-back one fails with `ErrTxClosed` and changes nothing |
| `Database.Begin` | backplane/internal/models/creator.go:55-58 | a successful begin opens an active transaction over a copy of the pool's tables |
| `UploadStore.Insert` | backplane/internal/uploads/store.go:57-80 | an insert returns the next id, exactly the given files and no owner; a failure changes nothing; a taken id fails |
| `UploadStore.Select` | backplane/internal/uploads/store.go:82-96 | a missing row fails with `ErrNoRows`; a success is the stored id and decoded files with no owner |
| `UploadStore.SelectWrapped` | backplane/internal/uploads/store.go:121-136 | read failures are wrapped as `scan upload`, decode failures as `unmarshal files`; a success is the stored id and files |
| `UploadStore.UpdateAll` | backplane/internal/uploads/store.go:102-119 | an update replaces files, `dataset_id` and `model_id` of the row wholesale; a failure changes nothing |
| `UploadStore.Store.constructor` | backplane/internal/uploads/store.go:51-55 | the store keeps the querier it was given |
| `UploadStore.Store.Create` | backplane/internal/uploads/store.go:57-80 | the result has the store-assigned id, the input files and no owner; a failure returns no upload and changes nothing |
| `UploadStore.Store.Get` | backplane/internal/uploads/store.go:82-96 | the upload read back carries its id and files and never an owner |
| `UploadStore.Store.Move` | backplane/internal/uploads/store.go:98-100 | `MoveWithQuerier` on the store's own connection |
| `UploadStore.Store.MoveWithQuerier` | backplane/internal/uploads/store.go:102-119 | the row is overwritten: files and both owner columns replaced, not merged |
| `UploadStore.Store.GetByIdWithQuerier` | backplane/internal/uploads/store.go:121-136 | errors are `scan upload: …` or `unmarshal files: …` and return no upload; a success is the stored files with no owner |
| `UploadStore.MovedThenLoaded` | backplane/internal/uploads/store.go:102-136 | a moved row reads back with the written files but without the owners that were written with them |
| `UploadStore.CreatedThenLoaded` | backplane/internal/uploads/store.go:57-96 | a created upload reads back with its files; every other row reads as before |
| `UploadStore.UpdateFromLoadedClearsOwners` | backplane/internal/uploads/store.go:37-38 | writing back an upload that was read clears both owner columns of its row |
| `UploadRepository.Repository.constructor` | backplane/internal/uploads/repository.go:28-32 | the repository keeps its connection |
| `UploadRepository.Repository.Create` | backplane/internal/uploads/repository.go:34-57 | the input files under the newly assigned id; a scan failure returns no upload and changes nothing |
| `UploadRepository.Repository.Move` | backplane/internal/uploads/repository.go:59-61 | `MoveWithQuerier` on the repository's own connection |
| `UploadRepository.Repository.MoveWithQuerier` | backplane/internal/uploads/repository.go:63-78 | only the `files` column of row `u.id` changes |
| `UploadRepository.Repository.GetByIdWithQuerier` | backplane/internal/uploads/repository.go:80-95 | the id and decoded files; scan and unmarshal failures are wrapped |
| `UploadRepository.FilesUpdateKeepsOwners` | backplane/internal/uploads/repository.go:14 | the older update keeps both owner columns and changes only the files a read returns |
| `DatasetStore.InsertDataset` | backplane/internal/datasets/store.go:70-93 | the result is the new id with the input name, parent, version and description and no artefacts; a failure changes nothing |
| `DatasetStore.ListDatasets` | backplane/internal/datasets/store.go:98-127 | a failed query gives an error prefixed `could not query datasets: `; a failed scan gives an error and no datasets; a success lists distinct rows in the order the database returned them, one dataset per row read showing that row's columns; it is short exactly when a read error ended `rows.Next` early, and otherwise covers every row |
| `DatasetStore.Store.constructor` | backplane/internal/datasets/store.go:56-60 | the store keeps its querier |
| `DatasetStore.Store.Create` | backplane/internal/datasets/store.go:64-66 | `createWithQuerier` on the store's own querier |
| `DatasetStore.Store.CreateWithQuerier` | backplane/internal/datasets/store.go:70-93 | echoes the four inserted fields under the new id |
| `DatasetStore.Store.List` | backplane/internal/datasets/store.go:98-127 | the listing on the store's own connection: distinct rows in the database's order, all of them unless a swallowed read error cut it short, or an error and no datasets |
| `DatasetStore.InsertAppends` | backplane/internal/datasets/store.go:70-93 | the insert appends one row after the existing ones, which it leaves unchanged, holding the fields the insert echoed |
| `DatasetStore.CreatedThenListed` | backplane/internal/datasets/store.go:70-127 | a listing that read every row after an insert shows the created dataset, with the fields the insert echoed, at some position |
| `DatasetRepository.Repository.constructor` | backplane/internal/datasets/repository.go:37-41 | the repository keeps its connection |
| `DatasetRepository.Repository.Create` | backplane/internal/datasets/repository.go:43-45 | `CreateWithQuerier` on the repository's connection |
| `DatasetRepository.Repository.CreateWithQuerier` | backplane/internal/datasets/repository.go:47-70 | name, parent, version and description echoed with the scanned id; a failure returns nothing |
| `DatasetRepository.Repository.List` | backplane/internal/datasets/repository.go:72-101 | the same listing as the store's: distinct rows in the database's order, cut short by a swallowed read error, or an error and no datasets |
| `ModelStore.InsertModel` | backplane/internal/models/store.go:77-105 | the result is the new id with the input name, parent, version and description; all columns are stored; a failure changes nothing |
| `ModelStore.ListModels` | backplane/internal/models/store.go:110-139 | a failed query gives an error prefixed `could not query models: `; a failed scan gives an error and no models; a success lists distinct rows in the database's order, one model per row read showing its first five columns; it is short exactly when a read error ended `rows.Next` early, and otherwise covers every row |
| `ModelStore.Store.constructor` | backplane/internal/models/store.go:63-67 | the store keeps its querier |
| `ModelStore.Store.Create` | backplane/internal/models/store.go:71-73 | `createWithQuerier` on the store's own querier |
| `ModelStore.Store.CreateWithQuerier` | backplane/internal/models/store.go:77-105 | inserts nine columns, echoes five |
| `ModelStore.Store.List` | backplane/internal/models/store.go:110-139 | the listing on the store's own connection: distinct rows in the database's order, all of them unless a swallowed read error cut it short, or an error and no models |
| `ModelStore.CreatedThenListed` | backplane/internal/models/store.go:76-139 | a listing that read every row after an insert shows the created model's five echoed columns at some position |
| `ModelStore.InsertedRowKeepsWhatEchoDrops` | backplane/internal/models/store.go:98-104 | the stored row keeps the dataset, config, metadata, environment and evaluation the returned model leaves out; the returned model has no artefacts and no dataset |
| `ModelRepository.Repository.constructor` | backplane/internal/models/repository.go:39-43 | the repository keeps its connection |
| `ModelRepository.Repository.Create` | backplane/internal/models/repository.go:45-47 | `CreateWithQuerier` on the repository's connection |
| `ModelRepository.Repository.CreateWithQuerier` | backplane/internal/models/repository.go:49-77 | sends all nine columns, returns five |
| `ModelRepository.Repository.List` | backplane/internal/models/repository.go:79-108 | the same listing as the store's: distinct rows in the database's order, cut short by a swallowed read error, or an error and no models |
| `FileSystem.FileSystemStore.constructor` | backplane/internal/uploads/storage_filesystem.go:13-15 | the store keeps its base directory and disk |
| `FileSystem.FileSystemStore.SaveFile` | backplane/internal/uploads/storage_filesystem.go:17-32 | a success writes the content at `Join(BaseDir, dst)`; a failed mkdir or create changes nothing; a failed copy leaves a prefix of the content |
| `FileSystem.FileSystemStore.MoveFile` | backplane/internal/uploads/storage_filesystem.go:34-43 | a success renames `Join(BaseDir, src)` to `Join(BaseDir, dst)`; a missing source fails; a failure changes nothing |
| `FileSystem.FileSystemStore.ReadFile` | backplane/internal/uploads/storage_filesystem.go:45-48 | the bytes stored at `Join(BaseDir, path)`; a missing file fails with a not-exist error |
| `FileSystem.RenameMovesOneFile` | backplane/internal/uploads/storage_filesystem.go:42 | after a rename the destination holds the source's bytes, the source is gone unless it is the destination, and no other file changes |
| `FileSystem.RenameToSelf` | backplane/internal/uploads/storage_filesystem.go:42 | renaming a file onto itself changes nothing |
| `FileSystem.SameSegmentsSameFile` | backplane/internal/uploads/storage_filesystem.go:35-36 | paths with the same segments name the same file under the base directory |
| `Saga.Labels` | backplane/internal/datasets/creator_test.go:107-147 | one log label per call, in call order |
| `Saga.Moves` | backplane/internal/models/creator.go:76-80 | one rename per visited file, from `Join(path, fileName)` to `Join(<kind>, id, fileName)` |
| `Saga.MoveCalls` | backplane/internal/models/creator.go:79 | one `MoveFile` call per rename, same order |
| `Saga.Artefacts` | backplane/internal/models/creator.go:70 | the artefact names of the steps, in order |
| `Saga.AppliedAppend` | backplane/internal/models/creator.go:76-87 | renames performed one list after another equal the concatenated list |
| `Saga.PerformedAppend` | backplane/internal/models/creator.go:76-87 | a concatenated list of renames went through exactly when both parts did, the second from the disk the first left |
| `Saga.MovesSnoc` | backplane/internal/models/creator.go:76-87 | visiting one more file adds one rename and one `MoveFile` call at the end |
| `Creator.MoveFiles` | backplane/internal/models/creator.go:76-87 | the files are renamed in an arbitrary order recorded in the result, stopping at the first failure; on success every file is rehomed under `Join(<kind>, id)` with its provider and file name kept |
| `Creator.MoveOne` | backplane/internal/models/creator.go:77-86 | one file moved from `Join(path, fileName)` to `Join(<kind>, id, fileName)`; a failure is wrapped `move file {…}` |
| `Creator.ProcessUpload` | backplane/internal/models/creator.go:70-95 | fetch, then every move of that upload, then one update with the new owner; fetch, move and update failures are wrapped with the upload id or the file |
| `Creator.InsertEntity` | backplane/internal/models/creator.go:65-68 | the entity row is inserted through the transaction and echoed under the new id |
| `Creator.ProcessAll` | backplane/internal/models/creator.go:70-95 | the uploads are processed one after another in an arbitrary order, each finishing before the next is fetched, stopping at the first failure |
| `Creator.Claim` | backplane/internal/models/creator.go:65-95 | the insert, then the upload blocks under the new id; it succeeds exactly when every upload was updated, a failed insert leaves the tables and the disk untouched, and a failure carries the error of the last step |
| `Creator.Conclude` | backplane/internal/models/creator.go:97-99 | a successful claim is committed; a failed claim or a failed commit is followed by the rollback deferred at lines 59-63, which leaves the pool's tables as they were |
| `Creator.Create` | backplane/internal/models/creator.go:54-102 | a failed `Begin` is wrapped `begin tx` and makes no call; a failed insert gives `[create, rollback]`; otherwise the trace is the insert, the upload blocks, a commit exactly when all finished and a rollback exactly on failure; on failure the database is unchanged while performed renames stay |
| `SagaLaws.ClaimedRehomesEveryFile` | backplane/internal/models/creator.go:76-91 | the written-back upload keeps its id and file keys, each file keeps provider and name with path `Join(<kind>, id)`, and the new entity is its owner |
| `SagaLaws.MoveCallsAreMoves` | backplane/internal/models/creator.go:79 | the i-th `MoveFile` call is the i-th rename |
| `SagaLaws.MovesAt` | backplane/internal/models/creator.go:77-79 | the i-th rename goes from the i-th visited file's source to its destination |
| `SagaLaws.StepCallsNoControl` | backplane/internal/models/creator.go:70-95 | an upload step never commits or rolls back |
| `SagaLaws.BlocksNoControl` | backplane/internal/models/creator.go:70-95 | no upload block commits or rolls back |
| `SagaLaws.ControlCalls` | backplane/internal/models/creator.go:59-63 | `Rollback` occurs exactly once, and last, on failure and never on success; `Commit` occurs once exactly when every upload finished |
| `SagaLaws.OneMovePerFile` | backplane/internal/models/service_test.go:113 | an upload whose moves all succeeded got exactly one `MoveFile` per file |
| `SagaLaws.TablesAfterKeepsOthers` | backplane/internal/models/creator.go:89-94 | the upload steps never add or remove rows and never touch datasets, models or the id sequence |
| `SagaLaws.UnnamedUploadUntouched` | backplane/internal/models/creator.go:70-95 | an upload that no step names is left exactly as it was |
| `SagaLaws.DoneUploadsOwned` | backplane/internal/models/creator.go:89-94 | after steps that all finished, every named upload is owned by the new entity |
| `SagaLaws.PerformedAt` | backplane/internal/models/creator.go:77-82 | a performed rename found its source on disk when it ran |
| `SagaLaws.StaysMoved` | backplane/internal/models/creator.go:80-82 | no compensating move: a renamed file stays at its destination with its bytes unless a later rename touches that path |
| `SagaLaws.SourceGone` | backplane/internal/models/creator.go:80-82 | a renamed file is gone from its source unless a later rename writes that path |
| `SagaOutcomes.FinishedClaimsNamedUploads` | backplane/internal/models/creator.go:70-99 | a saga that reached its commit claimed every named upload and left every other upload unchanged |
| `SagaOutcomes.OneStep` | backplane/internal/datasets/creator_test.go:92-147 | one artefact naming one upload of one file gives exactly one step |
| `SagaOutcomes.OneStepCalls` | backplane/internal/datasets/creator_test.go:124-140 | that step's calls: the fetch, the move unless the fetch failed, the update once the move went through |
| `SagaOutcomes.FinishedTraces` | backplane/internal/datasets/creator_test.go:108-116 | a finished run's labels end with the commit, then the rollback if the commit failed |
| `SagaOutcomes.FailedTraces` | backplane/internal/datasets/creator_test.go:124-140 | a failed step's labels are the calls up to the failing one, then the rollback |
| `SagaOutcomes.OneFileTraces` | backplane/internal/datasets/creator_test.go:107-147 | the exact traces of the tests: success, create, fetch, move, update and commit failures |
| `SagaOutcomes.OneFileStaysMoved` | backplane/internal/datasets/creator_test.go:130-146 | once the one file was moved it stays at its new path and is gone from the old one, whether or not the update or commit fails |
| `SagaOutcomes.TestSource` | backplane/internal/models/service_test.go:108-116 | the test file's source is `temp/path/artifact.txt` |
| `SagaOutcomes.TestDestination` | backplane/internal/models/service_test.go:108-116 | its destination is `<kind>/<id>/artifact.txt` (`models/ds456/artifact.txt`, `datasets/ds456/artifact.txt`) |
| `SagaOutcomes.TestPathsDiffer` | backplane/internal/models/service_test.go:113 | the old and new paths of the test file are different files under any base directory |
| `SagaOutcomes.DifferentRoots` | backplane/internal/models/creator.go:77-80 | a file under `a/b/` and one under `Join(p, id)` with `a != p` are different files |
| `Services.DefaultCreator.constructor` | backplane/internal/models/creator.go:41-48 | the creator keeps the pool and the file mover it was wired with |
| `Services.DefaultCreator.Create` | backplane/internal/models/creator.go:54-102 | the saga with the `models` prefix; a success returns the five echoed model fields under the new id |
| `Services.ModelService.constructor` | backplane/internal/models/service.go:36-41 | the service keeps its repository, pool and storage |
| `Services.ModelService.Create` | backplane/internal/models/service.go:45-93 | the same saga and trace as the creator, with the `models` prefix and the model as owner; a failure leaves the database unchanged; a success returns the five echoed fields under the new id and commits the claimed uploads |
| `Services.ModelService.List` | backplane/internal/models/service.go:95-97 | the repository's listing passed through: distinct rows in the database's order, possibly cut short, or an error |
| `Services.DatasetService.constructor` | backplane/internal/datasets/service.go:36-41 | the service keeps its repository, pool and storage |
| `Services.DatasetService.Create` | backplane/internal/datasets/service.go:45-93 | the saga with the `datasets` prefix; the owner is the dataset; a success returns the echoed dataset with no artefacts |
| `Services.DatasetService.List` | backplane/internal/datasets/service.go:95-97 | the repository's listing passed through: distinct rows in the database's order, possibly cut short, or an error |
| `UploadHandler.Handler.constructor` | backplane/internal/uploads/handler.go:43-54 | the handler keeps its store and storage |
| `UploadHandler.Handler.Create` | backplane/internal/uploads/handler.go:98-187 | a parse error is a 400 and touches no file; a form without files is a 400 `no files uploaded`; a success records the upload with one reference per field that carried a file; every failure leaves the ledger unchanged; a failed save leaves the earlier fields' files and at most a prefix of the failing one on disk; a request refused after every field was saved leaves all the saved files on disk |
| `UploadHandler.Handler.SaveFirstFiles` | backplane/internal/uploads/handler.go:116-156 | saves the first file of every field at `basePath + fileName`, skipping empty fields; the references are exactly `Refs`; a failure is a 500 that leaves the earlier fields' files saved and the failing file unwritten or holding a prefix of its bytes |
| `UploadHandler.FailedSaveKeepsEarlier` | backplane/internal/uploads/handler.go:138-148 | a failed save removes nothing: every earlier field's file keeps its bytes unless a later field wrote the same path |
| `UploadHandler.Handler.Get` | backplane/internal/uploads/handler.go:194-244 | an unknown upload is a 404 `Upload not found`; an unknown artefact a 404 `File not found`; an unreadable file a 500; a success returns the bytes at `Join(path, fileName)` |
| `UploadHandler.RefsAmongAdd` | backplane/internal/uploads/handler.go:117-155 | visiting one more field adds its first file's reference, if it has one |
| `UploadHandler.SavedSnoc` | backplane/internal/uploads/handler.go:138-139 | saving one more field writes its first file last |
| `UploadHandler.RefsKeepFirstFiles` | backplane/internal/uploads/handler.go:116-158 | exactly the fields that carried a file get a reference, pointing at their first file in `tmp/uploads/<uuid>/`; no reference at all exactly when no field carried a file |
| `UploadHandler.SavedKeeps` | backplane/internal/uploads/handler.go:138-139 | a saved file that no later field overwrote keeps its bytes on disk |
| `UploadHandler.ReadPathIsSavePath` | backplane/internal/uploads/handler.go:215 | the path `Get` reads and the path `Create` saved to name the same file |
| `UploadHandler.CreatedThenRead` | backplane/internal/uploads/handler.go:210-230 | create then get: an artefact no other field overwrote reads back as exactly the bytes sent |
| `Trees.Latest` | backplane/cmd/trees/trees.go:30-33 | the id index holds exactly the ids of the commits, each under its own id |
| `Trees.LatestKeepsLast` | backplane/cmd/trees/trees.go:30-33 | when ids repeat, the last commit with that id wins |
| `Trees.Ascending` | backplane/cmd/trees/trees.go:58-60 | the ids of a set in strictly increasing order |
| `Trees.AscendingUnique` | backplane/cmd/trees/trees.go:47-60 | any strictly increasing listing of a set is `Ascending` of it, so every sort by id gives the same order |
| `Trees.GrowFromRootKeepsAll` | backplane/cmd/trees/trees.go:35-56 | below a root, every node has exactly the commits naming it as parent as children, in ascending id order |
| `Trees.ForestLinksAll` | backplane/cmd/trees/trees.go:35-62 | the roots are the unlinked commits in ascending id order, and every node below holds all its children |
| `Trees.Insert` | backplane/cmd/trees/trees.go:58-60 | inserting into a sorted list keeps it sorted and adds exactly the new id |
| `Trees.SortIds` | backplane/cmd/trees/trees.go:58-60 | sorting distinct ids gives `Ascending` of their set |
| `Trees.Partition` | backplane/cmd/trees/trees.go:35-43 | every commit is either appended to its listed parent's children or to the roots; the roots are exactly the unlinked commits |
| `Trees.Assemble` | backplane/cmd/trees/trees.go:45-56 | the children of each node, sorted by id, assembled recursively, equal `Grow` |
| `Trees.BuildTree` | backplane/cmd/trees/trees.go:26-63 | the result is the forest of the id index: roots and children linked by parent id and sorted by id |
| `Trees.RenderTree` | backplane/cmd/trees/trees.go:65-97 | the lines are `Render(AsWritten, …)`: per commit a separator when due, its line, the branch line drawn from the commit's own columns without the prefix when it has several children, its children under `prefix + pre`, every line trimmed |
| `Trees.RenderTrimmed` | backplane/cmd/trees/trees.go:93-95 | every rendered line is already trimmed |
| `Trees.SeparatorTrimmed` | backplane/cmd/trees/trees.go:72 | the separator survives trimming |
| `Trees.RenderKeepsPrefix` | backplane/cmd/trees/trees.go:75-90 | every line drawn under a prefix starts with that prefix, unless it is a separator |
| `Trees.AsWrittenDropsPrefix` | backplane/cmd/trees/trees.go:88 | as written, a commit with two children under the prefix `\| ` gets the branch line `\|\`, which has lost the prefix |
| `TreesGolden.Golden2Commits` | backplane/cmd/trees/trees_test.go:10-24 | a commit and its child render as `* A`, `* B` |
| `TreesGolden.Golden3Commits` | backplane/cmd/trees/trees_test.go:26-43 | a chain of three renders as three starred lines |
| `TreesGolden.Golden1Branch` | backplane/cmd/trees/trees_test.go:45-65 | one branch renders with `\|\` and the indented side branch |
| `TreesGolden.Golden2Branch` | backplane/cmd/trees/trees_test.go:67-92 | a branch within a branch renders with `\| \|\` |
| `TreesGolden.Golden2Branch1Parent` | backplane/cmd/trees/trees_test.go:94-114 | three children of one commit render with `\|\ \` |
| `TreesGolden.Golden2Roots` | backplane/cmd/trees/trees_test.go:116-134 | two roots render separated by `\n---\n` |
| `LogTree.Commits` | backplane/cmd/log.go:82-89 | each listed dataset becomes the commit with its id, name, version, description and parent |
| `LogTree.ListedDatasetShown` | backplane/cmd/log.go:86-89 | a dataset whose id no later dataset repeats is the commit filed under that id |
| `LogTree.BuildTree` | backplane/cmd/log.go:82-119 | the forest of the datasets' id index: roots are the unlinked datasets in ascending id order, every node has all its children in ascending id order |
| `LogTree.RenderTree` | backplane/cmd/log.go:121-143 | the same lines as the generic renderer as written, branch line included, every one trimmed |
| `LogTree.History` | backplane/cmd/log.go:39-40 | the lines `RunLog` shows: the listing built into a forest and rendered as written from the left margin |
| `SdkDatasets.Transform` | python-sdk/traintrack/datasets.py:14-16 | a new unsaved dataset (id None) whose parent is the source's id |
| `SdkDatasets.Save` | python-sdk/traintrack/datasets.py:18-30 | refused, with the immutability message, exactly when the id is set and `force` is false; otherwise the request body carries name, version, description and parent |
| `SdkDatasets.TransformedSaves` | python-sdk/traintrack/datasets.py:14-20 | a transformed dataset can always be saved without `force`, and its request names the source as parent |
| `SdkDatasets.StoredRefused` | python-sdk/traintrack/datasets.py:18-20 | a stored dataset is refused without `force` and accepted with it |
| `SdkDatasets.Matching` | python-sdk/traintrack/datasets.py:47-48 | exactly the items with that name, no more items than the input |
| `SdkDatasets.MatchingAppend` | python-sdk/traintrack/datasets.py:47-48 | filtering a concatenation concatenates the filtered parts, so the original order is kept |
| `SdkDatasets.MatchingCounts` | python-sdk/traintrack/datasets.py:47-48 | each matching item is kept as often as it occurs; the others are dropped |
| `SdkDatasets.MatchingIdempotent` | python-sdk/traintrack/datasets.py:47-48 | filtering twice by the same name changes nothing more |
| `SdkDatasets.NewestIndex` | python-sdk/traintrack/datasets.py:55 | the item a stable descending sort by version puts first: a greatest version, every earlier item strictly older |
| `SdkDatasets.NewestUnique` | python-sdk/traintrack/datasets.py:55 | only one position has both properties, so the choice does not depend on the sort algorithm |
| `SdkDatasets.Datasets.Len` | python-sdk/traintrack/datasets.py:44-45 | the number of wrapped items |
| `SdkDatasets.Datasets.Get` | python-sdk/traintrack/datasets.py:41-42 | Python indexing: defined exactly for `-len <= i < len`, negative indices counting from the end |
| `SdkDatasets.Datasets.FilterByName` | python-sdk/traintrack/datasets.py:47-48 | exactly the items with that name |
| `SdkDatasets.Datasets.LatestVersion` | python-sdk/traintrack/datasets.py:50-55 | None exactly when no item has the name; otherwise a named item with a greatest version in plain string order, the first such among the matches |
| `SdkDatasets.NegativeIndexWraps` | python-sdk/traintrack/datasets.py:41-42 | `i - len` reaches the same item as `i`; `i + len` and `i - 2*len` raise |
| `SdkDatasets.LatestVersionIsLexical` | python-sdk/traintrack/datasets.py:51-55 | versions compare as strings, so `1.9` is newer than `1.10` in either order |
| `SdkDatasets.LatestVersionKeepsFirstOfEqual` | python-sdk/traintrack/datasets.py:55 | of two equal versions the earlier item wins |

## Left out

- HTTP plumbing is not modelled:
  - the method dispatch in `Uploads` and `Upload` (`uploads/handler.go:60-91`);
  - status codes are written as values only;
  - JSON encoding of bodies is not modelled;
  - the `Content-Disposition` header is only the file name it would carry;
  - `log.Printf`, `defer file.Close()` and `context.Context` are not modelled.
- Multipart parsing is an input. `Handler.Create` receives the parsed form or the parse error.
- The UUID generator is an input. `Handler.Create` receives the id it returned.
- Concurrency is not modelled. Two sagas that claim the same upload at the same time cannot be expressed; every run is sequential.
- SQL text, the pgx driver and jsonb decoding are not modelled.
  - Tables are maps and sequences.
  - A files column is either a map or bytes that do not decode.
  - Driver failures are nondeterministic choices.
- Go's pointer graph in `BuildTree` is not modelled: nodes are values.
  - `Trees.BuildTree` returns equal trees, not shared `*treeNode`s.
  - The in-place `sort.SliceStable` and `sort.Slice` are modelled by building the sorted id lists.
  - The instability of `sort.Slice` cannot show, because the roots have distinct ids.
- `Paths.Join`: does not model the `Clean` step of Go's `filepath.Join`. `.` segments are kept instead of removed, `..` segments are kept instead of cancelling the segment before them, and a leading `/` is dropped instead of kept. The program joins `BaseDir` `./files/` and client-supplied multipart file names (`uploads/handler.go:138` and `:215`, `router/handler.go:30`), so two paths that differ only by `.` or `..` segments, or a file name holding `..`, name different files in the model where Go names one.
- `DatasetStore.Shows` and `ModelStore.Shows`: the artefact map of a listed dataset or model is left unconstrained. The query aggregates it from the uploads the entity owns (`jsonb_object_agg`), which is not modelled.
- The `suffix` argument of `RenderTree` is passed down and never drawn, as in the source.
- `LogTree.Commits`: `cmd/log.go` decodes the catalogue's dataset (`backplane/internal/datasets/store.go:10-18`), artefact map included. The tree code never reads the map, so the commit keeps only the other five fields.
- The log command's `FetchData` (an HTTP GET), the printing and exit in `RunLog`, and the terminal pager (`model`, `Update`, `View`) are not modelled.
- `SdkDatasets.Save`: models the guard and the request body, not the POST or the dataset built from the response.
- `SdkDatasets.Transform`: the transformation function argument is accepted and never called, as in the source.
- `Datasets.__iter__` and `__repr__`, and `list_datasets` (an HTTP GET), are not modelled.
- `create_dataset` in the SDK sits inside a string literal. It is never defined, so it is not modelled.
- `uploads/model.go` repeats the `Upload` type; the store's declaration is the one modelled.

## Findings

| source | as written | input that shows it | evidently intended | confidence | as-written member | corrected member |
|---|---|---|---|---|---|---|
| backplane/cmd/trees/trees.go:88 (and the same line at backplane/cmd/log.go:134) | the branch line is drawn from `pre` alone, without the `prefix` the commit's own line starts with | commits A (no parent), B and C (parent A), D (parent B), E and F (parent D): D is drawn as `\| * D`, but the branch line above E and F comes out as `\|\` | `\| \|\`, drawn under the same prefix as D's line | not executed | `Trees.AsWrittenDropsPrefix` | `Trees.RenderKeepsPrefix` |

The golden outputs of `trees_test.go` are the same under both styles: each
test's commit with several children sits under an empty prefix. `TreesGolden`
proves them for both. `Trees.RenderTree` and `LogTree.RenderTree` draw the
lines as written; `Render(Aligned, ·)` is the corrected renderer.
