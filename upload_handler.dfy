/** Upload intake (`uploads.Handler`) without the HTTP plumbing: `Create`
    saves the first file of every form field under a fresh temporary
    directory and records the upload; `Get` finds one artefact of an upload
    and reads it back. Errors are the JSON error bodies the handler writes. */
module UploadHandler {
  import opened Common
  import opened Paths
  import opened UploadTypes
  import opened Database
  import UploadStore
  import FileSystem

  /** `internal.Error`: the status code and the body of a failed request. */
  datatype ApiError = ApiError(code: int, message: string, reason: string)

  /** One file of a multipart form field: its header's file name and its bytes. */
  datatype Part = Part(fileName: string, content: Bytes)

  /** `form.File`: every field name with the files sent under it. */
  type Form = map<string, seq<Part>>

  /** A downloaded artefact: the file name for the `Content-Disposition`
      header and the file's bytes. */
  datatype Download = Download(fileName: string, content: Bytes)

  const StatusBadRequest := 400
  const StatusNotFound := 404
  const StatusInternalServerError := 500

  /** Where one upload's files wait for a dataset or model to claim them. */
  function BasePath(uploadId: string): string {
    "tmp/uploads/" + uploadId + "/"
  }

  /** The upload's files: one reference per field that carried a file,
      naming that field's first file inside `base`. */
  function Refs(form: Form, base: string): map<string, FileRef> {
    RefsAmong(form, form.Keys, base)
  }

  /** `Refs` restricted to the fields in `names`. */
  function RefsAmong(form: Form, names: set<string>, base: string): map<string, FileRef> {
    map name | name in names && name in form && |form[name]| > 0 :: FileRef(ProviderFileSystem, form[name][0].fileName, base)
  }

  /** The disk after the first file of each field in `order` was saved, in
      that order, at `base + fileName` below `baseDir`. */
  function Saved(disk: map<string, Bytes>, baseDir: string, base: string, form: Form, order: seq<string>): map<string, Bytes>
    requires forall i :: 0 <= i < |order| ==> order[i] in form
    decreases |order|
  {
    if order == [] then disk
    else
      var before := Saved(disk, baseDir, base, form, order[..|order| - 1]);
      var parts := form[order[|order| - 1]];
      if |parts| == 0 then before else before[Join([baseDir, base + parts[0].fileName]) := parts[0].content]
  }

  /** The disk a failed save leaves behind: the fields of `order` before its
      last were saved, and the last field's first file was not written, or
      holds only a prefix of its bytes. Nothing saved is removed. */
  predicate FailedSave(disk0: map<string, Bytes>, baseDir: string, base: string, form: Form, order: seq<string>,
                       disk: map<string, Bytes>)
    requires order != [] && forall i :: 0 <= i < |order| ==> order[i] in form
  {
    var before := Saved(disk0, baseDir, base, form, order[..|order| - 1]);
    var parts := form[order[|order| - 1]];
    |parts| > 0
    && (disk == before
        || exists n :: 0 <= n < |parts[0].content|
             && disk == before[Join([baseDir, base + parts[0].fileName]) := parts[0].content[..n]])
  }

  /** The path `Get` reads for the artefact `name`, or "" when the upload has
      no such artefact. */
  function Located(u: Upload, name: string): string {
    if name in u.files then Join([u.files[name].path, u.files[name].fileName]) else ""
  }

  /** Taking `name` out of `pending` and onto the end of `order` keeps the
      visiting order of `SaveFirstFiles` a duplicate-free listing of the
      fields already taken. */
  lemma OrderNext(form: Form, pending: set<string>, order: seq<string>, name: string)
    requires pending <= form.Keys && name in pending
    requires Distinct(order) && forall i :: 0 <= i < |order| ==> order[i] in form && order[i] !in pending
    requires forall n :: n in form ==> n in pending || n in order
    ensures var pending', order' := pending - {name}, order + [name];
      && Distinct(order') && (forall i :: 0 <= i < |order'| ==> order'[i] in form && order'[i] !in pending')
      && (forall n :: n in form ==> n in pending' || n in order')
      && form.Keys - pending' == (form.Keys - pending) + {name}
  {
    var order' := order + [name];
    forall i, j | 0 <= i < j < |order'| ensures order'[i] != order'[j] {
    }
  }

  class Handler {
    const store: UploadStore.Store
    const storage: FileSystem.FileSystemStore

    constructor (store: UploadStore.Store, storage: FileSystem.FileSystemStore)
      ensures this.store == store && this.storage == storage
    {
      this.store := store;
      this.storage := storage;
    }

    /** `Create`: `parsed` is the multipart form or the parse error, and
        `uploadId` what the id generator returned. Fields are visited in an
        arbitrary order, recorded in `order`; a field without files is
        skipped. Every failure leaves the ledger untouched, but no saved file
        is ever removed: a failed save leaves the earlier fields' files on
        disk, and a request refused after every field was saved (`allSaved`)
        leaves all of them there, referenced by no upload. */
    method Create(parsed: Result<Form, Error>, uploadId: string)
      returns (r: Result<Upload, ApiError>, ghost order: seq<string>, ghost allSaved: bool)
      modifies store.q, storage
      ensures parsed.Failure? ==> (r == Failure(ApiError(StatusBadRequest, "Failed to create upload", parsed.error.Message()))
        && storage.disk == old(storage.disk))
      ensures parsed.Success? && Refs(parsed.value, BasePath(uploadId)) == map[] ==>
        r == Failure(ApiError(StatusBadRequest, "Failed to create upload", "no files uploaded"))
      ensures r.Failure? ==> store.q.tables == old(store.q.tables)
      ensures r.Failure? ==> (r.error.message == "Failed to create upload"
        && (r.error.code == StatusBadRequest || r.error.code == StatusInternalServerError))
      ensures r.Success? ==> (parsed.Success?
        && Distinct(order) && (forall i :: 0 <= i < |order| ==> order[i] in parsed.value)
        && (forall name :: name in parsed.value ==> name in order))
      ensures r.Success? ==> r.value == Upload(NextId(old(store.q.tables)), Refs(parsed.value, BasePath(uploadId)), None, None)
      ensures r.Success? ==> store.q.tables == UploadStore.Inserted(old(store.q.tables), Refs(parsed.value, BasePath(uploadId)))
      ensures r.Success? ==> storage.disk == Saved(old(storage.disk), storage.baseDir, BasePath(uploadId), parsed.value, order)
      ensures r.Success? ==> allSaved
      ensures parsed.Success? ==> Distinct(order) && forall i :: 0 <= i < |order| ==> order[i] in parsed.value
      ensures parsed.Success? && allSaved ==> ((forall name :: name in parsed.value ==> name in order)
        && storage.disk == Saved(old(storage.disk), storage.baseDir, BasePath(uploadId), parsed.value, order))
      ensures parsed.Success? && !allSaved ==> (r.Failure? && r.error.code == StatusInternalServerError && order != []
        && FailedSave(old(storage.disk), storage.baseDir, BasePath(uploadId), parsed.value, order, storage.disk))
    {
      order, allSaved := [], false;
      if parsed.Failure? {
        return Failure(ApiError(StatusBadRequest, "Failed to create upload", parsed.error.Message())), order, allSaved;
      }
      var form := parsed.value;
      var basePath := BasePath(uploadId);
      var saved;
      saved, order := SaveFirstFiles(form, basePath);
      if saved.Failure? {
        return Failure(saved.error), order, allSaved;
      }
      allSaved := true;
      var fileRefs := saved.value;
      if |fileRefs| == 0 {
        assert fileRefs == map[];
        return Failure(ApiError(StatusBadRequest, "Failed to create upload", "no files uploaded")), order, allSaved;
      }
      var created := store.Create(Upload("", fileRefs, None, None));
      if created.Failure? {
        return Failure(ApiError(StatusInternalServerError, "Failed to create upload", created.error.Message())), order, allSaved;
      }
      r := Success(created.value);
    }

    /** The loop of `Create`: saves the first file of every field, in the
        order recorded in `order`, and collects one reference per saved file.
        It stops at the first file that cannot be opened or saved, leaving
        the files already saved on disk. */
    method SaveFirstFiles(form: Form, basePath: string) returns (r: Result<map<string, FileRef>, ApiError>, ghost order: seq<string>)
      modifies storage
      ensures r.Failure? ==> r.error.code == StatusInternalServerError && r.error.message == "Failed to create upload"
      ensures r.Success? ==> (Distinct(order) && (forall i :: 0 <= i < |order| ==> order[i] in form)
        && (forall name :: name in form ==> name in order))
      ensures Refs(form, basePath) == map[] ==> r.Success?
      ensures r.Success? ==> r.value == Refs(form, basePath)
      ensures r.Success? ==> storage.disk == Saved(old(storage.disk), storage.baseDir, basePath, form, order)
      ensures Distinct(order) && forall i :: 0 <= i < |order| ==> order[i] in form
      ensures r.Failure? ==> order != [] && FailedSave(old(storage.disk), storage.baseDir, basePath, form, order, storage.disk)
    {
      order := [];
      var fileRefs: map<string, FileRef> := map[];
      var pending := form.Keys;
      while pending != {}
        invariant pending <= form.Keys
        invariant Distinct(order) && forall i :: 0 <= i < |order| ==> order[i] in form && order[i] !in pending
        invariant forall name :: name in form ==> name in pending || name in order
        invariant fileRefs == RefsAmong(form, form.Keys - pending, basePath)
        invariant storage.disk == Saved(old(storage.disk), storage.baseDir, basePath, form, order)
        decreases |pending|
      {
        var artefactName :| artefactName in pending;
        ghost var done, prev := form.Keys - pending, order;
        OrderNext(form, pending, order, artefactName);
        RefsAmongAdd(form, done, artefactName, basePath);
        SavedSnoc(old(storage.disk), storage.baseDir, basePath, form, prev, artefactName);
        pending := pending - {artefactName};
        order := order + [artefactName];
        var fileHeaders := form[artefactName];
        if |fileHeaders| == 0 {
          continue;
        }
        var fileHeader := fileHeaders[0];
        assert artefactName in Refs(form, basePath);
        assert order[..|order| - 1] == prev;
        var fileOpened: bool := *;
        if !fileOpened {
          var message: string := *;
          return Failure(ApiError(StatusInternalServerError, "Failed to create upload", message)), order;
        }
        var dst := basePath + fileHeader.fileName;
        var saved := storage.SaveFile(dst, fileHeader.content);
        if saved.Fail? {
          return Failure(ApiError(StatusInternalServerError, "Failed to create upload", saved.error.Message())), order;
        }
        fileRefs := fileRefs[artefactName := FileRef(ProviderFileSystem, fileHeader.fileName, basePath)];
      }
      assert form.Keys - pending == form.Keys;
      r := Success(fileRefs);
    }

    /** `Get`: reads artefact `filename` of upload `uploadId`. `loaded` is
        the upload the ledger returned, if it returned one. */
    method Get(uploadId: string, filename: string) returns (r: Result<Download, ApiError>, ghost loaded: Option<Upload>)
      ensures uploadId !in store.q.tables.uploads ==> r == Failure(ApiError(StatusNotFound, "Upload not found", NoRows.Message()))
      ensures loaded.None? ==> r.Failure? && r.error.code == StatusNotFound && r.error.message == "Upload not found"
      ensures loaded.Some? ==> UploadStore.Loaded(store.q.tables, uploadId) == loaded
      ensures loaded.Some? && Located(loaded.value, filename) == "" ==>
        r == Failure(ApiError(StatusNotFound, "File not found", "unknown file"))
      ensures loaded.Some? && Located(loaded.value, filename) != "" && storage.FullPath(Located(loaded.value, filename)) !in storage.disk ==>
        r.Failure? && r.error.code == StatusInternalServerError && r.error.message == "Could not read file"
      ensures r.Success? ==> (loaded.Some? && filename in loaded.value.files
        && storage.FullPath(Located(loaded.value, filename)) in storage.disk
        && r.value == Download(loaded.value.files[filename].fileName, storage.disk[storage.FullPath(Located(loaded.value, filename))]))
    {
      var upload := store.Get(uploadId);
      if upload.Failure? {
        return Failure(ApiError(StatusNotFound, "Upload not found", upload.error.Message())), None;
      }
      loaded := Some(upload.value);
      var files := upload.value.files;
      var filePath := "";
      var fileName := "";
      var unseen := files.Keys;
      while unseen != {}
        invariant unseen <= files.Keys
        invariant filename in files && filename !in unseen ==> filePath == Located(upload.value, filename) && fileName == files[filename].fileName
        invariant filename !in files || filename in unseen ==> filePath == ""
        decreases |unseen|
      {
        var name :| name in unseen;
        unseen := unseen - {name};
        if name == filename {
          filePath := Join([files[name].path, files[name].fileName]);
          fileName := files[name].fileName;
          break;
        }
      }
      if filePath == "" {
        return Failure(ApiError(StatusNotFound, "File not found", "unknown file")), loaded;
      }
      var content := storage.ReadFile(filePath);
      if content.Failure? {
        return Failure(ApiError(StatusInternalServerError, "Could not read file", content.error.Message())), loaded;
      }
      r := Success(Download(fileName, content.value));
    }
  }

  /** One more field visited: its first file, if any, adds one reference. */
  lemma RefsAmongAdd(form: Form, names: set<string>, name: string, base: string)
    requires name in form
    ensures RefsAmong(form, names + {name}, base)
      == if |form[name]| > 0 then RefsAmong(form, names, base)[name := FileRef(ProviderFileSystem, form[name][0].fileName, base)]
         else RefsAmong(form, names, base)
  {
  }

  /** One more field saved: its first file, if any, is written last. */
  lemma SavedSnoc(disk: map<string, Bytes>, baseDir: string, base: string, form: Form, order: seq<string>, name: string)
    requires forall i :: 0 <= i < |order| ==> order[i] in form
    requires name in form
    ensures forall i :: 0 <= i < |order + [name]| ==> (order + [name])[i] in form
    ensures Saved(disk, baseDir, base, form, order + [name])
      == if |form[name]| == 0 then Saved(disk, baseDir, base, form, order)
         else Saved(disk, baseDir, base, form, order)[Join([baseDir, base + form[name][0].fileName]) := form[name][0].content]
  {
    assert (order + [name])[..|order|] == order;
  }

  /** Intake keeps every field that carried a file and only those, each
      pointing at its first file inside the upload's temporary directory. */
  lemma RefsKeepFirstFiles(form: Form, uploadId: string)
    ensures forall name :: name in Refs(form, BasePath(uploadId)) <==> name in form && |form[name]| > 0
    ensures forall name :: name in Refs(form, BasePath(uploadId)) ==>
      Refs(form, BasePath(uploadId))[name] == FileRef(ProviderFileSystem, form[name][0].fileName, "tmp/uploads/" + uploadId + "/")
    ensures Refs(form, BasePath(uploadId)) == map[] <==> forall name :: name in form ==> form[name] == []
  {
  }

  /** The last save of a path wins: a field whose saved path no later field
      writes again keeps its first file's bytes on disk. */
  lemma {:induction false} SavedKeeps(disk: map<string, Bytes>, baseDir: string, base: string, form: Form, order: seq<string>, i: nat)
    requires forall j :: 0 <= j < |order| ==> order[j] in form
    requires i < |order| && |form[order[i]]| > 0
    requires forall j :: i < j < |order| && |form[order[j]]| > 0 ==>
      Join([baseDir, base + form[order[j]][0].fileName]) != Join([baseDir, base + form[order[i]][0].fileName])
    ensures Join([baseDir, base + form[order[i]][0].fileName]) in Saved(disk, baseDir, base, form, order)
    ensures Saved(disk, baseDir, base, form, order)[Join([baseDir, base + form[order[i]][0].fileName])] == form[order[i]][0].content
    decreases |order|
  {
    if i < |order| - 1 {
      var init := order[..|order| - 1];
      assert init[i] == order[i];
      SavedKeeps(disk, baseDir, base, form, init, i);
    }
  }

  /** A failed request removes nothing: the first file of every field saved
      before the failing one keeps its bytes on disk, unless a later field's
      file was written to the same path. */
  lemma FailedSaveKeepsEarlier(disk0: map<string, Bytes>, baseDir: string, base: string, form: Form, order: seq<string>,
                               disk: map<string, Bytes>, i: nat)
    requires order != [] && forall j :: 0 <= j < |order| ==> order[j] in form
    requires FailedSave(disk0, baseDir, base, form, order, disk)
    requires i < |order| - 1 && |form[order[i]]| > 0
    requires forall j :: i < j < |order| && |form[order[j]]| > 0 ==>
      Join([baseDir, base + form[order[j]][0].fileName]) != Join([baseDir, base + form[order[i]][0].fileName])
    ensures Join([baseDir, base + form[order[i]][0].fileName]) in disk
    ensures disk[Join([baseDir, base + form[order[i]][0].fileName])] == form[order[i]][0].content
  {
    var init := order[..|order| - 1];
    assert forall j :: 0 <= j < |init| ==> init[j] == order[j];
    SavedKeeps(disk0, baseDir, base, form, init, i);
  }

  /** The path `Get` reads for a file saved by `Create` is the path the file
      was written to: `Join(basePath, fileName)` and `basePath + fileName`
      name the same file, and neither is empty. */
  lemma ReadPathIsSavePath(baseDir: string, uploadId: string, fileName: string)
    ensures Join([BasePath(uploadId), fileName]) != ""
    ensures Join([baseDir, Join([BasePath(uploadId), fileName])]) == Join([baseDir, BasePath(uploadId) + fileName])
  {
    var base := BasePath(uploadId);
    var dir := "tmp/uploads/" + uploadId;
    assert base == dir + "/";
    JoinAfterSlash(dir, fileName);
    FileSystem.SameSegmentsSameFile(baseDir, Join([base, fileName]), base + fileName);
    assert base == "tmp" + "/" + ("uploads/" + uploadId + "/");
    SegmentsAfterHead("tmp", "uploads/" + uploadId + "/");
    SegmentsOfPair(base, fileName);
  }

  /** Create then Get: an artefact whose file no other field overwrote reads
      back as exactly the bytes that were sent, through the reference the
      ledger recorded for it. */
  lemma CreatedThenRead(disk: map<string, Bytes>, baseDir: string, form: Form, order: seq<string>, uploadId: string, id: string, name: string)
    requires forall j :: 0 <= j < |order| ==> order[j] in form
    requires name in order && |form[name]| > 0
    requires forall other :: other in order && other != name && |form[other]| > 0 ==>
      Join([baseDir, BasePath(uploadId) + form[other][0].fileName]) != Join([baseDir, BasePath(uploadId) + form[name][0].fileName])
    requires Distinct(order)
    ensures var u := Upload(id, Refs(form, BasePath(uploadId)), None, None);
      && Located(u, name) != ""
      && Join([baseDir, Located(u, name)]) in Saved(disk, baseDir, BasePath(uploadId), form, order)
      && Saved(disk, baseDir, BasePath(uploadId), form, order)[Join([baseDir, Located(u, name)])] == form[name][0].content
  {
    var base := BasePath(uploadId);
    var i :| 0 <= i < |order| && order[i] == name;
    SavedKeeps(disk, baseDir, base, form, order, i);
    var u := Upload(id, Refs(form, base), None, None);
    assert name in u.files;
    assert Located(u, name) == Join([base, form[name][0].fileName]);
    ReadPathIsSavePath(baseDir, uploadId, form[name][0].fileName);
  }
}
