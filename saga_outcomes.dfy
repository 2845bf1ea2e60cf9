/** What a run of `Creator.Create` leaves behind, from its postconditions:
    the uploads it claims and spares, and the exact traces of the
    one-upload scenario the saga's tests replay. */
module SagaOutcomes {
  import opened Common
  import opened Paths
  import opened UploadTypes
  import opened Database
  import UploadStore
  import FS = FileSystem
  import opened Saga
  import opened Creator
  import SagaLaws

  /** A saga that reached its commit claimed every upload the draft names for
      the new entity, and left every other upload as it was. */
  lemma FinishedClaimsNamedUploads(log: seq<Step>, ids: map<string, string>, t: Tables, kind: Kind, id: string)
    requires Followed(log, ids, t, kind, id) && Finished(log, ids)
    ensures forall a :: a in ids ==>
      ids[a] in TablesAfter(t, log, kind, id).uploads && Owned(TablesAfter(t, log, kind, id).uploads[ids[a]], kind, id)
    ensures forall uid :: uid in t.uploads && uid !in ids.Values ==>
      uid in TablesAfter(t, log, kind, id).uploads && TablesAfter(t, log, kind, id).uploads[uid] == t.uploads[uid]
  {
    SagaLaws.DoneUploadsOwned(t, log, kind, id);
    forall a | a in ids
      ensures ids[a] in TablesAfter(t, log, kind, id).uploads && Owned(TablesAfter(t, log, kind, id).uploads[ids[a]], kind, id)
    {
      var i :| 0 <= i < |log| && Artefacts(log)[i] == a;
      assert log[i].uploadId == ids[a];
    }
    forall uid | uid in t.uploads && uid !in ids.Values
      ensures uid in TablesAfter(t, log, kind, id).uploads && TablesAfter(t, log, kind, id).uploads[uid] == t.uploads[uid]
    {
      forall i | 0 <= i < |log| ensures log[i].uploadId != uid {
        assert ids[log[i].artefact] in ids.Values;
      }
      SagaLaws.UnnamedUploadUntouched(t, log, kind, id, uid);
    }
  }

  // ---------------------------------------------------------------------
  // The tests' scenario: a draft naming one upload that holds one file.

  /** The upload a one-file scenario reads back: its id and its one file. */
  function OneFile(uid: string, key: string, f: FileRef): Upload {
    Upload(uid, map[key := f], None, None)
  }

  /** With one artefact naming one upload of one file, the saga takes exactly
      one step; a step that read the upload read that file. */
  lemma OneStep(t: Tables, kind: Kind, id: string, log: seq<Step>, a: string, uid: string, key: string, f: FileRef)
    requires UploadStore.Loaded(t, uid) == Some(OneFile(uid, key, f))
    requires Followed(log, map[a := uid], t, kind, id) && log != []
    ensures |log| == 1 && log[0].artefact == a && log[0].uploadId == uid
    ensures log[0].end != FetchFailed ==> log[0].fetched == OneFile(uid, key, f) && log[0].order == [key]
    ensures Blocks(log, kind, id) == StepCalls(log[0], kind, id)
    ensures Finished(log, map[a := uid]) <==> log[0].end == Done
  {
    assert (set x | x in Artefacts(log)) == {a};
    SagaLaws.DistinctSize(Artefacts(log));
    assert log[..0] == [];
    var s := log[0];
    assert Artefacts(log)[0] == a;
    if s.end != FetchFailed {
      assert s.fetched == OneFile(uid, key, f);
      var order := s.order;
      assert s.fetched.files.Keys == {key};
      assert order != [] by {
        if s.end != MoveFailed {
          assert key in s.fetched.files;
        }
      }
      assert order[0] in s.fetched.files;
      assert forall k :: k in order ==> k in s.fetched.files;
      assert (set k | k in order) == {key};
      SagaLaws.DistinctSize(order);
      assert order == [key];
    }
  }

  /** The calls for the one upload: the fetch, then the move unless the fetch
      failed, then the update once the move went through. */
  lemma OneStepCalls(s: Step, kind: Kind, id: string, uid: string, key: string, f: FileRef)
    requires StepOk(s) && s.uploadId == uid
    requires s.end != FetchFailed ==> s.fetched == OneFile(uid, key, f) && s.order == [key]
    ensures s.end == FetchFailed ==> StepCalls(s, kind, id) == [GetUpload(uid)]
    ensures s.end == MoveFailed ==> StepCalls(s, kind, id) == [GetUpload(uid), MoveFile(Source(f), Destination(kind, id, f))]
    ensures s.end == UpdateFailed || s.end == Done ==>
      StepCalls(s, kind, id) == [GetUpload(uid), MoveFile(Source(f), Destination(kind, id, f)), MoveUpload(uid)]
  {
    var get := GetUpload(uid);
    if s.end == FetchFailed {
      assert Moves(s.fetched.files, s.order, kind, id) == [];
      assert StepCalls(s, kind, id) == [get] + [] + [];
    } else {
      var move := MoveFile(Source(f), Destination(kind, id, f));
      OneFileMoves(key, f, kind, id);
      assert MoveCalls(Moves(s.fetched.files, s.order, kind, id)) == [move];
      if s.end == MoveFailed {
        assert StepCalls(s, kind, id) == [get] + [move] + [];
      } else {
        assert StepCalls(s, kind, id) == [get] + [move] + [MoveUpload(uid)];
      }
    }
  }

  /** The one move of a one-file upload. */
  lemma OneFileMoves(key: string, f: FileRef, kind: Kind, id: string)
    ensures KeysOf([key], map[key := f])
    ensures MoveCalls(Moves(map[key := f], [key], kind, id)) == [MoveFile(Source(f), Destination(kind, id, f))]
  {
    assert [key][..0] == [];
    var ms := Moves(map[key := f], [key], kind, id);
    assert ms == [Move(Source(f), Destination(kind, id, f))];
    assert ms[..0] == [];
  }

  function CreateLabel(kind: Kind): string {
    if kind == Datasets then "create-dataset" else "create-model"
  }

  /* Framed1-3, Framed3Twice and Labels3-6 state sequence-display equalities
     once, with no other facts in scope. Asserted inside the trace lemmas
     below, where the recursive saga functions are unfolded, the same
     equalities cost the solver many times more. */

  /** A step's calls between the insert and the closing calls. */
  lemma Framed1(a: Call, x: Call, b: Call)
    ensures [a] + [x] + [b] == [a, x, b]
  {
  }

  lemma Framed2(a: Call, x: Call, y: Call, b: Call)
    ensures [a] + [x, y] + [b] == [a, x, y, b]
  {
  }

  lemma Framed3(a: Call, x: Call, y: Call, z: Call, b: Call)
    ensures [a] + [x, y, z] + [b] == [a, x, y, z, b]
  {
  }

  lemma Framed3Twice(a: Call, x: Call, y: Call, z: Call, b: Call, c: Call)
    ensures [a] + [x, y, z] + [b] + [c] == [a, x, y, z, b, c]
  {
  }

  lemma Labels3(a: Call, b: Call, c: Call)
    ensures Labels([a, b, c]) == [a.Label(), b.Label(), c.Label()]
  {
  }

  lemma Labels4(a: Call, b: Call, c: Call, d: Call)
    ensures Labels([a, b, c, d]) == [a.Label(), b.Label(), c.Label(), d.Label()]
  {
  }

  lemma Labels5(a: Call, b: Call, c: Call, d: Call, e: Call)
    ensures Labels([a, b, c, d, e]) == [a.Label(), b.Label(), c.Label(), d.Label(), e.Label()]
  {
  }

  lemma Labels6(a: Call, b: Call, c: Call, d: Call, e: Call, g: Call)
    ensures Labels([a, b, c, d, e, g]) == [a.Label(), b.Label(), c.Label(), d.Label(), e.Label(), g.Label()]
  {
  }

  /** The labels of a run whose one step finished and whose commit went
      through. */
  lemma CommittedTrace(s: Step, kind: Kind, id: string, uid: string, key: string, f: FileRef)
    requires StepOk(s) && s.uploadId == uid && s.end == Done
    requires s.fetched == OneFile(uid, key, f) && s.order == [key]
    ensures Labels([CreateEntity(kind)] + StepCalls(s, kind, id) + [Commit])
         == [CreateLabel(kind), "get-upload", "move-file " + Source(f) + " -> " + Destination(kind, id, f), "move-upload", "commit"]
  {
    OneStepCalls(s, kind, id, uid, key, f);
    var create, get, move, update := CreateEntity(kind), GetUpload(uid), MoveFile(Source(f), Destination(kind, id, f)), MoveUpload(uid);
    assert create.Label() == CreateLabel(kind);
    Framed3(create, get, move, update, Commit);
    Labels5(create, get, move, update, Commit);
  }

  /** The labels of a run whose one step finished but whose commit failed. */
  lemma CommitFailedTrace(s: Step, kind: Kind, id: string, uid: string, key: string, f: FileRef)
    requires StepOk(s) && s.uploadId == uid && s.end == Done
    requires s.fetched == OneFile(uid, key, f) && s.order == [key]
    ensures Labels([CreateEntity(kind)] + StepCalls(s, kind, id) + [Commit] + [Rollback])
         == [CreateLabel(kind), "get-upload", "move-file " + Source(f) + " -> " + Destination(kind, id, f), "move-upload", "commit", "rollback"]
  {
    OneStepCalls(s, kind, id, uid, key, f);
    var create, get, move, update := CreateEntity(kind), GetUpload(uid), MoveFile(Source(f), Destination(kind, id, f)), MoveUpload(uid);
    assert create.Label() == CreateLabel(kind);
    Framed3Twice(create, get, move, update, Commit, Rollback);
    Labels6(create, get, move, update, Commit, Rollback);
  }

  /** The labels of a run whose one step finished: the commit, then the
      rollback if the commit failed. */
  lemma FinishedTraces(s: Step, kind: Kind, id: string, uid: string, key: string, f: FileRef, failed: bool)
    requires StepOk(s) && s.uploadId == uid && s.end == Done
    requires s.fetched == OneFile(uid, key, f) && s.order == [key]
    ensures var calls := [CreateEntity(kind)] + StepCalls(s, kind, id) + [Commit] + (if failed then [Rollback] else []);
      var move := "move-file " + Source(f) + " -> " + Destination(kind, id, f);
      && (!failed ==> Labels(calls) == [CreateLabel(kind), "get-upload", move, "move-upload", "commit"])
      && (failed ==> Labels(calls) == [CreateLabel(kind), "get-upload", move, "move-upload", "commit", "rollback"])
  {
    if failed {
      CommitFailedTrace(s, kind, id, uid, key, f);
    } else {
      var calls := [CreateEntity(kind)] + StepCalls(s, kind, id) + [Commit];
      assert calls + [] == calls;
      CommittedTrace(s, kind, id, uid, key, f);
    }
  }

  /** The labels of a run whose fetch failed. */
  lemma FetchFailedTrace(s: Step, kind: Kind, id: string, uid: string)
    requires StepOk(s) && s.uploadId == uid && s.end == FetchFailed
    ensures Labels([CreateEntity(kind)] + StepCalls(s, kind, id) + [Rollback]) == [CreateLabel(kind), "get-upload", "rollback"]
  {
    var create, get := CreateEntity(kind), GetUpload(uid);
    assert Moves(s.fetched.files, s.order, kind, id) == [];
    assert create.Label() == CreateLabel(kind);
    Framed1(create, get, Rollback);
    Labels3(create, get, Rollback);
  }

  /** The labels of a run whose one move failed. */
  lemma MoveFailedTrace(s: Step, kind: Kind, id: string, uid: string, key: string, f: FileRef)
    requires StepOk(s) && s.uploadId == uid && s.end == MoveFailed
    requires s.fetched == OneFile(uid, key, f) && s.order == [key]
    ensures Labels([CreateEntity(kind)] + StepCalls(s, kind, id) + [Rollback])
         == [CreateLabel(kind), "get-upload", "move-file " + Source(f) + " -> " + Destination(kind, id, f), "rollback"]
  {
    OneStepCalls(s, kind, id, uid, key, f);
    var create, get, move := CreateEntity(kind), GetUpload(uid), MoveFile(Source(f), Destination(kind, id, f));
    assert create.Label() == CreateLabel(kind);
    Framed2(create, get, move, Rollback);
    Labels4(create, get, move, Rollback);
  }

  /** The labels of a run whose update failed. */
  lemma UpdateFailedTrace(s: Step, kind: Kind, id: string, uid: string, key: string, f: FileRef)
    requires StepOk(s) && s.uploadId == uid && s.end == UpdateFailed
    requires s.fetched == OneFile(uid, key, f) && s.order == [key]
    ensures Labels([CreateEntity(kind)] + StepCalls(s, kind, id) + [Rollback])
         == [CreateLabel(kind), "get-upload", "move-file " + Source(f) + " -> " + Destination(kind, id, f), "move-upload", "rollback"]
  {
    OneStepCalls(s, kind, id, uid, key, f);
    var create, get, move, update := CreateEntity(kind), GetUpload(uid), MoveFile(Source(f), Destination(kind, id, f)), MoveUpload(uid);
    assert create.Label() == CreateLabel(kind);
    Framed3(create, get, move, update, Rollback);
    Labels5(create, get, move, update, Rollback);
  }

  /** The labels of a run whose one step failed: the calls up to the failing
      one, then the rollback. */
  lemma FailedTraces(s: Step, kind: Kind, id: string, uid: string, key: string, f: FileRef)
    requires StepOk(s) && s.uploadId == uid && s.end != Done
    requires s.end != FetchFailed ==> s.fetched == OneFile(uid, key, f) && s.order == [key]
    ensures var calls := [CreateEntity(kind)] + StepCalls(s, kind, id) + [Rollback];
      var move := "move-file " + Source(f) + " -> " + Destination(kind, id, f);
      && (s.end == FetchFailed ==> Labels(calls) == [CreateLabel(kind), "get-upload", "rollback"])
      && (s.end == MoveFailed ==> Labels(calls) == [CreateLabel(kind), "get-upload", move, "rollback"])
      && (s.end == UpdateFailed ==> Labels(calls) == [CreateLabel(kind), "get-upload", move, "move-upload", "rollback"])
  {
    if s.end == FetchFailed {
      FetchFailedTrace(s, kind, id, uid);
    } else if s.end == MoveFailed {
      MoveFailedTrace(s, kind, id, uid, key, f);
    } else {
      UpdateFailedTrace(s, kind, id, uid, key, f);
    }
  }

  /** The calls a run of the saga makes for a draft naming one upload of one
      file, as the test doubles log them: insert, fetch, move, update and
      commit on success; after a failure the calls up to the failing one,
      then the rollback. */
  lemma OneFileTraces(t: Tables, kind: Kind, id: string, log: seq<Step>, a: string, uid: string, key: string, f: FileRef,
                      finished: bool, failed: bool)
    requires UploadStore.Loaded(t, uid) == Some(OneFile(uid, key, f))
    requires Followed(log, map[a := uid], t, kind, id) && log != []
    requires finished <==> Finished(log, map[a := uid])
    ensures var calls := [CreateEntity(kind)] + Blocks(log, kind, id)
                         + (if finished then [Commit] else []) + (if failed then [Rollback] else []);
      var move := "move-file " + Source(f) + " -> " + Destination(kind, id, f);
      && (finished <==> log[0].end == Done)
      && (log[0].end == Done && !failed ==>
            Labels(calls) == [CreateLabel(kind), "get-upload", move, "move-upload", "commit"])
      && (log[0].end == Done && failed ==>
            Labels(calls) == [CreateLabel(kind), "get-upload", move, "move-upload", "commit", "rollback"])
      && (log[0].end == FetchFailed && failed ==>
            Labels(calls) == [CreateLabel(kind), "get-upload", "rollback"])
      && (log[0].end == MoveFailed && failed ==>
            Labels(calls) == [CreateLabel(kind), "get-upload", move, "rollback"])
      && (log[0].end == UpdateFailed && failed ==>
            Labels(calls) == [CreateLabel(kind), "get-upload", move, "move-upload", "rollback"])
  {
    OneStep(t, kind, id, log, a, uid, key, f);
    var head := [CreateEntity(kind)] + Blocks(log, kind, id);
    assert head == [CreateEntity(kind)] + StepCalls(log[0], kind, id);
    if finished {
      FinishedTraces(log[0], kind, id, uid, key, f, failed);
    } else if failed {
      assert head + [] + [Rollback] == [CreateEntity(kind)] + StepCalls(log[0], kind, id) + [Rollback];
      FailedTraces(log[0], kind, id, uid, key, f);
    }
  }

  /** No compensating move: once the one file was moved, it stays at its new
      path and is gone from its old one, whether the update or the commit
      that follows fails (and the ledger is rolled back) or not. */
  lemma OneFileStaysMoved(t: Tables, kind: Kind, id: string, log: seq<Step>, a: string, uid: string, key: string, f: FileRef,
                          disk0: map<string, Bytes>, base: string, disk: map<string, Bytes>)
    requires UploadStore.Loaded(t, uid) == Some(OneFile(uid, key, f))
    requires Tracked(log, map[a := uid], t, kind, id, disk0, base, disk) && log != []
    requires log[0].end == UpdateFailed || log[0].end == Done
    requires Join([base, Source(f)]) != Join([base, Destination(kind, id, f)])
    ensures Join([base, Source(f)]) in disk0
    ensures Join([base, Destination(kind, id, f)]) in disk
    ensures disk[Join([base, Destination(kind, id, f)])] == disk0[Join([base, Source(f)])]
    ensures Join([base, Source(f)]) !in disk
  {
    OneStep(t, kind, id, log, a, uid, key, f);
    var s := log[0];
    var m := Move(Source(f), Destination(kind, id, f));
    assert s.order[..0] == [];
    assert Moves(s.fetched.files, s.order, kind, id) == [m];
    assert log[..0] == [];
    assert LogMoves(log, kind, id) == [m];
    assert [m][..0] == [];
    SagaLaws.StaysMoved(disk0, base, [m], 0);
    SagaLaws.SourceGone(disk0, base, [m], 0);
  }

  // ---------------------------------------------------------------------
  // The tests' data: artefact "file1" names upload "upload123", whose one
  // file is `artifact.txt` under `temp/path/`.

  const TestFile := FileRef(ProviderFileSystem, "artifact.txt", "temp/path/")

  /** The test file lives at `temp/path/artifact.txt`. */
  lemma TestSource()
    ensures Source(TestFile) == "temp/path/artifact.txt"
  {
    assert IsSegment("temp") && IsSegment("path") && IsSegment("artifact.txt");
    assert "temp" + "/" + "path" + "/" == "temp/path/";
    assert "temp" + "/" + "path" + "/" + "artifact.txt" == "temp/path/artifact.txt";
    JoinUnderDirectory("temp", "path", "artifact.txt");
  }

  /** The saga moves it to `<kind>/<id>/artifact.txt`. */
  lemma TestDestination(kind: Kind, id: string)
    requires IsSegment(id)
    ensures Destination(kind, id, TestFile) == kind.Prefix() + "/" + id + "/artifact.txt"
  {
    assert IsSegment(kind.Prefix()) && IsSegment("artifact.txt");
    JoinUnderJoin(kind.Prefix(), id, "artifact.txt");
    AppendAssoc(kind.Prefix() + "/" + id, "/", "artifact.txt");
    assert "/" + "artifact.txt" == "/artifact.txt";
  }

  /** Under any base directory the old and the new path of the test file
      are different files. */
  lemma TestPathsDiffer(kind: Kind, id: string, base: string)
    requires IsSegment(id)
    ensures Join([base, Source(TestFile)]) != Join([base, Destination(kind, id, TestFile)])
  {
    assert IsSegment("temp") && IsSegment("path") && IsSegment("artifact.txt");
    assert IsSegment(kind.Prefix()) && "temp" != kind.Prefix();
    assert "temp" + "/" + "path" + "/" == "temp/path/";
    DifferentRoots(base, "temp", "path", "artifact.txt", kind.Prefix(), id);
  }

  /** A file under `a/b/` and a file under `Join(p, id)` with `a != p` are
      different files under any base directory. */
  lemma DifferentRoots(base: string, a: string, b: string, name: string, p: string, id: string)
    requires IsSegment(a) && IsSegment(b) && IsSegment(name) && IsSegment(p) && IsSegment(id) && a != p
    ensures Join([base, Join([a + "/" + b + "/", name])]) != Join([base, Join([Join([p, id]), name])])
  {
    JoinUnderDirectory(a, b, name);
    JoinUnderJoin(p, id, name);
    var src, dst := Join([a + "/" + b + "/", name]), Join([Join([p, id]), name]);
    SegmentsOfPair(base, src);
    SegmentsOfPair(base, dst);
    assert (Segments(base) + Segments(src))[|Segments(base)|] != (Segments(base) + Segments(dst))[|Segments(base)|];
  }
}
