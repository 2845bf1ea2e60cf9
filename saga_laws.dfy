/** What the saga's functions imply once a run is over: the shape of the call
    trace, the rows it claims, the rows it leaves alone, and the files that
    stay moved when a later step fails. */
module SagaLaws {
  import opened Common
  import opened Paths
  import opened UploadTypes
  import opened Database
  import UploadStore
  import FileSystem
  import opened Saga

  /** A moved file keeps every original key, provider and file name, and
      points into the entity's directory; the upload's id is kept and the
      new entity becomes its only owner. */
  lemma ClaimedRehomesEveryFile(u: Upload, kind: Kind, id: string)
    ensures Claimed(u, kind, id).id == u.id
    ensures Claimed(u, kind, id).files.Keys == u.files.Keys
    ensures forall k :: k in u.files ==>
      && Claimed(u, kind, id).files[k].provider == u.files[k].provider
      && Claimed(u, kind, id).files[k].fileName == u.files[k].fileName
      && Claimed(u, kind, id).files[k].path == Home(kind, id)
    ensures kind == Datasets ==> Claimed(u, kind, id).datasetId == Some(id) && Claimed(u, kind, id).modelId == u.modelId
    ensures kind == Models ==> Claimed(u, kind, id).modelId == Some(id) && Claimed(u, kind, id).datasetId == u.datasetId
  {
  }

  // ---------------------------------------------------------------------
  // The call trace

  lemma {:induction false} MoveCallsAreMoves(moves: seq<Move>)
    ensures forall i :: 0 <= i < |moves| ==> MoveCalls(moves)[i] == MoveFile(moves[i].src, moves[i].dst)
    decreases |moves|
  {
    if moves != [] {
      MoveCallsAreMoves(moves[..|moves| - 1]);
    }
  }

  lemma {:induction false} MovesAt(files: map<string, FileRef>, order: seq<string>, kind: Kind, id: string)
    requires KeysOf(order, files)
    ensures forall i :: 0 <= i < |order| ==>
      Moves(files, order, kind, id)[i] == Move(Source(files[order[i]]), Destination(kind, id, files[order[i]]))
    decreases |order|
  {
    if order != [] {
      MovesAt(files, order[..|order| - 1], kind, id);
    }
  }

  /** A step's calls hold no `Commit` and no `Rollback`. */
  lemma StepCallsNoControl(s: Step, kind: Kind, id: string)
    requires StepOk(s)
    ensures Commit !in StepCalls(s, kind, id) && Rollback !in StepCalls(s, kind, id)
  {
    var moves := Moves(s.fetched.files, s.order, kind, id);
    MoveCallsAreMoves(moves);
    assert forall i :: 0 <= i < |MoveCalls(moves)| ==> MoveCalls(moves)[i].MoveFile?;
  }

  /** Only the saga itself commits or rolls back: the upload steps never do. */
  lemma {:induction false} BlocksNoControl(log: seq<Step>, kind: Kind, id: string)
    requires LogOk(log)
    ensures Commit !in Blocks(log, kind, id) && Rollback !in Blocks(log, kind, id)
    decreases |log|
  {
    if log != [] {
      BlocksNoControl(log[..|log| - 1], kind, id);
      StepCallsNoControl(log[|log| - 1], kind, id);
    }
  }

  /** Once `Begin` succeeded the trace is the insert, the upload steps, a
      commit when every upload finished and a rollback on failure: so
      `Rollback` appears exactly once, and last, when the saga fails, and
      never when it succeeds; `Commit` appears once exactly when every
      upload finished. */
  lemma ControlCalls(log: seq<Step>, kind: Kind, id: string, finished: bool, failed: bool)
    requires LogOk(log)
    ensures var calls := [CreateEntity(kind)] + Blocks(log, kind, id)
                         + (if finished then [Commit] else []) + (if failed then [Rollback] else []);
      && Count(calls, Rollback) == (if failed then 1 else 0)
      && Count(calls, Commit) == (if finished then 1 else 0)
      && (failed ==> calls[|calls| - 1] == Rollback)
  {
    var head := [CreateEntity(kind)] + Blocks(log, kind, id);
    BlocksNoControl(log, kind, id);
    assert Rollback !in head && Commit !in head;
    var mid := head + (if finished then [Commit] else []);
    AppendIf(head, finished, Commit, Rollback);
    AppendIf(head, finished, Commit, Commit);
    AppendIf(mid, failed, Rollback, Rollback);
    AppendIf(mid, failed, Rollback, Commit);
  }

  /** Appending `c` when `flag` holds adds one `x` exactly when `c` is `x`. */
  lemma AppendIf(s: seq<Call>, flag: bool, c: Call, x: Call)
    ensures Count(s + (if flag then [c] else []), x) == Count(s, x) + (if flag && c == x then 1 else 0)
  {
    if flag {
      CountAppend(s, [c], x);
    } else {
      assert s + [] == s;
    }
  }

  // ---------------------------------------------------------------------
  // One move per file

  lemma {:induction false} DistinctSize<T>(s: seq<T>)
    requires Distinct(s)
    ensures |set x | x in s| == |s|
    decreases |s|
  {
    if s != [] {
      var init := s[..|s| - 1];
      DistinctSize(init);
      assert (set x | x in s) == (set x | x in init) + {s[|s| - 1]};
    }
  }

  /** An upload whose moves all went through was moved file by file: one
      `MoveFile` call per file of the upload, each from where the file was to
      the entity's directory. */
  lemma OneMovePerFile(s: Step, kind: Kind, id: string)
    requires StepOk(s) && (s.end == UpdateFailed || s.end == Done)
    ensures |MoveCalls(Moves(s.fetched.files, s.order, kind, id))| == |s.fetched.files|
    ensures forall i :: 0 <= i < |s.order| ==>
      MoveCalls(Moves(s.fetched.files, s.order, kind, id))[i]
        == MoveFile(Source(s.fetched.files[s.order[i]]), Destination(kind, id, s.fetched.files[s.order[i]]))
  {
    DistinctSize(s.order);
    assert (set x | x in s.order) == s.fetched.files.Keys;
    MovesAt(s.fetched.files, s.order, kind, id);
    MoveCallsAreMoves(Moves(s.fetched.files, s.order, kind, id));
  }

  // ---------------------------------------------------------------------
  // The ledger after the saga

  /** The upload steps rewrite upload rows only, and never add or remove one. */
  lemma {:induction false} TablesAfterKeepsOthers(t: Tables, log: seq<Step>, kind: Kind, id: string)
    ensures TablesAfter(t, log, kind, id).uploads.Keys == t.uploads.Keys
    ensures TablesAfter(t, log, kind, id).datasets == t.datasets
    ensures TablesAfter(t, log, kind, id).models == t.models
    ensures TablesAfter(t, log, kind, id).serial == t.serial
    decreases |log|
  {
    if log != [] {
      TablesAfterKeepsOthers(t, log[..|log| - 1], kind, id);
    }
  }

  /** An upload no step named is left exactly as it was. */
  lemma {:induction false} UnnamedUploadUntouched(t: Tables, log: seq<Step>, kind: Kind, id: string, uid: string)
    requires ReadInTurn(log, t, kind, id)
    requires forall i :: 0 <= i < |log| ==> log[i].uploadId != uid
    requires uid in t.uploads
    ensures uid in TablesAfter(t, log, kind, id).uploads
    ensures TablesAfter(t, log, kind, id).uploads[uid] == t.uploads[uid]
    decreases |log|
  {
    if log != [] {
      UnnamedUploadUntouched(t, log[..|log| - 1], kind, id, uid);
    }
  }

  /** After a run whose every step finished, each upload it named is owned by
      the new entity alone, with all its files under the entity's directory. */
  lemma {:induction false} DoneUploadsOwned(t: Tables, log: seq<Step>, kind: Kind, id: string)
    requires ReadInTurn(log, t, kind, id)
    requires forall i :: 0 <= i < |log| ==> log[i].end == Done
    ensures forall i :: 0 <= i < |log| ==>
      log[i].uploadId in TablesAfter(t, log, kind, id).uploads
      && Owned(TablesAfter(t, log, kind, id).uploads[log[i].uploadId], kind, id)
    decreases |log|
  {
    if log != [] {
      var init, s := log[..|log| - 1], log[|log| - 1];
      DoneUploadsOwned(t, init, kind, id);
      var before := TablesAfter(t, init, kind, id);
      assert UploadStore.Loaded(before, s.uploadId) == Some(s.fetched);
      var after := TablesAfter(t, log, kind, id);
      assert after == UploadStore.Updated(before, Claimed(s.fetched, kind, id));
      assert Owned(after.uploads[s.uploadId], kind, id);
      forall i | 0 <= i < |log|
        ensures log[i].uploadId in after.uploads && Owned(after.uploads[log[i].uploadId], kind, id)
      {
        if i < |init| && log[i].uploadId != s.uploadId {
          assert log[i] == init[i];
        }
      }
    }
  }

  // ---------------------------------------------------------------------
  // No compensating move

  lemma {:induction false} PerformedAt(disk: map<string, Bytes>, base: string, moves: seq<Move>, i: nat)
    requires Performed(disk, base, moves) && i < |moves|
    ensures Performed(disk, base, moves[..i])
    ensures Join([base, moves[i].src]) in Applied(disk, base, moves[..i])
    decreases |moves|
  {
    if i < |moves| - 1 {
      var init := moves[..|moves| - 1];
      PerformedAt(disk, base, init, i);
      assert init[..i] == moves[..i];
    } else {
      assert moves[..i] == moves[..|moves| - 1];
    }
  }

  /** A renamed file stays at its destination, holding what its source held,
      unless a later rename reads or writes that destination: nothing renames
      it back. */
  lemma {:induction false} StaysMoved(disk: map<string, Bytes>, base: string, moves: seq<Move>, i: nat)
    requires Performed(disk, base, moves) && i < |moves|
    requires forall j :: i < j < |moves| ==>
      Join([base, moves[j].src]) != Join([base, moves[i].dst]) && Join([base, moves[j].dst]) != Join([base, moves[i].dst])
    ensures Join([base, moves[i].src]) in Applied(disk, base, moves[..i])
    ensures Join([base, moves[i].dst]) in Applied(disk, base, moves)
    ensures Applied(disk, base, moves)[Join([base, moves[i].dst])]
         == Applied(disk, base, moves[..i])[Join([base, moves[i].src])]
    decreases |moves|
  {
    PerformedAt(disk, base, moves, i);
    var init := moves[..|moves| - 1];
    if i == |moves| - 1 {
      assert init == moves[..i];
      FileSystem.RenameMovesOneFile(Applied(disk, base, init), Join([base, moves[i].src]), Join([base, moves[i].dst]));
    } else {
      assert init[i] == moves[i] && init[..i] == moves[..i];
      StaysMoved(disk, base, init, i);
    }
  }

  /** A renamed file is gone from its source unless a later rename writes
      that path again. */
  lemma {:induction false} SourceGone(disk: map<string, Bytes>, base: string, moves: seq<Move>, i: nat)
    requires Performed(disk, base, moves) && i < |moves|
    requires Join([base, moves[i].src]) != Join([base, moves[i].dst])
    requires forall j :: i < j < |moves| ==> Join([base, moves[j].dst]) != Join([base, moves[i].src])
    ensures Join([base, moves[i].src]) !in Applied(disk, base, moves)
    decreases |moves|
  {
    var init := moves[..|moves| - 1];
    if i == |moves| - 1 {
      assert init == moves[..i];
      PerformedAt(disk, base, moves, i);
    } else {
      assert init[i] == moves[i];
      SourceGone(disk, base, init, i);
    }
  }
}
