/** Local file storage (`uploads.FileSystemStore`): files addressed by paths
    relative to a base directory. The disk is a map from full path to
    contents; directories are not represented, and creating one is a step that
    may fail. */
module FileSystem {
  import opened Common
  import Paths

  /** The disk after `os.Rename(src, dst)`: the contents of `src` now sit at
      `dst`, replacing whatever was there, and `src` is gone. */
  function Renamed(disk: map<string, Bytes>, src: string, dst: string): map<string, Bytes> {
    if src in disk then (disk - {src})[dst := disk[src]] else disk
  }

  /** The error `os` reports for a path that does not exist. */
  function NotExist(op: string, path: string): Error {
    Error(op + " " + path + ": no such file or directory")
  }

  class FileSystemStore {
    const baseDir: string
    var disk: map<string, Bytes>

    constructor (baseDir: string, disk: map<string, Bytes>)
      ensures this.baseDir == baseDir && this.disk == disk
    {
      this.baseDir := baseDir;
      this.disk := disk;
    }

    /** Where a relative path lives on disk: `filepath.Join(BaseDir, path)`. */
    function FullPath(path: string): string {
      Paths.Join([baseDir, path])
    }

    /** `SaveFile`: writes `content` to `dst`. Failing to create the directory
        or the file leaves the disk as it was; failing while copying leaves
        the file holding only a prefix of the content. */
    method SaveFile(dst: string, content: Bytes) returns (r: Outcome<Error>)
      modifies this
      ensures r.Pass? ==> disk == old(disk)[FullPath(dst) := content]
      ensures r.Fail? ==> (disk == old(disk)
        || exists n :: 0 <= n < |content| && disk == old(disk)[FullPath(dst) := content[..n]])
    {
      var full := FullPath(dst);
      var madeDir: bool := *;
      if !madeDir {
        var message: string := *;
        return Fail(Error(message));
      }
      var created: bool := *;
      if !created {
        var message: string := *;
        return Fail(Error(message));
      }
      var copied: bool := *;
      if !copied && |content| > 0 {
        var n: nat :| n < |content|;
        disk := disk[full := content[..n]];
        var message: string := *;
        return Fail(Error(message));
      }
      disk := disk[full := content];
      r := Pass;
    }

    /** `MoveFile`: renames `src` to `dst`, both relative to the base
        directory. A missing source, or a directory that cannot be created,
        fails and leaves the disk as it was. */
    method MoveFile(src: string, dst: string) returns (r: Outcome<Error>)
      modifies this
      ensures r.Pass? ==> (FullPath(src) in old(disk)
        && disk == Renamed(old(disk), FullPath(src), FullPath(dst)))
      ensures r.Fail? ==> disk == old(disk)
      ensures FullPath(src) !in old(disk) ==> r.Fail?
    {
      var fullSrc, fullDst := FullPath(src), FullPath(dst);
      var madeDir: bool := *;
      if !madeDir {
        var message: string := *;
        return Fail(Error(message));
      }
      if fullSrc !in disk {
        return Fail(NotExist("rename " + fullSrc, fullDst));
      }
      var renamed: bool := *;
      if !renamed {
        var message: string := *;
        return Fail(Error(message));
      }
      disk := Renamed(disk, fullSrc, fullDst);
      r := Pass;
    }

    /** `ReadFile`: the contents stored at `path`, or an error. */
    method ReadFile(path: string) returns (r: Result<Bytes, Error>)
      ensures r.Success? ==> FullPath(path) in disk && r.value == disk[FullPath(path)]
      ensures FullPath(path) !in disk ==> r == Failure(NotExist("open", FullPath(path)))
    {
      var full := FullPath(path);
      if full !in disk {
        return Failure(NotExist("open", full));
      }
      var ok: bool := *;
      if !ok {
        var message: string := *;
        return Failure(Error(message));
      }
      r := Success(disk[full]);
    }
  }

  /** After a rename the destination holds what the source held, the source is
      gone (unless the two are the same file) and no other file changed. */
  lemma RenameMovesOneFile(disk: map<string, Bytes>, src: string, dst: string)
    requires src in disk
    ensures dst in Renamed(disk, src, dst) && Renamed(disk, src, dst)[dst] == disk[src]
    ensures src != dst ==> src !in Renamed(disk, src, dst)
    ensures forall p :: p != src && p != dst ==>
      (p in Renamed(disk, src, dst) <==> p in disk)
      && (p in disk ==> Renamed(disk, src, dst)[p] == disk[p])
  {
  }

  /** Renaming a file onto itself changes nothing. */
  lemma RenameToSelf(disk: map<string, Bytes>, path: string)
    ensures Renamed(disk, path, path) == disk
  {
  }

  /** Paths that differ only in doubled or trailing separators name the same
      file on disk. */
  lemma SameSegmentsSameFile(baseDir: string, a: string, b: string)
    requires Paths.Segments(a) == Paths.Segments(b)
    ensures Paths.Join([baseDir, a]) == Paths.Join([baseDir, b])
  {
    Paths.SegmentsOfPair(baseDir, a);
    Paths.SegmentsOfPair(baseDir, b);
  }
}
