/**
  The local filesystem as the uploaders see it through pathlib and `open`:
  which paths exist, which of them are regular files and how large those are.
  Byte contents are not modelled, only sizes.
*/
module LocalFs {
  import opened Wrappers
  import opened Paths

  /** The `OSError` subclasses that `open` and `unlink` raise here. */
  datatype OsError =
    | FileNotFoundError(path: Path)
    | IsADirectoryError(path: Path)
    | NotADirectoryError(path: Path)

  class FileSystem {
    /** Regular files and their sizes in bytes. */
    var files: map<Path, nat>
    /** Directories. */
    var dirs: set<Path>

    ghost predicate Valid()
      reads this
    {
      files.Keys !! dirs
    }

    constructor (files: map<Path, nat>, dirs: set<Path>)
      requires files.Keys !! dirs
      ensures Valid() && this.files == files && this.dirs == dirs
    {
      this.files := files;
      this.dirs := dirs;
    }

    /** `Path.exists()` */
    predicate Exists(p: Path)
      reads this
    {
      p in files || p in dirs
    }

    /** `Path.is_file()` */
    predicate IsFile(p: Path)
      reads this
    {
      p in files
    }

    /** The first of the proper ancestors `Ancestor(p, k)`, `Ancestor(p, k + 1)`,
        ... of `p` that is not a directory, or `|p.parts|` when all are. */
    function FirstNonDirectory(p: Path, k: nat): (m: nat)
      requires k <= |p.parts|
      reads this
      ensures k <= m <= |p.parts|
      ensures forall j :: k <= j < m ==> Ancestor(p, j) in dirs
      ensures m < |p.parts| ==> Ancestor(p, m) !in dirs
      decreases |p.parts| - k
    {
      if k == |p.parts| || Ancestor(p, k) !in dirs then k
      else FirstNonDirectory(p, k + 1)
    }

    /** Resolving `p` walks its proper ancestors from the root (or the working
        directory) down; the walk stops at ancestor `k`, a regular file. */
    ghost predicate WalkHitsFile(p: Path, k: nat)
      requires k < |p.parts|
      reads this
    {
      Ancestor(p, k) in files && Ancestor(p, k) !in dirs &&
      forall j :: 0 <= j < k ==> Ancestor(p, j) in dirs
    }

    /** The error `open(p, 'wb')` raises, if any: a directory cannot be opened
        for writing, and the parent must be an existing directory. When the
        parent is missing, the error depends on the first ancestor that is not
        a directory: a regular file there gives ENOTDIR, nothing there ENOENT. */
    function OpenError(p: Path): (e: Option<OsError>)
      reads this
      ensures e.None? <==> p !in dirs && p.Parent() in dirs && p.Parent() !in files
      ensures p in dirs ==> e == Some(IsADirectoryError(p))
      ensures p !in dirs && p.Parent() in files ==> e == Some(NotADirectoryError(p))
      ensures p !in dirs && p.Parent() !in dirs && p.Parent() !in files ==>
        e == Some(if exists k :: 0 <= k < |p.parts| && WalkHitsFile(p, k)
                  then NotADirectoryError(p) else FileNotFoundError(p))
    {
      if p in dirs then Some(IsADirectoryError(p))
      else if p.Parent() in files then Some(NotADirectoryError(p))
      else if p.Parent() !in dirs then
        var k := FirstNonDirectory(p, 0);
        BlockedWalk(p, k);
        if k < |p.parts| && Ancestor(p, k) in files then Some(NotADirectoryError(p))
        else Some(FileNotFoundError(p))
      else None
    }

    /** The walk hits a file exactly at the first ancestor that is not a
        directory, when that ancestor is a file. */
    lemma BlockedWalk(p: Path, m: nat)
      requires m == FirstNonDirectory(p, 0)
      ensures (exists k :: 0 <= k < |p.parts| && WalkHitsFile(p, k)) <==>
              m < |p.parts| && Ancestor(p, m) in files
    {
      if m < |p.parts| && Ancestor(p, m) in files {
        assert WalkHitsFile(p, m);
      }
      forall k | 0 <= k < |p.parts| && WalkHitsFile(p, k)
        ensures m == k
      {
        if m < k {
          assert false;
        }
      }
    }

    /** `open(p, 'wb')`: creates `p`, or truncates it when it is already a file. */
    method OpenForWrite(p: Path) returns (err: Option<OsError>)
      requires Valid()
      modifies this
      ensures Valid() && dirs == old(dirs)
      ensures err == old(OpenError(p))
      ensures err.None? ==> files == old(files)[p := 0]
      ensures err.Some? ==> files == old(files)
    {
      err := OpenError(p);
      if err.None? {
        files := files[p := 0];
      }
    }

    /** Writing `n` more bytes to the open file `p`. */
    method Append(p: Path, n: nat)
      requires Valid() && p in files
      modifies this
      ensures Valid() && dirs == old(dirs)
      ensures files == old(files)[p := old(files)[p] + n]
    {
      files := files[p := files[p] + n];
    }

    /** `Path.unlink()`: removes a file; a directory is refused. */
    method Unlink(p: Path) returns (err: Option<OsError>)
      requires Valid()
      modifies this
      ensures Valid() && dirs == old(dirs)
      ensures p in old(dirs) ==> err == Some(IsADirectoryError(p)) && files == old(files)
      ensures p in old(files) ==> err.None? && files == old(files) - {p}
      ensures !old(Exists(p)) ==> err == Some(FileNotFoundError(p)) && files == old(files)
    {
      if p in dirs {
        err := Some(IsADirectoryError(p));
      } else if p in files {
        files := files - {p};
        err := None;
      } else {
        err := Some(FileNotFoundError(p));
      }
    }
  }

  /** A regular file where a directory is expected higher up: opening
      `/tmp/temp_a/b/c` below the file `/tmp/temp_a` gives ENOTDIR, not ENOENT. */
  lemma FileAboveParent(fs: FileSystem)
    requires fs.dirs == {Path(true, []), Path(true, ["tmp"])}
    requires fs.files.Keys == {Path(true, ["tmp", "temp_a"])}
    ensures fs.OpenError(Path(true, ["tmp", "temp_a", "b", "c"]))
         == Some(NotADirectoryError(Path(true, ["tmp", "temp_a", "b", "c"])))
  {
    var p := Path(true, ["tmp", "temp_a", "b", "c"]);
    assert Ancestor(p, 2) == Path(true, ["tmp", "temp_a"]);
    assert fs.WalkHitsFile(p, 2) by {
      assert Ancestor(p, 0) == Path(true, []);
      assert Ancestor(p, 1) == Path(true, ["tmp"]);
    }
  }
}
