/** Work directories (pkg/executor/workspace/manager.go). A directory per
    task is composed from the base path and four segments; the file system
    behind it is a set of directories and a map from file path to content.
    Paths are plain strings joined with `/`; the lexical cleaning that
    `filepath.Join` also performs is not part of this model. */
module Workspace {
  import opened Wrappers
  import Text

  /** The elements `filepath.Join` keeps: the non-empty ones. */
  function NonEmpty(elems: seq<string>): (r: seq<string>)
    ensures forall k :: 0 <= k < |r| ==> r[k] != ""
    ensures |r| <= |elems|
  {
    if elems == [] then []
    else (if elems[0] == "" then [] else [elems[0]]) + NonEmpty(elems[1..])
  }

  function PathJoin(elems: seq<string>): string {
    Text.Join(NonEmpty(elems), "/")
  }

  /** Whether `p` is `path` itself or lies below it. */
  predicate Under(p: string, path: string) {
    p == path || Text.HasPrefix(p, path + "/")
  }

  /** The directories MkdirAll creates for `path`: every proper prefix that
      ends before a `/`, and the path itself. */
  function Ancestry(path: string): (r: set<string>)
    ensures path != "" ==> path in r
    ensures forall d :: d in r ==> d != ""
  {
    (set i | 0 < i < |path| && path[i] == '/' :: path[..i]) + (if path == "" then {} else {path})
  }

  /** The paths `os.RemoveAll` refuses with EINVAL: "." and any path whose
      last element is ".". */
  predicate EndsWithDot(path: string) {
    path == "." || (|path| >= 2 && path[|path| - 1] == '.' && path[|path| - 2] == '/')
  }

  /** The directory a file at `path` is created in: everything before the
      last `/`. The empty string stands for the current directory (or, for
      a path `/name`, the root), which always exists. */
  function Parent(path: string): (r: string)
    ensures |r| <= |path|
    decreases |path|
  {
    if path == [] then []
    else if path[|path| - 1] == '/' then path[..|path| - 1]
    else Parent(path[..|path| - 1])
  }

  /** The error texts of the operating system calls, as Go prints them. */
  function NoSuchFile(op: string, path: string): string {
    op + " " + path + ": no such file or directory"
  }

  function NotADirectory(path: string): string {
    "mkdir " + path + ": not a directory"
  }

  function InvalidArgument(path: string): string {
    "RemoveAll " + path + ": invalid argument"
  }

  function IsADirectory(path: string): string {
    "read " + path + ": is a directory"
  }

  /** The file system the manager works on. */
  class FileSystem {
    var dirs: set<string>
    var files: map<string, string>

    constructor ()
      ensures dirs == {} && files == map[]
    {
      dirs := {};
      files := map[];
    }

    /** `os.MkdirAll`: fails on an empty path or when a file stands where a
        directory is needed; otherwise every missing directory is created. */
    method MkdirAll(path: string) returns (err: Option<string>)
      modifies this`dirs
      ensures path == "" ==> err == Some(NoSuchFile("mkdir", path)) && dirs == old(dirs)
      ensures path != "" && (exists d :: d in Ancestry(path) && d in files) ==>
        err.Some? && dirs == old(dirs)
      ensures path != "" && (forall d :: d in Ancestry(path) ==> d !in files) ==>
        err == None && dirs == old(dirs) + Ancestry(path)
    {
      if path == "" {
        return Some(NoSuchFile("mkdir", path));
      }
      var blocking := Ancestry(path) * files.Keys;
      if blocking != {} {
        var d :| d in blocking;
        return Some(NotADirectory(d));
      }
      forall d | d in Ancestry(path)
        ensures d !in files
      {
        assert d !in blocking;
      }
      dirs := dirs + Ancestry(path);
      err := None;
    }

    /** `os.RemoveAll`: the empty path is a no-op and a path ending in "."
        is refused, both removing nothing; otherwise the path and everything
        below it are removed, and a missing path is no error. */
    method RemoveAll(path: string) returns (err: Option<string>)
      modifies this`dirs, this`files
      ensures path == "" ==> err == None && dirs == old(dirs) && files == old(files)
      ensures EndsWithDot(path) ==>
        err == Some(InvalidArgument(path)) && dirs == old(dirs) && files == old(files)
      ensures path != "" && !EndsWithDot(path) ==> (err == None &&
        dirs == (set d | d in old(dirs) && !Under(d, path)) &&
        files == (map f | f in old(files) && !Under(f, path) :: old(files)[f]))
    {
      if path == "" {
        return None;
      }
      if EndsWithDot(path) {
        return Some(InvalidArgument(path));
      }
      dirs := set d | d in dirs && !Under(d, path);
      files := map f | f in files && !Under(f, path) :: files[f];
      err := None;
    }

    /** `os.WriteFile`: the path must be non-empty, the directory it is
        created in must exist and the path must not itself be a directory; an
        existing file is overwritten. */
    method WriteFile(path: string, content: string) returns (err: Option<string>)
      modifies this`files
      ensures path != "" && (Parent(path) == "" || Parent(path) in dirs) && path !in dirs <==> err == None
      ensures err == None ==> files == old(files)[path := content]
      ensures err.Some? ==> files == old(files)
    {
      if path == "" || (Parent(path) != "" && Parent(path) !in dirs) {
        return Some(NoSuchFile("open", path));
      }
      if path in dirs {
        return Some("open " + path + ": is a directory");
      }
      files := files[path := content];
      err := None;
    }

    method ReadFile(path: string) returns (r: Result<string>)
      ensures r.Ok? <==> path in files
      ensures r.Ok? ==> r.value == files[path]
      ensures path !in files && path !in dirs ==> r == Err(NoSuchFile("open", path))
    {
      if path in files {
        return Ok(files[path]);
      }
      if path in dirs {
        return Err(IsADirectory(path));
      }
      return Err(NoSuchFile("open", path));
    }

    /** `os.Stat` succeeds. */
    method Stat(path: string) returns (found: bool)
      ensures found <==> path in dirs || path in files
    {
      found := path in dirs || path in files;
    }
  }

  class Manager {
    const basePath: string

    /** NewManager keeps the base path as given. */
    constructor (basePath: string)
      ensures this.basePath == basePath
    {
      this.basePath := basePath;
    }

    /** `base/provider/region/resourceID/taskID`. */
    function GenPath(provider: string, region: string, resourceId: string, taskId: string): string {
      PathJoin([basePath, provider, region, resourceId, taskId])
    }

    /** Creates the task's directory and every missing parent; on failure
        no path is returned and the error is wrapped. */
    method Create(fs: FileSystem, provider: string, region: string, resourceId: string, taskId: string)
      returns (path: string, err: Option<string>)
      modifies fs`dirs
      ensures var p := GenPath(provider, region, resourceId, taskId);
        p != "" && (forall d :: d in Ancestry(p) ==> d !in fs.files) ==>
          path == p && err == None && fs.dirs == old(fs.dirs) + Ancestry(p)
      ensures var p := GenPath(provider, region, resourceId, taskId);
        p == "" || (exists d :: d in Ancestry(p) && d in fs.files) ==>
          path == "" && err.Some? && fs.dirs == old(fs.dirs) &&
          Text.HasPrefix(err.value, "failed to create workspace: ")
      ensures err == None ==> path in fs.dirs
    {
      var p := GenPath(provider, region, resourceId, taskId);
      var e := fs.MkdirAll(p);
      if e.Some? {
        path, err := "", Some("failed to create workspace: " + e.value);
        assert Text.HasPrefix(err.value, "failed to create workspace: ") by {
          assert err.value[..|"failed to create workspace: "|] == "failed to create workspace: ";
        }
        return;
      }
      path, err := p, None;
    }

    /** Refuses the empty path and the root, deleting nothing; a path ending
        in "." is refused by RemoveAll, also deleting nothing; otherwise
        removes the directory and everything below it. */
    method Clean(fs: FileSystem, path: string) returns (err: Option<string>)
      modifies fs`dirs, fs`files
      ensures path == "" || path == "/" ==>
        err == Some("invalid path") && fs.dirs == old(fs.dirs) && fs.files == old(fs.files)
      ensures EndsWithDot(path) ==>
        err == Some(InvalidArgument(path)) && fs.dirs == old(fs.dirs) && fs.files == old(fs.files)
      ensures path != "" && path != "/" && !EndsWithDot(path) ==> (err == None &&
        fs.dirs == (set d | d in old(fs.dirs) && !Under(d, path)) &&
        fs.files == (map f | f in old(fs.files) && !Under(f, path) :: old(fs.files)[f]))
      ensures path != "" && path != "/" && !EndsWithDot(path) ==> path !in fs.dirs && path !in fs.files
    {
      if path == "" || path == "/" {
        return Some("invalid path");
      }
      err := fs.RemoveAll(path);
    }

    /** Writes `dir/filename`; the write needs the directory that path
        lies in, which is `dir` itself for a plain file name (ParentOfJoin). */
    method WriteFile(fs: FileSystem, dir: string, filename: string, content: string) returns (err: Option<string>)
      modifies fs`files
      ensures var p := PathJoin([dir, filename]);
        (p != "" && (Parent(p) == "" || Parent(p) in fs.dirs) && p !in fs.dirs <==> err == None) &&
        (err == None ==> fs.files == old(fs.files)[p := content]) &&
        (err.Some? ==> fs.files == old(fs.files))
    {
      err := fs.WriteFile(PathJoin([dir, filename]), content);
    }

    method ReadFile(fs: FileSystem, dir: string, filename: string) returns (r: Result<string>)
      ensures var p := PathJoin([dir, filename]);
        (r.Ok? <==> p in fs.files) && (r.Ok? ==> r.value == fs.files[p])
    {
      r := fs.ReadFile(PathJoin([dir, filename]));
    }

    method Exists(fs: FileSystem, path: string) returns (b: bool)
      ensures b <==> path in fs.dirs || path in fs.files
    {
      b := fs.Stat(path);
    }
  }

  /** With a non-empty base and four plain segments, GenPath puts the
      segments under the base in order, and splitting the path at `/` gives
      the base's pieces followed by the four segments. */
  lemma GenPathSegments(base: string, provider: string, region: string, resourceId: string, taskId: string)
    requires base != ""
    requires provider != "" && region != "" && resourceId != "" && taskId != ""
    requires '/' !in provider && '/' !in region && '/' !in resourceId && '/' !in taskId
    ensures PathJoin([base, provider, region, resourceId, taskId]) ==
      base + "/" + provider + "/" + region + "/" + resourceId + "/" + taskId
    ensures Text.Split(PathJoin([base, provider, region, resourceId, taskId]), '/') ==
      Text.Split(base, '/') + [provider, region, resourceId, taskId]
  {
    GenPathJoined(base, provider, region, resourceId, taskId);
    var p1 := base + "/" + provider;
    var p2 := p1 + "/" + region;
    var p3 := p2 + "/" + resourceId;
    Text.SplitSnoc(base, '/', provider);
    Text.SplitSnoc(p1, '/', region);
    Text.SplitSnoc(p2, '/', resourceId);
    Text.SplitSnoc(p3, '/', taskId);
  }

  /** The five non-empty elements are joined with a slash between each two. */
  lemma GenPathJoined(base: string, provider: string, region: string, resourceId: string, taskId: string)
    requires base != "" && provider != "" && region != "" && resourceId != "" && taskId != ""
    ensures PathJoin([base, provider, region, resourceId, taskId]) ==
      base + "/" + provider + "/" + region + "/" + resourceId + "/" + taskId
  {
    var elems := [base, provider, region, resourceId, taskId];
    assert NonEmpty(elems[4..]) == [taskId];
    assert NonEmpty(elems[3..]) == [resourceId, taskId];
    assert NonEmpty(elems[2..]) == [region, resourceId, taskId];
    assert NonEmpty(elems[1..]) == [provider, region, resourceId, taskId];
    assert NonEmpty(elems) == elems;
    assert Text.Join(elems[4..], "/") == taskId;
    Text.JoinCons(resourceId, elems[4..], "/");
    assert elems[3..] == [resourceId] + elems[4..];
    Text.JoinCons(region, elems[3..], "/");
    assert elems[2..] == [region] + elems[3..];
    Text.JoinCons(provider, elems[2..], "/");
    assert elems[1..] == [provider] + elems[2..];
    Text.JoinCons(base, elems[1..], "/");
    assert elems == [base] + elems[1..];
  }

  /** A file name joined to a directory lies below it. */
  lemma JoinFile(dir: string, filename: string)
    requires dir != "" && filename != ""
    ensures PathJoin([dir, filename]) == dir + "/" + filename
    ensures Under(PathJoin([dir, filename]), dir) && PathJoin([dir, filename]) != dir
  {
    var elems := [dir, filename];
    assert NonEmpty(elems[1..]) == [filename];
    assert NonEmpty(elems) == elems;
    Text.JoinCons(dir, [filename], "/");
    assert elems == [dir] + [filename];
    var p := dir + "/" + filename;
    assert p[..|dir + "/"|] == dir + "/";
  }

  /** A plain file name joined to a directory is created in that directory. */
  lemma {:induction false} ParentOfJoin(dir: string, name: string)
    requires name != "" && '/' !in name
    ensures Parent(dir + "/" + name) == dir
    decreases |name|
  {
    var p := dir + "/" + name;
    assert p[|p| - 1] == name[|name| - 1];
    if |name| == 1 {
      assert p[..|p| - 1] == dir + "/";
    } else {
      assert p[..|p| - 1] == dir + "/" + name[..|name| - 1];
      ParentOfJoin(dir, name[..|name| - 1]);
    }
  }

  /** The last element of a path is what decides EndsWithDot. */
  lemma EndsWithDotLast(dir: string, name: string)
    requires name != "" && name != "." && '/' !in name
    ensures !EndsWithDot(dir + "/" + name)
  {
    var p := dir + "/" + name;
    if |name| >= 2 {
      assert p[|p| - 2] == name[|name| - 2];
    }
  }

  /** The steps of the workspace tests on a fresh file system: the created
      directory exists, a written file reads back, and after Clean the
      directory is gone and its file no longer reads. */
  method Scenario(base: string, provider: string, region: string, resourceId: string, taskId: string,
                  filename: string, content: string)
    returns (existed: bool, read: Result<string>, gone: bool, missing: Result<string>)
    requires base != "" && filename != "" && '/' !in filename
    requires provider != "" && region != "" && resourceId != "" && taskId != "" && taskId != "."
    requires '/' !in provider && '/' !in region && '/' !in resourceId && '/' !in taskId
    ensures existed && read == Ok(content) && !gone && missing.Err?
  {
    var fs := new FileSystem();
    var m := new Manager(base);
    GenPathSegments(base, provider, region, resourceId, taskId);
    var dir, err := m.Create(fs, provider, region, resourceId, taskId);
    assert err == None;
    JoinFile(dir, filename);
    ParentOfJoin(dir, filename);
    EndsWithDotLast(base + "/" + provider + "/" + region + "/" + resourceId, taskId);
    existed := m.Exists(fs, dir);
    var werr := m.WriteFile(fs, dir, filename, content);
    assert werr == None;
    read := m.ReadFile(fs, dir, filename);
    var cerr := m.Clean(fs, dir);
    gone := m.Exists(fs, dir);
    assert PathJoin([dir, filename]) !in fs.files;
    missing := m.ReadFile(fs, dir, filename);
  }
}
