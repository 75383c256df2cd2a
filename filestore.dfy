/** The file system as the tools reach it through their adapter: text files
    by path and directory listings. Paths are plain strings joined with `/`
    (no normalisation). Failures are the exceptions `fs.promises` raises. */
module FileStores {
  import opened Wrappers
  import opened Strings

  datatype FileStore = FileStore(files: map<string, string>, dirs: map<string, seq<string>>)

  /** `isExists`: something is at the path. */
  predicate Exists(fs: FileStore, path: string)
  {
    path in fs.files || path in fs.dirs
  }

  /** `isDirectory`: `stat` throws when nothing is at the path. */
  function IsDirectory(fs: FileStore, path: string): (r: Result<bool, string>)
    ensures r.Success? <==> Exists(fs, path)
    ensures r.Success? ==> (r.value <==> path in fs.dirs)
  {
    if path in fs.dirs then Success(true)
    else if path in fs.files then Success(false)
    else Failure("ENOENT: no such file or directory, stat '" + path + "'")
  }

  /** `readFile`: throws for a directory or a missing file. */
  function ReadFile(fs: FileStore, path: string): (r: Result<string, string>)
    ensures r.Success? <==> path in fs.files && path !in fs.dirs
    ensures r.Success? ==> r.value in fs.files.Values
  {
    if path in fs.dirs then Failure("EISDIR: illegal operation on a directory, read")
    else if path in fs.files then Success(fs.files[path])
    else Failure("ENOENT: no such file or directory, open '" + path + "'")
  }

  /** `readDirectory`: the listing; throws for a file or a missing path. */
  function ReadDirectory(fs: FileStore, path: string): (r: Result<seq<string>, string>)
    ensures r.Success? <==> path in fs.dirs
  {
    if path in fs.dirs then Success(fs.dirs[path])
    else if path in fs.files then Failure("ENOTDIR: not a directory, scandir '" + path + "'")
    else Failure("ENOENT: no such file or directory, scandir '" + path + "'")
  }

  /** Everything before the last `/`, `path.split('/').slice(0, -1).join('/')`.
      It agrees with `path.dirname` on paths of two or more segments with no
      trailing `/`, which is what the files of a config set have; it differs
      on shallower paths, `"/a"` (here `""`, there `"/"`) and `"a"` (here
      `""`, there `"."`), which no config-set path is. */
  function Dirname(path: string): string
  {
    var parts := Split(path, '/');
    Join(parts[..|parts| - 1], '/')
  }

  /** `writeFile`: the parent directory must exist and the path must not be a
      directory; a new file joins its parent's listing. */
  function WriteFile(fs: FileStore, path: string, content: string): (r: Result<FileStore, string>)
    ensures r.Success? <==> Dirname(path) in fs.dirs && path !in fs.dirs
    ensures r.Success? ==> r.value.files == fs.files[path := content]
    ensures r.Success? ==> r.value.dirs.Keys == fs.dirs.Keys
    ensures r.Success? ==> ReadFile(r.value, path) == Success(content)
  {
    var parent := Dirname(path);
    if parent !in fs.dirs then Failure("ENOENT: no such file or directory, open '" + path + "'")
    else if path in fs.dirs then Failure("EISDIR: illegal operation on a directory, open '" + path + "'")
    else
      var name := LastPart(path, '/');
      var listing := fs.dirs[parent];
      var listing' := if name in listing then listing else listing + [name];
      Success(FileStore(fs.files[path := content], fs.dirs[parent := listing']))
  }

  /** A write leaves every other file as it was. */
  lemma WriteFileOthers(fs: FileStore, path: string, content: string, other: string)
    requires WriteFile(fs, path, content).Success? && other != path
    ensures ReadFile(WriteFile(fs, path, content).value, other) == ReadFile(fs, other)
  {
  }

  /** The parent of a non-empty path is shorter. */
  lemma DirnameShorter(path: string)
    requires path != ""
    ensures |Dirname(path)| < |path|
  {
    var parts := Split(path, '/');
    if |parts| > 1 {
      var init := parts[..|parts| - 1];
      assert init + [parts[|parts| - 1]] == parts;
      JoinAppend(init, parts[|parts| - 1], '/');
    }
  }

  /** The parent of `dir/name` is `dir`. */
  lemma DirnameAppend(dir: string, name: string)
    requires '/' !in name
    ensures Dirname(dir + "/" + name) == dir && LastPart(dir + "/" + name, '/') == name
  {
    assert dir + "/" + name == dir + ['/'] + name;
    SplitAppend(dir, name, '/');
    var parts := Split(dir, '/') + [name];
    assert parts[..|parts| - 1] == Split(dir, '/');
  }

  /** `mkdir(path, { recursive: true })`: the missing ancestors and the
      directory itself are created, each joining its parent's listing; a file
      in the way throws; an existing directory is left as it is. The empty
      path is the root and always exists. */
  function MakeDirectories(fs: FileStore, path: string): (r: Result<FileStore, string>)
    ensures r.Success? ==> path == "" || path in r.value.dirs
    ensures r.Success? ==> r.value.files == fs.files
    ensures r.Success? ==> fs.dirs.Keys <= r.value.dirs.Keys
    ensures path in fs.dirs ==> r == Success(fs)
    decreases |path|
  {
    if path == "" || path in fs.dirs then Success(fs)
    else if path in fs.files then Failure("EEXIST: file already exists, mkdir '" + path + "'")
    else
      DirnameShorter(path);
      var parent := Dirname(path);
      match MakeDirectories(fs, parent)
      case Failure(e) => Failure(e)
      case Success(made) =>
        var name := LastPart(path, '/');
        var dirs := if parent in made.dirs && name !in made.dirs[parent]
                    then made.dirs[parent := made.dirs[parent] + [name]] else made.dirs;
        Success(FileStore(made.files, dirs[path := []]))
  }

  /** A file whose directory was just made can be written. */
  lemma WriteAfterMakeDirectories(fs: FileStore, dir: string, name: string, content: string)
    requires MakeDirectories(fs, dir).Success? && dir != "" && '/' !in name
    requires dir + "/" + name !in MakeDirectories(fs, dir).value.dirs
    ensures WriteFile(MakeDirectories(fs, dir).value, dir + "/" + name, content).Success?
  {
    DirnameAppend(dir, name);
  }

  /** The adapter object shared by every component: its one field is the
      current contents of the disk. */
  class FileSystem {
    var store: FileStore

    constructor(initial: FileStore)
      ensures store == initial
    {
      store := initial;
    }

    /** `writeFile` on the live disk. */
    method Write(path: string, content: string) returns (r: Result<(), string>)
      modifies this
      ensures var w := WriteFile(old(store), path, content);
        r == (if w.Success? then Success(()) else Failure(w.error))
        && store == (if w.Success? then w.value else old(store))
    {
      var w := WriteFile(store, path, content);
      if w.Success? {
        store := w.value;
        r := Success(());
      } else {
        r := Failure(w.error);
      }
    }

    /** `createDirectory` on the live disk. */
    method CreateDirectory(path: string) returns (r: Result<(), string>)
      modifies this
      ensures var m := MakeDirectories(old(store), path);
        r == (if m.Success? then Success(()) else Failure(m.error))
        && store == (if m.Success? then m.value else old(store))
    {
      var m := MakeDirectories(store, path);
      if m.Success? {
        store := m.value;
        r := Success(());
      } else {
        r := Failure(m.error);
      }
    }
  }
}
