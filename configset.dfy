/** A config set: a directory holding `schemas/`, `models/` and `instances/`,
    named after its last path segment, with one id → file path index per
    folder. Resource ids are dotted, `<set>.<folder>.<name>` or
    `<set>.<folder>.<name>.<version>`. */
module ConfigSets {
  import opened Wrappers
  import opened Strings
  import opened OrderedMaps
  import opened JsonValues
  import opened FileStores

  /** What the pipeline reads of a config set: its name, its root directory
      and the three id → path indexes. */
  datatype SetView = SetView(
    name: string,
    root: string,
    schemas: OMap<string>,
    models: OMap<string>,
    instances: OMap<string>)

  /** The name of the config set rooted at `path`: `path.split('/').pop() || ''`. */
  function SetName(path: string): string
  {
    LastPart(path, '/')
  }

  // ---------------------------------------------------------------------------
  // ids and paths
  // ---------------------------------------------------------------------------

  /** `buildAbsFilePathById`: where the file of an id lives, whether or not it
      exists; ids of other than three or four segments have no place. */
  function BuildPath(root: string, id: string): string
  {
    var parts := Split(id, '.');
    if |parts| == 3 then root + "/" + parts[1] + "/" + parts[2] + ".json"
    else if |parts| == 4 then root + "/" + parts[1] + "/" + parts[2] + "/" + parts[2] + "_" + parts[3] + ".json"
    else ""
  }

  lemma BuildPathEmpty(root: string, id: string)
    ensures BuildPath(root, id) == "" <==> SegmentCount(id, '.') != 3 && SegmentCount(id, '.') != 4
  {
    var parts := Split(id, '.');
    if |parts| == 3 {
      assert BuildPath(root, id)[|root|] == '/';
    } else if |parts| == 4 {
      assert BuildPath(root, id)[|root|] == '/';
    }
  }

  /** An unversioned id `<set>.<folder>.<name>` lives at `<root>/<folder>/<name>.json`. */
  lemma BuildPathOfId(root: string, setName: string, folder: string, name: string)
    requires '.' !in setName && '.' !in folder && '.' !in name
    ensures BuildPath(root, setName + "." + folder + "." + name) == root + "/" + folder + "/" + name + ".json"
  {
    SplitThree(setName, folder, name, '.');
  }

  /** A versioned id `<set>.<folder>.<name>.<v>` lives at
      `<root>/<folder>/<name>/<name>_<v>.json`. */
  lemma BuildPathOfVersionedId(root: string, setName: string, folder: string, name: string, v: string)
    requires '.' !in setName && '.' !in folder && '.' !in name && '.' !in v
    ensures BuildPath(root, setName + "." + folder + "." + name + "." + v)
         == root + "/" + folder + "/" + name + "/" + name + "_" + v + ".json"
  {
    SplitFour(setName, folder, name, v, '.');
  }

  /** `getAbsFilePathById`: the registered path of an id, looked up in the
      index its second segment names (schemas, models, anything else the
      instances), or `""`. */
  function LookupPath(v: SetView, id: string): string
  {
    var category := SplitAt(id, '.', 1);
    var index := if category == "schemas" then v.schemas else if category == "models" then v.models else v.instances;
    Get(index, id).GetOr("")
  }

  // ---------------------------------------------------------------------------
  // loading the indexes from disk
  // ---------------------------------------------------------------------------

  /** The capture of `/"\$id"\s*:\s*"([^"]+)"/` when it matches at the start
      of `t`. */
  function IdMatchHere(t: string): (r: Option<string>)
    ensures r.Some? ==> |r.value| > 0 && '"' !in r.value
  {
    if !StartsWith(t, "\"$id\"") then None
    else
      var a := TrimStart(t[5..]);
      if |a| == 0 || a[0] != ':' then None
      else
        var b := TrimStart(a[1..]);
        if |b| == 0 || b[0] != '"' then None
        else
          var c := b[1..];
          var k := FindChar(c, '"');
          if k == 0 || k == |c| then None else Some(c[..k])
  }

  /** The capture of the leftmost match of that pattern in `s`. */
  function FirstIdMatch(s: string): (r: Option<string>)
    ensures r.Some? ==> |r.value| > 0 && '"' !in r.value
    decreases |s|
  {
    if |s| == 0 then None
    else if IdMatchHere(s).Some? then IdMatchHere(s)
    else FirstIdMatch(s[1..])
  }

  /** A file that starts with `"$id": "<v>"` is indexed under `v`. */
  lemma IdMatchOfHeader(v: string, rest: string)
    requires |v| > 0 && '"' !in v
    ensures FirstIdMatch("\"$id\": \"" + v + "\"" + rest) == Some(v)
  {
    var s := "\"$id\": \"" + v + "\"" + rest;
    var c := v + "\"" + rest;
    assert s == "\"$id\"" + ": \"" + c;
    IdMatchAfterKey(c, v);
  }

  lemma IdMatchAfterKey(c: string, v: string)
    requires |v| > 0 && '"' !in v && |c| > |v| && c[..|v|] == v && c[|v|] == '"'
    ensures IdMatchHere("\"$id\"" + ": \"" + c) == Some(v)
  {
    KeyHeaderParts(c);
    assert ("\"" + c)[1..] == c;
    assert FindChar(c, '"') == |v|;
  }

  /** The text after `"$id"`, then after `:` and the blank, is `"<c>`. */
  lemma KeyHeaderParts(c: string)
    ensures var t := "\"$id\"" + ": \"" + c;
      StartsWith(t, "\"$id\"") && TrimStart(t[5..]) == ": \"" + c
      && TrimStart((": \"" + c)[1..]) == "\"" + c
  {
    var t := "\"$id\"" + ": \"" + c;
    assert t[..5] == "\"$id\"";
    var a := t[5..];
    assert a == ": \"" + c;
    assert TrimStart(a) == a;
    var b := a[1..];
    assert b == " \"" + c;
    assert TrimStart(b) == TrimStart(b[1..]);
    assert b[1..] == "\"" + c;
    assert TrimStart(b[1..]) == b[1..];
  }

  /** The index built from the entries of `directory`, one at a time: each
      plain file is registered under the id its text declares, or under its
      file name; the first failure ends the scan and keeps what was found. */
  function RegisterFiles(fs: FileStore, directory: string, files: seq<string>, acc: OMap<string>): OMap<string>
    decreases |files|
  {
    if |files| == 0 then acc
    else
      var path := directory + "/" + files[0];
      match IsDirectory(fs, path)
      case Failure(_) => acc
      case Success(isDir) =>
        if isDir then RegisterFiles(fs, directory, files[1..], acc)
        else
          match ReadFile(fs, path)
          case Failure(_) => acc
          case Success(text) =>
            RegisterFiles(fs, directory, files[1..], Put(acc, FirstIdMatch(text).GetOr(files[0]), path))
  }

  /** The id under which a listed file is registered. */
  function RegisteredId(fs: FileStore, directory: string, file: string): string
  {
    var path := directory + "/" + file;
    if path in fs.files then FirstIdMatch(fs.files[path]).GetOr(file) else file
  }

  /** `loadResourcesFromDir`: an unreadable directory gives an empty index. */
  function ResourcesIn(fs: FileStore, directory: string): OMap<string>
  {
    match ReadDirectory(fs, directory)
    case Failure(_) => []
    case Success(files) => RegisterFiles(fs, directory, files, [])
  }

  /** Every registered path is `<directory>/<f>` for a listed entry `f`. */
  lemma {:induction false} RegisterFilesPaths(fs: FileStore, directory: string, files: seq<string>, acc: OMap<string>)
    ensures forall e :: e in RegisterFiles(fs, directory, files, acc) ==>
              e in acc || exists f :: f in files && e.val == directory + "/" + f
    decreases |files|
  {
    if |files| > 0 {
      var path := directory + "/" + files[0];
      if IsDirectory(fs, path).Success? {
        if IsDirectory(fs, path).value {
          RegisterFilesPaths(fs, directory, files[1..], acc);
        } else if ReadFile(fs, path).Success? {
          var text := ReadFile(fs, path).value;
          var acc' := Put(acc, FirstIdMatch(text).GetOr(files[0]), path);
          RegisterFilesPaths(fs, directory, files[1..], acc');
          PutEntries(acc, FirstIdMatch(text).GetOr(files[0]), path);
        }
      }
    }
  }

  /** Registering further files never loses an id already registered. */
  lemma {:induction false} RegisterFilesKeeps(fs: FileStore, directory: string, files: seq<string>, acc: OMap<string>, k: string)
    requires k in Keys(acc)
    ensures k in Keys(RegisterFiles(fs, directory, files, acc))
    decreases |files|
  {
    if |files| > 0 {
      var path := directory + "/" + files[0];
      if IsDirectory(fs, path).Success? {
        if IsDirectory(fs, path).value {
          RegisterFilesKeeps(fs, directory, files[1..], acc, k);
        } else if ReadFile(fs, path).Success? {
          var text := ReadFile(fs, path).value;
          var acc' := Put(acc, FirstIdMatch(text).GetOr(files[0]), path);
          assert Get(acc', k).Some? by {
            assert Get(acc, k).Some?;
          }
          RegisterFilesKeeps(fs, directory, files[1..], acc', k);
        }
      }
    }
  }

  /** When every listed entry is a readable plain file, each is registered
      under the id its text declares, or its file name. */
  lemma {:induction false} RegisterFilesComplete(fs: FileStore, directory: string, files: seq<string>, acc: OMap<string>)
    requires forall f :: f in files ==> directory + "/" + f in fs.files && directory + "/" + f !in fs.dirs
    ensures forall f :: f in files ==> RegisteredId(fs, directory, f) in Keys(RegisterFiles(fs, directory, files, acc))
    decreases |files|
  {
    if |files| > 0 {
      var path := directory + "/" + files[0];
      var text := fs.files[path];
      var k := FirstIdMatch(text).GetOr(files[0]);
      var acc' := Put(acc, k, path);
      RegisterFilesComplete(fs, directory, files[1..], acc');
      RegisterFilesKeeps(fs, directory, files[1..], acc', k);
      forall f | f in files
        ensures RegisteredId(fs, directory, f) in Keys(RegisterFiles(fs, directory, files, acc))
      {
        if f != files[0] {
          assert f in files[1..];
        }
      }
    }
  }

  /** Loading a directory of readable plain files registers every one of
      them, each under a path inside that directory. */
  lemma ResourcesOfPlainFiles(fs: FileStore, directory: string)
    requires directory in fs.dirs
    requires forall f :: f in fs.dirs[directory] ==>
               directory + "/" + f in fs.files && directory + "/" + f !in fs.dirs
    ensures forall f :: f in fs.dirs[directory] ==> RegisteredId(fs, directory, f) in Keys(ResourcesIn(fs, directory))
    ensures forall e :: e in ResourcesIn(fs, directory) ==>
              exists f :: f in fs.dirs[directory] && e.val == directory + "/" + f
  {
    RegisterFilesComplete(fs, directory, fs.dirs[directory], []);
    RegisterFilesPaths(fs, directory, fs.dirs[directory], []);
  }

  /** The view of the set `loadConfigSet(path)` produces. */
  function LoadedView(fs: FileStore, path: string): SetView
  {
    SetView(SetName(path), path,
      ResourcesIn(fs, path + "/schemas"), ResourcesIn(fs, path + "/models"), ResourcesIn(fs, path + "/instances"))
  }

  /** `loadResourcesFromDir`, entry by entry. */
  method LoadResourcesFromDir(fs: FileStore, directory: string) returns (resources: OMap<string>)
    ensures resources == ResourcesIn(fs, directory)
  {
    resources := [];
    var listing := ReadDirectory(fs, directory);
    if listing.Failure? {
      return;
    }
    var files := listing.value;
    assert files[0..] == files;
    var i := 0;
    while i < |files|
      invariant 0 <= i <= |files|
      invariant RegisterFiles(fs, directory, files[i..], resources) == ResourcesIn(fs, directory)
      decreases |files| - i
    {
      var rest := files[i..];
      assert rest[0] == files[i] && rest[1..] == files[i + 1..];
      var path := directory + "/" + files[i];
      var isDir := IsDirectory(fs, path);
      if isDir.Failure? {
        return;
      }
      if !isDir.value {
        var text := ReadFile(fs, path);
        if text.Failure? {
          return;
        }
        resources := Put(resources, FirstIdMatch(text.value).GetOr(files[i]), path);
      }
      i := i + 1;
    }
  }

  // ---------------------------------------------------------------------------
  // the config set object
  // ---------------------------------------------------------------------------

  /** The default content of a new resource: `{ $id: "", $version: 1 }`. */
  const BaseTemplate: Json := Obj([Entry("$id", Str("")), Entry("$version", Num(1))])

  /** `{ ...template, $id: id }`. */
  function WithId(template: Json, id: string): (r: Json)
    ensures r.Obj? && Get(r.fields, "$id") == Some(Str(id))
  {
    Obj(Put(Members(template), "$id", Str(id)))
  }

  /** From the default template, `$id` stays the first key. */
  lemma BaseTemplateWithId(id: string)
    ensures WithId(BaseTemplate, id) == Obj([Entry("$id", Str(id)), Entry("$version", Num(1))])
  {
  }

  class ConfigSet {
    const absolutePath: string
    const name: string
    var schemaIds: OMap<string>
    var modelIds: OMap<string>
    var instanceIds: OMap<string>

    constructor(path: string)
      ensures absolutePath == path && name == SetName(path)
      ensures schemaIds == [] && modelIds == [] && instanceIds == []
    {
      absolutePath := path;
      name := SetName(path);
      schemaIds := [];
      modelIds := [];
      instanceIds := [];
    }

    function View(): SetView
      reads this
    {
      SetView(name, absolutePath, schemaIds, modelIds, instanceIds)
    }

    function BuildAbsFilePathById(id: string): string
    {
      BuildPath(absolutePath, id)
    }

    function GetAbsFilePathById(id: string): string
      reads this
    {
      LookupPath(View(), id)
    }

    /** `loadResources`: the three indexes, read from the three folders. */
    method LoadResources(fs: FileStore)
      modifies this
      ensures schemaIds == ResourcesIn(fs, absolutePath + "/schemas")
      ensures modelIds == ResourcesIn(fs, absolutePath + "/models")
      ensures instanceIds == ResourcesIn(fs, absolutePath + "/instances")
    {
      schemaIds := LoadResourcesFromDir(fs, absolutePath + "/schemas");
      modelIds := LoadResourcesFromDir(fs, absolutePath + "/models");
      instanceIds := LoadResourcesFromDir(fs, absolutePath + "/instances");
    }

    /** `createResourceFile`: writes `{...template, $id}` pretty-printed to
        `<root>/<folder>/<resName>.json`, refusing to overwrite, and indexes
        the new id. */
    method CreateResourceFile(disk: FileSystem, pretty: Json -> string, folderName: string, resName: string, template: Json)
      returns (r: Result<string, string>)
      modifies this, disk
      ensures var outputPath := ResourcePath(absolutePath, folderName, resName);
        var id := name + "." + folderName + "." + resName;
        var written := WriteFile(old(disk.store), outputPath, pretty(WithId(template, id)));
        if Exists(old(disk.store), outputPath) then
          r == Failure("File already exists: " + outputPath) && disk.store == old(disk.store) && View() == old(View())
        else if written.Failure? then
          r == Failure(written.error) && disk.store == old(disk.store) && View() == old(View())
        else
          r == Success(id) && disk.store == written.value && View() == Register(old(View()), folderName, id, outputPath)
    {
      var outputPath := ResourcePath(absolutePath, folderName, resName);
      if Exists(disk.store, outputPath) {
        return Failure("File already exists: " + outputPath);
      }
      var id := name + "." + folderName + "." + resName;
      var w := disk.Write(outputPath, pretty(WithId(template, id)));
      if w.Failure? {
        return Failure(w.error);
      }
      if folderName == "schemas" {
        schemaIds := Put(schemaIds, id, outputPath);
      } else if folderName == "models" {
        modelIds := Put(modelIds, id, outputPath);
      } else {
        instanceIds := Put(instanceIds, id, outputPath);
      }
      r := Success(id);
    }
  }

  /** Where `createResourceFile` puts a new resource. */
  function ResourcePath(root: string, folderName: string, resName: string): string
  {
    root + "/" + folderName + "/" + resName + ".json"
  }

  /** `mapToUpdate.set(id, path)`: schemas and models each have their own
      index; any other folder goes to the instances. */
  function Register(v: SetView, folderName: string, id: string, path: string): (r: SetView)
    ensures r.name == v.name && r.root == v.root
  {
    if folderName == "schemas" then v.(schemas := Put(v.schemas, id, path))
    else if folderName == "models" then v.(models := Put(v.models, id, path))
    else v.(instances := Put(v.instances, id, path))
  }

  /** Looking a freshly created resource up by its id finds the file just
      written, provided no name involved holds a dot; every other id keeps
      its path. */
  lemma LookupAfterRegister(v: SetView, folderName: string, resName: string, other: string)
    requires '.' !in v.name && '.' !in folderName && '.' !in resName
    ensures var id := v.name + "." + folderName + "." + resName;
      var path := ResourcePath(v.root, folderName, resName);
      LookupPath(Register(v, folderName, id, path), id) == path
      && (other != id ==> LookupPath(Register(v, folderName, id, path), other) == LookupPath(v, other))
  {
    var id := v.name + "." + folderName + "." + resName;
    SplitThree(v.name, folderName, resName, '.');
    var path := ResourcePath(v.root, folderName, resName);
    RegisterThenLookup(v, folderName, id, path);
    if other != id {
      RegisterKeepsOthers(v, folderName, id, path, other);
    }
  }

  /** Registering `path` under an id of category `folderName` makes the id
      name `path`. */
  lemma RegisterThenLookup(v: SetView, folderName: string, id: string, path: string)
    requires SplitAt(id, '.', 1) == folderName
    ensures LookupPath(Register(v, folderName, id, path), id) == path
  {
  }

  /** Registering an id leaves every other id as it was. */
  lemma RegisterKeepsOthers(v: SetView, folderName: string, id: string, path: string, other: string)
    requires other != id
    ensures LookupPath(Register(v, folderName, id, path), other) == LookupPath(v, other)
  {
    var r := Register(v, folderName, id, path);
    assert Get(r.schemas, other) == Get(v.schemas, other) && Get(r.models, other) == Get(v.models, other)
      && Get(r.instances, other) == Get(v.instances, other);
  }

  /** `ConfigSet.loadConfigSet`: a set for an existing directory, with its
      indexes loaded. */
  method LoadConfigSet(path: string, fs: FileStore) returns (r: Result<ConfigSet, string>)
    ensures r.Failure? <==> !Exists(fs, path)
    ensures r.Failure? ==> r.error == "Failed to read directory " + path
    ensures r.Success? ==> fresh(r.value) && r.value.View() == LoadedView(fs, path)
  {
    var configSet := new ConfigSet(path);
    if !Exists(fs, path) {
      return Failure("Failed to read directory " + path);
    }
    configSet.LoadResources(fs);
    assert configSet.View() == LoadedView(fs, path);
    r := Success(configSet);
  }
}
