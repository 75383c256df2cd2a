/** The legacy resource registry (`ResourceManager`): every `.json` file of a
    config set's `models`, `schemas` and `instances` folders, parsed, kept by
    its relative reference `../<category>/<file>` and, when it has one, by
    its `$id`. */
module ResourceManagers {
  import opened Wrappers
  import opened Strings
  import opened OrderedMaps
  import opened JsonValues
  import opened FileStores

  /** The adapter's path builders, which the Node adapter does not
      implement: `buildFullPathFromRelativePath(root, fragment)` and
      `buildStripRelPathAndBuildFullPath(root, ref)`. A failure is the
      exception the call throws. */
  datatype PathAdapter = PathAdapter(
    fullFromRelative: (string, string) -> Result<string, string>,
    stripRelativeAndFull: (string, string) -> Result<string, string>)

  /** The folders `loadAll` visits, in order. */
  const Categories: seq<string> := ["models", "schemas", "instances"]

  datatype Maps = Maps(byId: OMap<Json>, byRef: OMap<Json>)

  /** The reference a file is kept under. */
  function RefOf(category: string, file: string): string
  {
    "../" + category + "/" + file
  }

  lemma RefOfInjective(category: string, f: string, g: string)
    ensures RefOf(category, f) == RefOf(category, g) ==> f == g
  {
    var prefix := "../" + category + "/";
    assert RefOf(category, f) == prefix + f && RefOf(category, g) == prefix + g;
    assert (prefix + f)[|prefix|..] == f && (prefix + g)[|prefix|..] == g;
  }

  /** `parsedContent.$id` as the loop reads it: reading a property of `null`
      throws, and so does calling `endsWith` on a truthy `$id` that is not a
      string; a falsy `$id` is skipped. */
  function IdOf(content: Json): (r: Result<Option<string>, string>)
    ensures r.Success? && r.value.Some? ==> r.value.value != "" && Prop(content, "$id") == Some(Str(r.value.value))
    ensures r.Success? && r.value.None? ==> !TruthyOpt(Prop(content, "$id"))
    ensures r.Failure? <==> content.Null? || (TruthyOpt(Prop(content, "$id")) && !Prop(content, "$id").value.Str?)
  {
    match content
    case Null => Failure("Cannot read properties of null (reading '$id')")
    case Obj(fields) =>
      (match Get(fields, "$id")
       case None => Success(None)
       case Some(v) =>
         if !Truthy(v) then Success(None)
         else if v.Str? then Success(Some(v.s))
         else Failure("parsedContent.$id.endsWith is not a function"))
    case _ => Success(None)
  }

  /** Reading, parsing and inspecting one file; none of it depends on what
      was loaded before. */
  function ReadResource(fs: FileStore, parse: string -> Result<Json, string>, filePath: string)
    : Result<(Json, Option<string>), string>
  {
    var content :- ReadFile(fs, filePath);
    var parsed :- parse(content);
    var id :- IdOf(parsed);
    Success((parsed, id))
  }

  /** One `.json` file stored by its `$id` (when truthy) and its reference. */
  function StoreResource(m: Maps, category: string, file: string, parsed: Json, id: Option<string>): Maps
  {
    Maps(if id.Some? then Put(m.byId, id.value, parsed) else m.byId, Put(m.byRef, RefOf(category, file), parsed))
  }

  /** The loop over a listing. The `try` wraps the whole loop, so the first
      file that cannot be read, parsed or inspected ends it, and the files
      after it are not loaded. */
  function LoadFiles(fs: FileStore, parse: string -> Result<Json, string>, directory: string, category: string,
                     files: seq<string>, m: Maps): Maps
    decreases |files|
  {
    if |files| == 0 then m
    else if !EndsWith(files[0], ".json") then LoadFiles(fs, parse, directory, category, files[1..], m)
    else
      match ReadResource(fs, parse, directory + "/" + files[0])
      case Failure(_) => m
      case Success(r) => LoadFiles(fs, parse, directory, category, files[1..], StoreResource(m, category, files[0], r.0, r.1))
  }

  /** `loadResourcesFromDirectory(directory, category)`: a listing that
      cannot be read loads nothing. */
  function LoadDirectory(fs: FileStore, parse: string -> Result<Json, string>, directory: string, category: string,
                         m: Maps): Maps
  {
    match ReadDirectory(fs, directory)
    case Failure(_) => m
    case Success(files) => LoadFiles(fs, parse, directory, category, files, m)
  }

  function LoadCategories(fs: FileStore, parse: string -> Result<Json, string>, root: string, cats: seq<string>,
                          m: Maps): Maps
    decreases |cats|
  {
    if |cats| == 0 then m
    else
      var dirPath := root + "/" + cats[0];
      var m' := if Exists(fs, dirPath) then LoadDirectory(fs, parse, dirPath, cats[0], m) else m;
      LoadCategories(fs, parse, root, cats[1..], m')
  }

  /** `loadAll()`: both maps are cleared first. */
  function LoadAllMaps(fs: FileStore, parse: string -> Result<Json, string>, root: string): Maps
  {
    LoadCategories(fs, parse, root, Categories, Maps([], []))
  }

  /** Every reference the loop adds names a `.json` file of the listing. */
  lemma {:induction false} LoadFilesRefs(fs: FileStore, parse: string -> Result<Json, string>, directory: string,
                                         category: string, files: seq<string>, m: Maps, ref: string)
    requires ref in Keys(LoadFiles(fs, parse, directory, category, files, m).byRef)
    ensures ref in Keys(m.byRef) || exists f :: f in files && EndsWith(f, ".json") && ref == RefOf(category, f)
    decreases |files|
  {
    if |files| > 0 {
      if !EndsWith(files[0], ".json") {
        LoadFilesRefs(fs, parse, directory, category, files[1..], m, ref);
      } else {
        match ReadResource(fs, parse, directory + "/" + files[0])
        case Failure(_) =>
        case Success(r) =>
          var m' := StoreResource(m, category, files[0], r.0, r.1);
          LoadFilesRefs(fs, parse, directory, category, files[1..], m', ref);
      }
    }
  }

  /** A file that fails abandons the rest of its folder: the result is
      that of the files before it alone. */
  lemma {:induction false} LoadFilesAbandons(fs: FileStore, parse: string -> Result<Json, string>, directory: string,
                                             category: string, files: seq<string>, m: Maps, k: nat)
    requires k < |files| && EndsWith(files[k], ".json")
    requires ReadResource(fs, parse, directory + "/" + files[k]).Failure?
    ensures LoadFiles(fs, parse, directory, category, files, m) == LoadFiles(fs, parse, directory, category, files[..k], m)
    decreases |files|
  {
    if k == 0 {
      assert files[..0] == [];
    } else {
      assert files[..k][0] == files[0] && files[..k][1..] == files[1..][..k - 1];
      if !EndsWith(files[0], ".json") {
        LoadFilesAbandons(fs, parse, directory, category, files[1..], m, k - 1);
      } else {
        match ReadResource(fs, parse, directory + "/" + files[0])
        case Failure(_) =>
        case Success(r) =>
          var m' := StoreResource(m, category, files[0], r.0, r.1);
          LoadFilesAbandons(fs, parse, directory, category, files[1..], m', k - 1);
      }
    }
  }

  /** A file that loads is found by its reference, holding its parsed
      content, unless a later file of the listing has the same name. */
  lemma {:induction false} LoadFilesStores(fs: FileStore, parse: string -> Result<Json, string>, directory: string,
                                           category: string, files: seq<string>, m: Maps, k: nat)
    requires k < |files| && EndsWith(files[k], ".json")
    requires forall j :: 0 <= j < k && EndsWith(files[j], ".json") ==> ReadResource(fs, parse, directory + "/" + files[j]).Success?
    requires ReadResource(fs, parse, directory + "/" + files[k]).Success?
    requires forall j :: k < j < |files| ==> files[j] != files[k]
    ensures Get(LoadFiles(fs, parse, directory, category, files, m).byRef, RefOf(category, files[k]))
            == Some(ReadResource(fs, parse, directory + "/" + files[k]).value.0)
    decreases |files|
  {
    if k == 0 {
      var r := ReadResource(fs, parse, directory + "/" + files[0]).value;
      var m' := StoreResource(m, category, files[0], r.0, r.1);
      forall j | 0 <= j < |files[1..]|
        ensures RefOf(category, files[1..][j]) != RefOf(category, files[0])
      {
        assert files[1..][j] == files[j + 1];
        RefOfInjective(category, files[j + 1], files[0]);
      }
      LoadFilesKeeps(fs, parse, directory, category, files[1..], m', RefOf(category, files[0]));
    } else {
      var rest := files[1..];
      assert forall j :: 0 <= j < |rest| ==> rest[j] == files[j + 1];
      assert rest[k - 1] == files[k];
      var m' := if !EndsWith(files[0], ".json") then m
                else
                  var r := ReadResource(fs, parse, directory + "/" + files[0]).value;
                  StoreResource(m, category, files[0], r.0, r.1);
      assert LoadFiles(fs, parse, directory, category, files, m) == LoadFiles(fs, parse, directory, category, rest, m');
      LoadFilesStores(fs, parse, directory, category, rest, m', k - 1);
    }
  }

  /** A reference no file of the listing produces keeps its entry. */
  lemma {:induction false} LoadFilesKeeps(fs: FileStore, parse: string -> Result<Json, string>, directory: string,
                                          category: string, files: seq<string>, m: Maps, ref: string)
    requires forall j :: 0 <= j < |files| ==> RefOf(category, files[j]) != ref
    ensures Get(LoadFiles(fs, parse, directory, category, files, m).byRef, ref) == Get(m.byRef, ref)
    decreases |files|
  {
    if |files| > 0 {
      var rest := files[1..];
      assert forall j :: 0 <= j < |rest| ==> rest[j] == files[j + 1];
      if !EndsWith(files[0], ".json") {
        LoadFilesKeeps(fs, parse, directory, category, rest, m, ref);
      } else {
        match ReadResource(fs, parse, directory + "/" + files[0])
        case Failure(_) =>
        case Success(r) =>
          var m' := StoreResource(m, category, files[0], r.0, r.1);
          LoadFilesKeeps(fs, parse, directory, category, rest, m', ref);
      }
    }
  }

  // ---------------------------------------------------------------------------
  // getResources
  // ---------------------------------------------------------------------------

  datatype Resources = Resources(schemas: OMap<Json>, models: OMap<Json>, instances: OMap<Json>)

  const SchemasPrefix: string := "../schemas/"
  const ModelsPrefix: string := "../models/"
  const InstancesPrefix: string := "../instances/"

  /** One step of the loop: the first matching prefix decides the
      category; a reference with none of them is dropped. */
  function Place(acc: Resources, ref: string, resource: Json): Resources
  {
    if StartsWith(ref, SchemasPrefix) then acc.(schemas := Put(acc.schemas, ref, resource))
    else if StartsWith(ref, ModelsPrefix) then acc.(models := Put(acc.models, ref, resource))
    else if StartsWith(ref, InstancesPrefix) then acc.(instances := Put(acc.instances, ref, resource))
    else acc
  }

  function CategorizeFrom(entries: OMap<Json>, acc: Resources): Resources
    decreases |entries|
  {
    if |entries| == 0 then acc else CategorizeFrom(entries[1..], Place(acc, entries[0].key, entries[0].val))
  }

  function Categorized(byRef: OMap<Json>): Resources
  {
    CategorizeFrom(byRef, Resources([], [], []))
  }

  /** The three prefixes exclude one another. */
  lemma PrefixesExclusive(ref: string)
    ensures !(StartsWith(ref, SchemasPrefix) && StartsWith(ref, ModelsPrefix))
    ensures !(StartsWith(ref, SchemasPrefix) && StartsWith(ref, InstancesPrefix))
    ensures !(StartsWith(ref, ModelsPrefix) && StartsWith(ref, InstancesPrefix))
  {
    if StartsWith(ref, SchemasPrefix) {
      assert ref[3] == ref[..|SchemasPrefix|][3] == 's';
    }
    if StartsWith(ref, ModelsPrefix) {
      assert ref[3] == ref[..|ModelsPrefix|][3] == 'm';
    }
  }

  /** Each reference lands in exactly the category its prefix names,
      holding its resource, and in no other. */
  lemma {:induction false} CategorizeFromMeaning(entries: OMap<Json>, acc: Resources, ref: string)
    requires DistinctKeys(entries)
    ensures var r := CategorizeFrom(entries, acc);
      var here := ref in Keys(entries);
      && Get(r.schemas, ref) == (if here && StartsWith(ref, SchemasPrefix) then Get(entries, ref) else Get(acc.schemas, ref))
      && Get(r.models, ref) == (if here && StartsWith(ref, ModelsPrefix) then Get(entries, ref) else Get(acc.models, ref))
      && Get(r.instances, ref) == (if here && StartsWith(ref, InstancesPrefix) then Get(entries, ref) else Get(acc.instances, ref))
    decreases |entries|
  {
    if |entries| > 0 {
      var rest := entries[1..];
      assert forall j :: 0 <= j < |rest| ==> rest[j] == entries[j + 1];
      assert DistinctKeys(rest);
      PrefixesExclusive(ref);
      CategorizeFromMeaning(rest, Place(acc, entries[0].key, entries[0].val), ref);
      if ref == entries[0].key {
        assert ref !in Keys(rest);
      }
    }
  }

  lemma CategorizedMeaning(byRef: OMap<Json>, ref: string)
    requires DistinctKeys(byRef)
    ensures var r := Categorized(byRef);
      && Get(r.schemas, ref) == (if StartsWith(ref, SchemasPrefix) then Get(byRef, ref) else None)
      && Get(r.models, ref) == (if StartsWith(ref, ModelsPrefix) then Get(byRef, ref) else None)
      && Get(r.instances, ref) == (if StartsWith(ref, InstancesPrefix) then Get(byRef, ref) else None)
  {
    CategorizeFromMeaning(byRef, Resources([], [], []), ref);
    if ref !in Keys(byRef) {
      assert Get(byRef, ref) == None;
    }
  }

  /** Every map built by `Put` from nothing has distinct keys. */
  lemma {:induction false} LoadFilesDistinct(fs: FileStore, parse: string -> Result<Json, string>, directory: string,
                                             category: string, files: seq<string>, m: Maps)
    requires DistinctKeys(m.byRef) && DistinctKeys(m.byId)
    ensures var r := LoadFiles(fs, parse, directory, category, files, m);
      DistinctKeys(r.byRef) && DistinctKeys(r.byId)
    decreases |files|
  {
    if |files| > 0 {
      if !EndsWith(files[0], ".json") {
        LoadFilesDistinct(fs, parse, directory, category, files[1..], m);
      } else {
        match ReadResource(fs, parse, directory + "/" + files[0])
        case Failure(_) =>
        case Success(r) =>
          PutKeepsDistinct(m.byRef, RefOf(category, files[0]), r.0);
          if r.1.Some? {
            PutKeepsDistinct(m.byId, r.1.value, r.0);
          }
          LoadFilesDistinct(fs, parse, directory, category, files[1..], StoreResource(m, category, files[0], r.0, r.1));
      }
    }
  }

  lemma {:induction false} LoadCategoriesDistinct(fs: FileStore, parse: string -> Result<Json, string>, root: string,
                                                  cats: seq<string>, m: Maps)
    requires DistinctKeys(m.byRef) && DistinctKeys(m.byId)
    ensures var r := LoadCategories(fs, parse, root, cats, m);
      DistinctKeys(r.byRef) && DistinctKeys(r.byId)
    decreases |cats|
  {
    if |cats| > 0 {
      var dirPath := root + "/" + cats[0];
      if Exists(fs, dirPath) && ReadDirectory(fs, dirPath).Success? {
        LoadFilesDistinct(fs, parse, dirPath, cats[0], ReadDirectory(fs, dirPath).value, m);
      }
      var m' := if Exists(fs, dirPath) then LoadDirectory(fs, parse, dirPath, cats[0], m) else m;
      LoadCategoriesDistinct(fs, parse, root, cats[1..], m');
    }
  }

  /** After `loadAll`, `getResources` files every loaded reference under the
      category its prefix names. */
  lemma LoadedResourcesCategorized(fs: FileStore, parse: string -> Result<Json, string>, root: string, ref: string)
    ensures var m := LoadAllMaps(fs, parse, root);
      var r := Categorized(m.byRef);
      && Get(r.schemas, ref) == (if StartsWith(ref, SchemasPrefix) then Get(m.byRef, ref) else None)
      && Get(r.models, ref) == (if StartsWith(ref, ModelsPrefix) then Get(m.byRef, ref) else None)
      && Get(r.instances, ref) == (if StartsWith(ref, InstancesPrefix) then Get(m.byRef, ref) else None)
  {
    LoadCategoriesDistinct(fs, parse, root, Categories, Maps([], []));
    CategorizedMeaning(LoadAllMaps(fs, parse, root).byRef, ref);
  }

  // ---------------------------------------------------------------------------
  // the manager object
  // ---------------------------------------------------------------------------

  class ResourceManager {
    /** The config set's path. */
    const root: string
    var resourcesById: OMap<Json>
    var resourcesByRef: OMap<Json>

    constructor(root: string)
      ensures this.root == root && resourcesById == [] && resourcesByRef == []
    {
      this.root := root;
      resourcesById := [];
      resourcesByRef := [];
    }

    function Snapshot(): Maps
      reads this
    {
      Maps(resourcesById, resourcesByRef)
    }

    /** `loadAll()`: the maps afterwards depend on the disk alone. */
    method LoadAll(fs: FileStore, parse: string -> Result<Json, string>)
      modifies this
      ensures Snapshot() == LoadAllMaps(fs, parse, root)
    {
      resourcesById := [];
      resourcesByRef := [];
      ghost var goal := LoadAllMaps(fs, parse, root);
      var directories := Categories;
      var i := 0;
      assert directories[0..] == directories;
      while i < |directories|
        invariant 0 <= i <= |directories|
        invariant LoadCategories(fs, parse, root, directories[i..], Snapshot()) == goal
      {
        ghost var rest := directories[i..];
        assert rest[0] == directories[i] && rest[1..] == directories[i + 1..];
        var dirPath := root + "/" + directories[i];
        if Exists(fs, dirPath) {
          LoadResourcesFromDirectory(fs, parse, dirPath, directories[i]);
        }
        i := i + 1;
      }
    }

    /** `loadResourcesFromDirectory(directory, category)`. */
    method LoadResourcesFromDirectory(fs: FileStore, parse: string -> Result<Json, string>, directory: string,
                                      category: string)
      modifies this
      ensures Snapshot() == LoadDirectory(fs, parse, directory, category, old(Snapshot()))
    {
      var listing := ReadDirectory(fs, directory);
      if listing.Failure? {
        return;
      }
      var files := listing.value;
      ghost var goal := LoadFiles(fs, parse, directory, category, files, Snapshot());
      var i := 0;
      assert files[0..] == files;
      while i < |files|
        invariant 0 <= i <= |files|
        invariant LoadFiles(fs, parse, directory, category, files[i..], Snapshot()) == goal
      {
        ghost var rest := files[i..];
        assert rest[0] == files[i] && rest[1..] == files[i + 1..];
        var file := files[i];
        if EndsWith(file, ".json") {
          var loaded := ReadResource(fs, parse, directory + "/" + file);
          if loaded.Failure? {
            return;
          }
          var (parsedContent, id) := loaded.value;
          if id.Some? {
            resourcesById := Put(resourcesById, id.value, parsedContent);
          }
          resourcesByRef := Put(resourcesByRef, RefOf(category, file), parsedContent);
        }
        i := i + 1;
      }
    }

    /** `getResourceById(id)`: `null` for an absent id, and for a stored
        value that is falsy. */
    function GetResourceById(id: string): (r: Option<Json>)
      reads this
      ensures r.Some? <==> TruthyOpt(Get(resourcesById, id))
      ensures r.Some? ==> Get(resourcesById, id) == r
    {
      match Get(resourcesById, id)
      case Some(v) => if Truthy(v) then Some(v) else None
      case None => None
    }

    /** `getResourceByRef(ref)`, likewise. */
    function GetResourceByRef(ref: string): (r: Option<Json>)
      reads this
      ensures r.Some? <==> TruthyOpt(Get(resourcesByRef, ref))
      ensures r.Some? ==> Get(resourcesByRef, ref) == r
    {
      match Get(resourcesByRef, ref)
      case Some(v) => if Truthy(v) then Some(v) else None
      case None => None
    }

    /** `getResources()`. */
    method GetResources() returns (r: Resources)
      ensures r == Categorized(resourcesByRef)
    {
      var schemas: OMap<Json> := [];
      var models: OMap<Json> := [];
      var instances: OMap<Json> := [];
      var entries := resourcesByRef;
      var i := 0;
      assert entries[0..] == entries;
      while i < |entries|
        invariant 0 <= i <= |entries|
        invariant CategorizeFrom(entries[i..], Resources(schemas, models, instances)) == Categorized(entries)
      {
        ghost var rest := entries[i..];
        assert rest[0] == entries[i] && rest[1..] == entries[i + 1..];
        var ref := entries[i].key;
        if StartsWith(ref, SchemasPrefix) {
          schemas := Put(schemas, ref, entries[i].val);
        } else if StartsWith(ref, ModelsPrefix) {
          models := Put(models, ref, entries[i].val);
        } else if StartsWith(ref, InstancesPrefix) {
          instances := Put(instances, ref, entries[i].val);
        }
        i := i + 1;
      }
      r := Resources(schemas, models, instances);
    }
  }
}
