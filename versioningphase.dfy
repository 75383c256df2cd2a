/** The versioning phase (`DefaultVersioningStrategy`): for every built
    entity it reads the entity's version folder, decides with the shared
    table whether and under which number to stage it, and stages a versioned
    and an unversioned copy under `versioning:` keys. It writes no file; the
    one change to the disk is the version folder it creates for an entity
    that has no version yet. */
module VersioningPhase {
  import opened Wrappers
  import opened Strings
  import opened OrderedMaps
  import opened JsonValues
  import opened Host
  import opened FileStores
  import opened ConfigSetManagers
  import opened PipelineContexts
  import opened VersionRules

  // ---------------------------------------------------------------------------
  // the entities
  // ---------------------------------------------------------------------------

  /** `getEntitiesFromContext` of this phase: every `build:` entry of any
      type, by resource id. */
  function BuiltEntities(data: OMap<Json>): OMap<Json>
  {
    PhaseEntries(data, "build")
  }

  // ---------------------------------------------------------------------------
  // the staged copies
  // ---------------------------------------------------------------------------

  /** `id.split('.')[1]` as a template string: `"undefined"` when the id has
      no dot. */
  function TypeSegment(id: string): string
  {
    if SegmentCount(id, '.') > 1 then SplitAt(id, '.', 1) else "undefined"
  }

  /** `{ ...builtObj }`: a shallow copy of the own properties. A non-object
      becomes `{}` here, where spreading an array would give index keys; the
      built entries the phase reads are validated models and merge results,
      which are objects whenever the entities merged are
      (`MergeProperties.MergeKeepsObjects`). */
  function Spread(j: Json): Json
  {
    if j.Obj? then j else Obj([])
  }

  /** `` `${builtObj.$id}.${k}` ``. */
  function VersionedId(built: Json, k: nat): string
  {
    TemplateOf(Prop(built, "$id")) + "." + NatToString(k)
  }

  /** The copy written for version `k`: `$id` suffixed with `.k`, `$version`
      set to `k`, every other property as built. */
  function Versioned(built: Json, k: nat): (v: Json)
    ensures v.Obj?
    ensures Prop(v, "$id") == Some(Str(VersionedId(built, k))) && Prop(v, "$version") == Some(Num(k))
    ensures forall p :: p != "$id" && p != "$version" ==> Prop(v, p) == Prop(built, p)
  {
    SetProp(SetProp(Spread(built), "$id", Str(VersionedId(built, k))), "$version", Num(k))
  }

  /** `newVersionFileContent.$id = originalId`. An absent `$id` is assigned
      `undefined`, which no JSON text keeps: the property is dropped. */
  function WithOriginalId(v: Json, original: Option<Json>): Json
  {
    match original
    case Some(id) => SetProp(v, "$id", id)
    case None => DeleteProp(v, "$id")
  }

  /** The unversioned copy: as the versioned one, with the original `$id`. */
  function Unversioned(built: Json, k: nat): (u: Json)
    ensures u.Obj?
    ensures Prop(u, "$id") == Prop(built, "$id") && Prop(u, "$version") == Some(Num(k))
    ensures forall p :: p != "$id" && p != "$version" ==> Prop(u, p) == Prop(built, p)
  {
    WithOriginalId(Versioned(built, k), Prop(built, "$id"))
  }

  /** The two `setPhaseData` calls for version `k`. */
  function StageVersion(data: OMap<Json>, id: string, built: Json, k: nat): OMap<Json>
  {
    var t := TypeSegment(id);
    var d1 := WithPhaseData(data, "versioning", t, VersionedId(built, k), Versioned(built, k));
    WithPhaseData(d1, "versioning", t, TemplateOf(Prop(built, "$id")), Unversioned(built, k))
  }

  lemma PhaseKeysDiffer(p: string, t: string, i: string, i': string)
    requires i != i'
    ensures PhaseKey(p, t, i) != PhaseKey(p, t, i')
  {
    var pre := p + ":" + t + ":";
    assert PhaseKey(p, t, i) == pre + i && PhaseKey(p, t, i') == pre + i';
    assert (pre + i)[|pre|..] == i && (pre + i')[|pre|..] == i';
  }

  /** Staging version `k` leaves exactly two new `versioning:<type>:` entries:
      the versioned copy under `"<id>.k"` with that `$id`, and the
      unversioned copy under the original id with the original `$id`; both
      carry `$version` `k`. Every other key reads as before. */
  lemma StagedEntries(data: OMap<Json>, id: string, built: Json, k: nat)
    ensures var r := StageVersion(data, id, built, k);
      var t := TypeSegment(id);
      var v := GetPhaseData(r, "versioning", t, VersionedId(built, k));
      var u := GetPhaseData(r, "versioning", t, TemplateOf(Prop(built, "$id")));
      v.Some? && Prop(v.value, "$id") == Some(Str(VersionedId(built, k))) && Prop(v.value, "$version") == Some(Num(k))
      && u.Some? && Prop(u.value, "$id") == Prop(built, "$id") && Prop(u.value, "$version") == Some(Num(k))
      && forall key :: key != PhaseKey("versioning", t, VersionedId(built, k))
                       && key != PhaseKey("versioning", t, TemplateOf(Prop(built, "$id")))
                       ==> Get(r, key) == Get(data, key)
  {
    var t := TypeSegment(id);
    var original := TemplateOf(Prop(built, "$id"));
    assert |VersionedId(built, k)| > |original|;
    PhaseKeysDiffer("versioning", t, VersionedId(built, k), original);
  }

  /** Staging writes `versioning:` keys only: built entries are untouched. */
  lemma StageKeepsOthers(data: OMap<Json>, id: string, built: Json, k: nat, key: string)
    requires !StartsWith(key, "versioning:")
    ensures Get(StageVersion(data, id, built, k), key) == Get(data, key)
  {
    var t := TypeSegment(id);
    PhaseKeyPrefix("versioning", t, VersionedId(built, k));
    PhaseKeyPrefix("versioning", t, TemplateOf(Prop(built, "$id")));
  }

  // ---------------------------------------------------------------------------
  // reading the disk
  // ---------------------------------------------------------------------------

  /** Where an entity's versions live: `<folder of its file>/<file name
      without the first ".json">`. */
  datatype Layout = Layout(folder: string, stem: string)

  function LayoutOf(registry: seq<SetRoot>, id: string): Layout
  {
    var filePath := PathInRegistry(registry, id);
    var stem := ReplaceFirst(LastPart(filePath, '/'), JsonSuffix, "");
    Layout(Dirname(filePath) + "/" + stem, stem)
  }

  /** The file of version `n`. */
  function VersionPath(l: Layout, n: nat): string
  {
    l.folder + "/" + VersionFileName(l.stem, n)
  }

  /** Lines 83-124: the latest version, whether the built value with that
      version's `$id` and `$version` equals the file (read and parsed, both of
      which can throw), and, only when it differs, the git state of that
      file. */
  function ReadDisk(o: Oracles, fs: FileStore, l: Layout, built: Json): (r: Result<DiskState, string>)
    ensures r.Success? ==> LatestVersionOnDisk(fs, l.folder) == Success(r.value.latest)
    ensures r.Success? && r.value.latestChangedInGit ==>
              r.value.latest > 0 && !r.value.sameAsLatest && o.changedInGit(VersionPath(l, r.value.latest))
  {
    match LatestVersionOnDisk(fs, l.folder)
    case Failure(e) => Failure(e)
    case Success(latest) =>
      if latest == 0 then Success(DiskState(0, false, false))
      else
        var path := VersionPath(l, latest);
        match ReadFile(fs, path)
        case Failure(e) => Failure(e)
        case Success(text) =>
          match o.parse(text)
          case Failure(e) => Failure(e)
          case Success(onDisk) =>
            var same := CompareJson(Versioned(built, latest), onDisk);
            Success(DiskState(latest, same, if same then false else o.changedInGit(path)))
  }

  function ReadPlan(disk: Result<DiskState, string>): Result<Action, string>
  {
    match disk
    case Failure(e) => Failure(e)
    case Success(d) => Success(Decide(d))
  }

  /** What the phase does with one entity. */
  function PlanFor(o: Oracles, fs: FileStore, registry: seq<SetRoot>, id: string, built: Json): Result<Action, string>
  {
    ReadPlan(ReadDisk(o, fs, LayoutOf(registry, id), built))
  }

  /** The table in terms of the disk: without a version file the entity gets
      version 1; with latest version N whose file parses, content equal to
      it (compared with that version's `$id` and `$version`) stages nothing,
      and otherwise version N is overwritten if its file is changed in git
      and version N+1 is added if not. */
  lemma PlanMeaning(o: Oracles, fs: FileStore, registry: seq<SetRoot>, id: string, built: Json)
    ensures var l := LayoutOf(registry, id);
      !Exists(fs, l.folder) ==> PlanFor(o, fs, registry, id, built) == Success(Stage(1))
    ensures var l := LayoutOf(registry, id);
      l.folder in fs.dirs && LatestIn(fs.dirs[l.folder]) == 0 ==> PlanFor(o, fs, registry, id, built) == Success(Stage(1))
    ensures var l := LayoutOf(registry, id);
      var n := LatestVersionOnDisk(fs, l.folder);
      n.Success? && n.value > 0 ==>
        var path := VersionPath(l, n.value);
        path in fs.files && path !in fs.dirs && o.parse(fs.files[path]).Success? ==>
          var same := CompareJson(Versioned(built, n.value), o.parse(fs.files[path]).value);
          PlanFor(o, fs, registry, id, built)
          == Success(if same then Keep else if o.changedInGit(path) then Stage(n.value) else Stage(n.value + 1))
  {
  }

  /** The git adapter is consulted only for an entity with a version on disk
      whose content differs: any other answer never changes the plan. */
  lemma GitOnlyOnChange(o: Oracles, g: string -> bool, fs: FileStore, registry: seq<SetRoot>, id: string, built: Json)
    ensures var p := PlanFor(o, fs, registry, id, built);
      var p' := PlanFor(o.(changedInGit := g), fs, registry, id, built);
      p != p' ==> p.Success? && p'.Success? && p.value.Stage? && p'.value.Stage?
                  && LatestVersionOnDisk(fs, LayoutOf(registry, id).folder).value > 0
  {
  }

  // ---------------------------------------------------------------------------
  // the phase
  // ---------------------------------------------------------------------------

  /** What the phase leaves: the blackboard, the disk, and the exception
      that ended the loop. */
  datatype Pass = Pass(board: Board, fs: FileStore, thrown: Option<string>)

  /** One iteration of `processVersioning`; an exception leaves the loop. An
      entity with no version yet first gets its version folder
      (`createDirectory`, which can throw), then its two copies. */
  function VersionEntity(o: Oracles, fs: FileStore, registry: seq<SetRoot>, id: string, built: Json, b: Board): Pass
  {
    match PlanFor(o, fs, registry, id, built)
    case Failure(e) => Pass(b, fs, Some(e))
    case Success(Keep) => Pass(b, fs, None)
    case Success(Stage(k)) =>
      var staged := Board(StageVersion(b.data, id, built, k), b.errors);
      var folder := LayoutOf(registry, id).folder;
      if LatestVersionOnDisk(fs, folder) == Success(0) then
        match MakeDirectories(fs, folder)
        case Failure(e) => Pass(b, fs, Some(e))
        case Success(made) => Pass(staged, made, None)
      else Pass(staged, fs, None)
  }

  /** The loop; each entity sees the disk the previous ones left. */
  function VersionAll(o: Oracles, fs: FileStore, registry: seq<SetRoot>, entities: OMap<Json>, b: Board): Pass
    decreases |entities|
  {
    if |entities| == 0 then Pass(b, fs, None)
    else
      var r := VersionEntity(o, fs, registry, entities[0].key, entities[0].val, b);
      if r.thrown.Some? then r else VersionAll(o, r.fs, registry, entities[1..], r.board)
  }

  /** `DefaultVersioningStrategy.execute`. */
  function VersioningDone(b: Board, o: Oracles, fs: FileStore, registry: seq<SetRoot>): Pass
  {
    VersionAll(o, fs, registry, BuiltEntities(b.data), b)
  }

  /** What the phase may do to the disk: create directories, and nothing
      else; every file reads as before. */
  ghost predicate OnlyFoldersMade(fs: FileStore, fs': FileStore)
  {
    fs'.files == fs.files && fs.dirs.Keys <= fs'.dirs.Keys
  }

  /** The folder is created exactly for an entity staged with no version on
      disk, and then it exists. */
  lemma VersionEntityDisk(o: Oracles, fs: FileStore, registry: seq<SetRoot>, id: string, built: Json, b: Board)
    ensures var r := VersionEntity(o, fs, registry, id, built, b);
      var folder := LayoutOf(registry, id).folder;
      OnlyFoldersMade(fs, r.fs)
      && (r.fs != fs ==> r.thrown.None? && LatestVersionOnDisk(fs, folder) == Success(0) && folder in r.fs.dirs)
  {
  }

  lemma {:induction false} VersionAllDisk(o: Oracles, fs: FileStore, registry: seq<SetRoot>, entities: OMap<Json>, b: Board)
    ensures OnlyFoldersMade(fs, VersionAll(o, fs, registry, entities, b).fs)
    decreases |entities|
  {
    if |entities| > 0 {
      var r := VersionEntity(o, fs, registry, entities[0].key, entities[0].val, b);
      VersionEntityDisk(o, fs, registry, entities[0].key, entities[0].val, b);
      if r.thrown.None? {
        VersionAllDisk(o, r.fs, registry, entities[1..], r.board);
      }
    }
  }

  /** The phase writes no file: it can only add directories. */
  lemma VersioningKeepsFiles(b: Board, o: Oracles, fs: FileStore, registry: seq<SetRoot>)
    ensures OnlyFoldersMade(fs, VersioningDone(b, o, fs, registry).fs)
  {
    VersionAllDisk(o, fs, registry, BuiltEntities(b.data), b);
  }

  /** What the phase may change: `versioning:` entries only, and never the
      error list. */
  ghost predicate OnlyVersioningChanged(b: Board, b': Board)
  {
    b'.errors == b.errors && forall key :: !StartsWith(key, "versioning:") ==> Get(b'.data, key) == Get(b.data, key)
  }

  lemma {:induction false} VersionAllKeepsOthers(o: Oracles, fs: FileStore, registry: seq<SetRoot>, entities: OMap<Json>, b: Board)
    ensures OnlyVersioningChanged(b, VersionAll(o, fs, registry, entities, b).board)
    decreases |entities|
  {
    if |entities| > 0 {
      var r := VersionEntity(o, fs, registry, entities[0].key, entities[0].val, b);
      VersionEntityKeepsOthers(o, fs, registry, entities[0].key, entities[0].val, b);
      if r.thrown.None? {
        VersionAllKeepsOthers(o, r.fs, registry, entities[1..], r.board);
      }
    }
  }

  lemma VersionEntityKeepsOthers(o: Oracles, fs: FileStore, registry: seq<SetRoot>, id: string, built: Json, b: Board)
    ensures OnlyVersioningChanged(b, VersionEntity(o, fs, registry, id, built, b).board)
  {
    var p := PlanFor(o, fs, registry, id, built);
    var r := VersionEntity(o, fs, registry, id, built, b);
    if p.Success? && p.value.Stage? {
      var staged := StageVersion(b.data, id, built, p.value.version);
      assert r.board == b || r.board == Board(staged, b.errors);
      forall key | !StartsWith(key, "versioning:")
        ensures Get(staged, key) == Get(b.data, key)
      {
        StageKeepsOthers(b.data, id, built, p.value.version, key);
      }
    } else {
      assert r.board == b;
    }
  }

  /** The phase adds no error and changes no entry outside `versioning:`;
      in particular every built object stays as it was. */
  lemma VersioningKeepsOthers(b: Board, o: Oracles, fs: FileStore, registry: seq<SetRoot>)
    ensures OnlyVersioningChanged(b, VersioningDone(b, o, fs, registry).board)
  {
    VersionAllKeepsOthers(o, fs, registry, BuiltEntities(b.data), b);
  }

  /** `execute(context)`. */
  method ExecuteVersioning(ctx: PipelineContext, o: Oracles, disk: FileSystem) returns (thrown: Option<string>)
    modifies ctx, disk
    ensures Pass(ctx.Snapshot(), disk.store, thrown) == VersioningDone(old(ctx.Snapshot()), o, old(disk.store), ctx.registry)
  {
    var resources := GetPhaseEntries(ctx, "build");
    ghost var goal := VersionAll(o, disk.store, ctx.registry, resources, ctx.Snapshot());
    assert resources == BuiltEntities(ctx.data);
    var i := 0;
    assert resources[0..] == resources;
    while i < |resources|
      invariant 0 <= i <= |resources|
      invariant VersionAll(o, disk.store, ctx.registry, resources[i..], ctx.Snapshot()) == goal
    {
      VersionAllStep(o, disk.store, ctx.registry, resources, i, ctx.Snapshot());
      thrown := ProcessEntity(ctx, o, disk, resources[i].key, resources[i].val);
      if thrown.Some? {
        return;
      }
      i := i + 1;
    }
    thrown := None;
  }

  /** One turn of `VersionAll`, at position `i` of the entities. */
  lemma VersionAllStep(o: Oracles, fs: FileStore, registry: seq<SetRoot>, entities: OMap<Json>, i: nat, b: Board)
    requires i < |entities|
    ensures var r := VersionEntity(o, fs, registry, entities[i].key, entities[i].val, b);
            VersionAll(o, fs, registry, entities[i..], b) ==
            if r.thrown.Some? then r else VersionAll(o, r.fs, registry, entities[i + 1..], r.board)
  {
    assert entities[i..][0] == entities[i] && entities[i..][1..] == entities[i + 1..];
  }

  /** The body of the loop of `processVersioning`. */
  method ProcessEntity(ctx: PipelineContext, o: Oracles, disk: FileSystem, id: string, builtObj: Json)
    returns (thrown: Option<string>)
    modifies ctx, disk
    ensures Pass(ctx.Snapshot(), disk.store, thrown)
            == VersionEntity(o, old(disk.store), ctx.registry, id, builtObj, old(ctx.Snapshot()))
  {
    var layout := LayoutOf(ctx.registry, id);
    var read := ReadDiskState(o, disk.store, layout, builtObj);
    if read.Failure? {
      return Some(read.error);
    }
    var plan, versionedFileExists := PlanEntity(read.value);
    match plan
    case Keep =>
      thrown := None;
    case Stage(k) =>
      if !versionedFileExists {
        var created := disk.CreateDirectory(layout.folder);
        if created.Failure? {
          return Some(created.error);
        }
      }
      StageInContext(ctx, id, builtObj, k);
      thrown := None;
  }

  /** Lines 83-124 on the disk: the latest version, and only when there is
      one, its file read and parsed, the comparison and, on a difference,
      the git state. */
  method ReadDiskState(o: Oracles, fs: FileStore, layout: Layout, builtObj: Json)
    returns (r: Result<DiskState, string>)
    ensures r == ReadDisk(o, fs, layout, builtObj)
  {
    var latest := LatestVersionOnDisk(fs, layout.folder);
    if latest.Failure? {
      return Failure(latest.error);
    }
    if latest.value == 0 {
      return Success(DiskState(0, false, false));
    }
    var latestPath := VersionPath(layout, latest.value);
    var file := ReadFile(fs, latestPath);
    if file.Failure? {
      return Failure(file.error);
    }
    var parsed := o.parse(file.value);
    if parsed.Failure? {
      return Failure(parsed.error);
    }
    var same := CompareJson(Versioned(builtObj, latest.value), parsed.value);
    var changed := false;
    if !same {
      changed := o.changedInGit(latestPath);
    }
    r := Success(DiskState(latest.value, same, changed));
  }

  /** Lines 126-192 on what was read: the branch taken, and
      `versionedFileExists`, whether the entity has a version on disk. */
  method PlanEntity(d: DiskState) returns (plan: Action, versionedFileExists: bool)
    ensures plan == Decide(d)
    ensures versionedFileExists <==> d.latest != 0
  {
    versionedFileExists := d.latest != 0;
    if !versionedFileExists {
      plan := Stage(1);
    } else if d.sameAsLatest {
      plan := Keep;
    } else if d.latestChangedInGit {
      plan := Stage(d.latest);
    } else {
      plan := Stage(d.latest + 1);
    }
  }

  /** The two `setPhaseData` calls of lines 138-192. */
  method StageInContext(ctx: PipelineContext, id: string, builtObj: Json, version: nat)
    modifies ctx
    ensures ctx.Snapshot() == Board(StageVersion(old(ctx.data), id, builtObj, version), old(ctx.errors))
  {
    var resourceType := TypeSegment(id);
    var content := Versioned(builtObj, version);
    ctx.SetPhaseData("versioning", resourceType, VersionedId(builtObj, version), content);
    content := WithOriginalId(content, Prop(builtObj, "$id"));
    ctx.SetPhaseData("versioning", resourceType, TemplateOf(Prop(builtObj, "$id")), content);
  }
}
