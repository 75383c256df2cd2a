/** The serialization phase (`DefaultSerializationStrategy`): every `output:`
    entry, by resource id, written to the file the id names under the config
    set's root, its directory created when missing. The blackboard is not
    changed; the disk is. */
module Serialization {
  import opened Wrappers
  import opened Strings
  import opened OrderedMaps
  import opened JsonValues
  import opened FileStores
  import opened PipelineContexts
  import NodeFs

  function Failed(id: string, e: string): string
  {
    "Failed to serialize " + id + ": " + e
  }

  /** `ensureDirectoryExists`: `mkdir -p` when nothing is at the path. */
  function EnsureDirectory(fs: FileStore, dirPath: string): Result<FileStore, string>
  {
    if Exists(fs, dirPath) then Success(fs) else MakeDirectories(fs, dirPath)
  }

  /** One iteration: the path of the id, its directory, the write. The
      stored text is what output conversion left; any other value is refused
      by `writeFile`. */
  function WriteOne(fs: FileStore, root: string, id: string, content: Json): Result<FileStore, string>
  {
    match NodeFs.BuildAbsPathForId(root, id)
    case Failure(e) => Failure(Failed(id, e))
    case Success(absFilePath) =>
      match EnsureDirectory(fs, Dirname(absFilePath))
      case Failure(e) => Failure(Failed(id, e))
      case Success(fs') =>
        if !content.Str? then Failure(Failed(id, "The \"data\" argument must be of type string"))
        else
          match WriteFile(fs', absFilePath, content.s)
          case Failure(e) => Failure(Failed(id, e))
          case Success(fs'') => Success(fs'')
  }

  /** The disk after the writes done so far, and the exception that
      stopped them. */
  datatype Written = Written(fs: FileStore, thrown: Option<string>)

  function WriteAll(fs: FileStore, root: string, entries: OMap<Json>): Written
    decreases |entries|
  {
    if |entries| == 0 then Written(fs, None)
    else
      match WriteOne(fs, root, entries[0].key, entries[0].val)
      case Failure(e) => Written(fs, Some(e))
      case Success(fs') => WriteAll(fs', root, entries[1..])
  }

  /** `execute(context)`: the disk afterwards and the exception, if any;
      the files written before a failing entry stay written. */
  function Serialized(b: Board, root: string, fs: FileStore): Written
  {
    WriteAll(fs, root, PhaseEntries(b.data, "output"))
  }

  /** A written entry reads back as its text. */
  lemma WriteOneStores(fs: FileStore, root: string, id: string, content: Json)
    requires WriteOne(fs, root, id, content).Success?
    ensures content.Str?
    ensures ReadFile(WriteOne(fs, root, id, content).value, NodeFs.BuildAbsPathForId(root, id).value) == Success(content.s)
  {
  }

  /** An id the adapter cannot place stops the phase with its message. */
  lemma BadIdStops(fs: FileStore, root: string, id: string, content: Json)
    requires SegmentCount(id, '.') < 3 || SegmentCount(id, '.') > 4
    ensures WriteOne(fs, root, id, content).Failure?
  {
    NodeFs.RejectsBadIds(root, id);
  }

  /** Files the phase does not write keep their text. */
  lemma {:induction false} WriteAllKeepsOthers(fs: FileStore, root: string, entries: OMap<Json>, path: string)
    requires forall i :: 0 <= i < |entries| ==> NodeFs.BuildAbsPathForId(root, entries[i].key) != Success(path)
    ensures path in fs.files ==> path in WriteAll(fs, root, entries).fs.files
                                 && WriteAll(fs, root, entries).fs.files[path] == fs.files[path]
    decreases |entries|
  {
    if |entries| > 0 && WriteOne(fs, root, entries[0].key, entries[0].val).Success? {
      var fs' := WriteOne(fs, root, entries[0].key, entries[0].val).value;
      assert path in fs.files ==> path in fs'.files && fs'.files[path] == fs.files[path];
      var rest := entries[1..];
      assert forall i :: 0 <= i < |rest| ==> rest[i] == entries[i + 1];
      WriteAllKeepsOthers(fs', root, rest, path);
    }
  }

  /** `execute(context)` on the live disk. */
  method ExecuteSerialization(ctx: PipelineContext, root: string, disk: FileSystem) returns (thrown: Option<string>)
    modifies disk
    ensures Serialized(ctx.Snapshot(), root, old(disk.store)) == Written(disk.store, thrown)
  {
    var outputEntries := GetPhaseEntries(ctx, "output");
    if |outputEntries| == 0 {
      return None;
    }
    ghost var goal := WriteAll(disk.store, root, outputEntries);
    var i := 0;
    assert outputEntries[0..] == outputEntries;
    while i < |outputEntries|
      invariant 0 <= i <= |outputEntries|
      invariant WriteAll(disk.store, root, outputEntries[i..]) == goal
    {
      ghost var rest := outputEntries[i..];
      assert rest[0] == outputEntries[i] && rest[1..] == outputEntries[i + 1..];
      var step := WriteOne(disk.store, root, outputEntries[i].key, outputEntries[i].val);
      if step.Failure? {
        thrown := Some(step.error);
        return;
      }
      disk.store := step.value;
      i := i + 1;
    }
    thrown := None;
  }
}
