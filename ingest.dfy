/** The ingest phase of the file-system pipeline: it stores the target
    model's raw text at `ingest:models:<modelId>`, then walks the reference
    ids found in it, storing each referenced file's raw text under
    `ingest:<category>:<id>` and walking that file in turn. A set of already
    loaded ids, kept on the strategy object and reset by each run, makes every
    id be read and walked at most once. */
module Ingest {
  import opened Wrappers
  import opened Strings
  import opened OrderedMaps
  import opened JsonValues
  import opened Sequences
  import opened FileStores
  import opened Host
  import opened ConfigSets
  import opened ConfigSetManagers
  import opened PipelineContexts
  import opened FindElement

  // ---------------------------------------------------------------------------
  // reference ids
  // ---------------------------------------------------------------------------

  const Categories: seq<string> := ["schemas", "models", "instances"]

  /** `isValidId`: three dot-separated parts, or four whose second part is a
      category. The `||` binds looser than `&&`, so any three-part string
      counts, whatever its second part. */
  predicate IsValidId(id: string)
  {
    var n := SegmentCount(id, '.');
    n == 3 || (n == 4 && SplitAt(id, '.', 1) in Categories)
  }

  /** Every three-part string is taken for an id, category or not. */
  lemma ThreePartsAreIds(a: string, b: string, c: string)
    requires '.' !in a && '.' !in b && '.' !in c
    ensures IsValidId(a + "." + b + "." + c)
  {
    SplitThree(a, b, c, '.');
  }

  /** A four-part string is an id exactly when its second part is a category. */
  lemma FourPartsAreIdsIff(a: string, b: string, c: string, d: string)
    requires '.' !in a && '.' !in b && '.' !in c && '.' !in d
    ensures IsValidId(a + "." + b + "." + c + "." + d) <==> b in Categories
  {
    SplitFour(a, b, c, d, '.');
  }

  /** A witness of `ThreePartsAreIds`: a version string such as `"1.0.0"`
      found in a document is walked as a reference. */
  lemma VersionStringIsId()
    ensures IsValidId("1.0.0")
  {
    ThreePartsAreIds("1", "0", "0");
  }

  /** Every string anywhere inside a value, the value itself included:
      the independent description of what `traverse` can reach. */
  function StringLeaves(v: Json): set<string>
    decreases Size(v), 1
  {
    match v
    case Str(s) => {s}
    case Arr(items) => ItemLeaves(items)
    case Obj(fields) => FieldLeaves(fields)
    case _ => {}
  }

  function ItemLeaves(items: seq<Json>): set<string>
    decreases SizeItems(items), 2
  {
    if |items| == 0 then {} else StringLeaves(items[0]) + ItemLeaves(items[1..])
  }

  function FieldLeaves(fields: OMap<Json>): set<string>
    decreases SizeFields(fields), 2
  {
    if |fields| == 0 then {} else StringLeaves(fields[0].val) + FieldLeaves(fields[1..])
  }

  /** One property value as `traverse` meets it: a string that passes
      `isValidId` is added to `refs`, an object or array is traversed, and
      anything else (`null` included) adds nothing. */
  function RefsInValue(v: Json, acc: seq<string>): (r: seq<string>)
    decreases Size(v), 1
    ensures NoDup(acc) ==> NoDup(r)
    ensures forall x :: x in r <==> x in acc || (x in StringLeaves(v) && IsValidId(x))
  {
    match v
    case Str(s) => if IsValidId(s) then AddNew(acc, s) else acc
    case Arr(items) => RefsInItems(items, acc)
    case Obj(fields) => RefsInFields(fields, acc)
    case _ => acc
  }

  function RefsInItems(items: seq<Json>, acc: seq<string>): (r: seq<string>)
    decreases SizeItems(items), 2
    ensures NoDup(acc) ==> NoDup(r)
    ensures forall x :: x in r <==> x in acc || (x in ItemLeaves(items) && IsValidId(x))
  {
    if |items| == 0 then acc else RefsInItems(items[1..], RefsInValue(items[0], acc))
  }

  function RefsInFields(fields: OMap<Json>, acc: seq<string>): (r: seq<string>)
    decreases SizeFields(fields), 2
    ensures NoDup(acc) ==> NoDup(r)
    ensures forall x :: x in r <==> x in acc || (x in FieldLeaves(fields) && IsValidId(x))
  {
    if |fields| == 0 then acc else RefsInFields(fields[1..], RefsInValue(fields[0].val, acc))
  }

  /** `extractReferences`: the distinct id-like strings at any depth below the
      parsed root, in first-seen order; property names are never taken. A
      root that is not an object or array, and text that does not parse,
      give none. */
  function ExtractReferences(parse: string -> Result<Json, string>, content: string): (r: seq<string>)
    ensures NoDup(r)
    ensures forall x :: x in r <==>
      parse(content).Success? && IsObjectLike(parse(content).value)
      && x in StringLeaves(parse(content).value) && IsValidId(x)
  {
    match parse(content)
    case Failure(_) => []
    case Success(j) => if IsObjectLike(j) then RefsInValue(j, []) else []
  }

  // ---------------------------------------------------------------------------
  // the blackboard only grows
  // ---------------------------------------------------------------------------

  /** What ingest may do to a blackboard: append keys, rewrite `ingest:` keys
      and append errors. Every other key reads as before. */
  ghost predicate Grows(b: Board, b': Board)
  {
    Keys(b.data) <= Keys(b'.data)
    && b.errors <= b'.errors
    && forall k :: !StartsWith(k, "ingest:") ==> Get(b'.data, k) == Get(b.data, k)
  }

  lemma GrowsTrans(b: Board, b': Board, b'': Board)
    requires Grows(b, b') && Grows(b', b'')
    ensures Grows(b, b'')
  {
  }

  lemma IngestKeyPrefix(resourceType: string, resourceId: string)
    ensures StartsWith(PhaseKey("ingest", resourceType, resourceId), "ingest:")
  {
    assert PhaseKey("ingest", resourceType, resourceId) == "ingest:" + (resourceType + ":" + resourceId);
  }

  /** The blackboard after `setPhaseData(context, 'ingest', ...)`. */
  function Store(b: Board, resourceType: string, resourceId: string, text: string): (b': Board)
    ensures Grows(b, b')
    ensures PhaseKey("ingest", resourceType, resourceId) in Keys(b'.data)
  {
    IngestKeyPrefix(resourceType, resourceId);
    Board(WithPhaseData(b.data, "ingest", resourceType, resourceId, Str(text)), b.errors)
  }

  function Push(b: Board, e: ValidationError): (b': Board)
    ensures Grows(b, b')
  {
    Board(b.data, b.errors + [e])
  }

  /** The key an id's text is stored under. */
  predicate Stored(b: Board, id: string)
  {
    PhaseKey("ingest", SplitAt(id, '.', 1), id) in Keys(b.data)
  }

  lemma GrowsKeepsStored(b: Board, b': Board, id: string)
    requires Grows(b, b') && Stored(b, id)
    ensures Stored(b', id)
  {
    var k := PhaseKey("ingest", SplitAt(id, '.', 1), id);
    var i :| 0 <= i < |Keys(b.data)| && Keys(b.data)[i] == k;
    assert Keys(b'.data)[i] == k;
  }

  // ---------------------------------------------------------------------------
  // handleRefError
  // ---------------------------------------------------------------------------

  const NoIdMessage: string := "No $id found in source document - cannot parse"

  /** The exception `buildAbsFilePathById` raises for an `$id` that is not a
      string. */
  const IdNotAString: string := "TypeError: id.split is not a function"

  /** The exception `type.charAt(0)` raises for an `$id` with fewer than two
      dot-separated parts. */
  const NoCategory: string := "TypeError: Cannot read properties of undefined (reading 'charAt')"

  function RefMessage(refId: string): string
  {
    "Unable to resolve ref: " + refId
  }

  function NoIdError(filePath: string): ValidationError
  {
    ValidationError(filePath, 0, 0, 0, NoIdMessage, Error)
  }

  function RefError(absPath: string, pos: FieldPosition, refId: string): ValidationError
  {
    ValidationError(absPath, pos.line, pos.startChar, pos.endChar, RefMessage(refId), Error)
  }

  predicate IsStr(o: Option<Json>)
  {
    o.Some? && o.value.Str?
  }

  /** `handleRefError`: one error against the referencing document's file,
      positioned where the reference id appears in its pretty-printed text.
      An `$id` that is not a string throws before anything is pushed; an
      `$id` without a second part throws after the push. */
  function RefErrorOutcome(registry: seq<SetRoot>, pretty: Json -> string, doc: Json,
                           sourceDocId: Option<Json>, refId: string, b: Board): (r: Outcome)
    ensures r.board.data == b.data && b.errors <= r.board.errors
    ensures IsStr(sourceDocId) <==> |r.board.errors| == |b.errors| + 1
    ensures !IsStr(sourceDocId) ==> r.board == b
    ensures forall k :: |b.errors| <= k < |r.board.errors| ==>
      r.board.errors[k].message == RefMessage(refId) && r.board.errors[k].severity == Error
    ensures r.thrown.None? <==> IsStr(sourceDocId) && SegmentCount(sourceDocId.value.s, '.') >= 2
  {
    if !IsStr(sourceDocId) then Outcome(b, Some(IdNotAString))
    else
      var id := sourceDocId.value.s;
      var pos := FindFieldPositionInFile(pretty(doc), refId, true);
      var b' := Push(b, RefError(PathInRegistry(registry, id), pos, refId));
      Outcome(b', if SegmentCount(id, '.') < 2 then Some(NoCategory) else None)
  }

  // ---------------------------------------------------------------------------
  // recursivelyResolveReferences
  // ---------------------------------------------------------------------------

  /** The state a walk leaves: the blackboard, the already-loaded set, and the
      exception that escaped, if any. */
  datatype Walk = Walk(board: Board, loaded: set<string>, thrown: Option<string>)

  /** Every id any stored file can mention: bounds the walk. */
  ghost function Universe(fs: FileStore, parse: string -> Result<Json, string>): set<string>
  {
    RefsOfTexts(fs.files.Values, parse)
  }

  ghost function RefsOfTexts(texts: set<string>, parse: string -> Result<Json, string>): set<string>
    decreases texts
  {
    if texts == {} then {}
    else
      var t :| t in texts;
      (set x | x in ExtractReferences(parse, t)) + RefsOfTexts(texts - {t}, parse)
  }

  lemma {:induction false} RefsInTexts(texts: set<string>, parse: string -> Result<Json, string>, content: string)
    requires content in texts
    ensures forall x :: x in ExtractReferences(parse, content) ==> x in RefsOfTexts(texts, parse)
    decreases texts
  {
    var t :| t in texts && RefsOfTexts(texts, parse)
      == (set x | x in ExtractReferences(parse, t)) + RefsOfTexts(texts - {t}, parse);
    if t != content {
      RefsInTexts(texts - {t}, parse, content);
    }
  }

  lemma RefsInUniverse(fs: FileStore, parse: string -> Result<Json, string>, content: string)
    requires content in fs.files.Values
    ensures forall x :: x in ExtractReferences(parse, content) ==> x in Universe(fs, parse)
  {
    RefsInTexts(fs.files.Values, parse, content);
  }

  /** What a walk promises: the loaded set only grows, and only by ids some
      stored file mentions; the blackboard only grows; every id it loads has
      its text stored. */
  ghost predicate WalkFacts(fs: FileStore, parse: string -> Result<Json, string>, b: Board, loaded: set<string>, w: Walk)
  {
    loaded <= w.loaded && w.loaded <= loaded + Universe(fs, parse)
    && Grows(b, w.board)
    && forall x :: x in w.loaded && x !in loaded ==> Stored(w.board, x)
  }

  /** A reference that cannot be resolved inside the `try`: `handleRefError`
      runs; when it throws, the `catch` runs it once more and its second
      exception escapes. */
  function Unresolved(registry: seq<SetRoot>, pretty: Json -> string, doc: Json, sourceDocId: Option<Json>,
                      refId: string, b: Board, loaded: set<string>): (w: Walk)
    ensures w.loaded == loaded && Grows(b, w.board)
  {
    var h := RefErrorOutcome(registry, pretty, doc, sourceDocId, refId, b);
    if h.thrown.None? then Walk(h.board, loaded, None)
    else
      var h2 := RefErrorOutcome(registry, pretty, doc, sourceDocId, refId, h.board);
      Walk(h2.board, loaded, h2.thrown)
  }

  /** An exception caught by the loop's `catch`: `handleRefError` runs once
      and whatever it throws escapes. */
  function Caught(registry: seq<SetRoot>, pretty: Json -> string, doc: Json, sourceDocId: Option<Json>,
                  refId: string, b: Board, loaded: set<string>): (w: Walk)
    ensures w.loaded == loaded && Grows(b, w.board)
  {
    var h := RefErrorOutcome(registry, pretty, doc, sourceDocId, refId, b);
    Walk(h.board, loaded, h.thrown)
  }

  /** `recursivelyResolveReferences(context, filePath, content)`: text that
      does not parse, or parses to `null`, records one error at 0:0 and loads
      nothing; otherwise each extracted reference is resolved in turn. */
  function ResolveDoc(fs: FileStore, registry: seq<SetRoot>, o: Oracles, filePath: string, content: string,
                      b: Board, loaded: set<string>): (w: Walk)
    requires content in fs.files.Values
    ensures WalkFacts(fs, o.parse, b, loaded, w)
    decreases Remaining(Universe(fs, o.parse), loaded), 2
  {
    var p := o.parse(content);
    if p.Failure? || p.value.Null? then Walk(Push(b, NoIdError(filePath)), loaded, None)
    else
      RefsInUniverse(fs, o.parse, content);
      ResolveRefs(fs, registry, o, p.value, Prop(p.value, "$id"), ExtractReferences(o.parse, content), b, loaded)
  }

  /** The loop over the extracted references; an exception leaves it. */
  function ResolveRefs(fs: FileStore, registry: seq<SetRoot>, o: Oracles, doc: Json, sourceDocId: Option<Json>,
                       refs: seq<string>, b: Board, loaded: set<string>): (w: Walk)
    requires forall x :: x in refs ==> x in Universe(fs, o.parse)
    ensures WalkFacts(fs, o.parse, b, loaded, w)
    decreases Remaining(Universe(fs, o.parse), loaded), 1, |refs|
  {
    if |refs| == 0 then Walk(b, loaded, None)
    else
      var s := ResolveRef(fs, registry, o, doc, sourceDocId, refs[0], b, loaded);
      if s.thrown.Some? then s
      else
        SeeMore(Universe(fs, o.parse), loaded, s.loaded);
        var w := ResolveRefs(fs, registry, o, doc, sourceDocId, refs[1..], s.board, s.loaded);
        GrowsTrans(b, s.board, w.board);
        forall x | x in w.loaded && x !in loaded
          ensures Stored(w.board, x)
        {
          if x in s.loaded {
            GrowsKeepsStored(s.board, w.board, x);
          }
        }
        w
  }

  /** One turn of the loop: an id already loaded is skipped; an id without a
      path, or whose file is empty, is reported; a read that throws is
      reported by the `catch`; otherwise the file is loaded and walked. */
  function ResolveRef(fs: FileStore, registry: seq<SetRoot>, o: Oracles, doc: Json, sourceDocId: Option<Json>,
                      refId: string, b: Board, loaded: set<string>): (w: Walk)
    requires refId in Universe(fs, o.parse)
    ensures WalkFacts(fs, o.parse, b, loaded, w)
    decreases Remaining(Universe(fs, o.parse), loaded), 1, 0
  {
    if refId in loaded then Walk(b, loaded, None)
    else
      var absPath := PathInRegistry(registry, refId);
      if absPath == "" then Unresolved(registry, o.pretty, doc, sourceDocId, refId, b, loaded)
      else
        match ReadFile(fs, absPath)
        case Failure(_) => Caught(registry, o.pretty, doc, sourceDocId, refId, b, loaded)
        case Success(text) =>
          if text == "" then Unresolved(registry, o.pretty, doc, sourceDocId, refId, b, loaded)
          else LoadRef(fs, registry, o, doc, sourceDocId, refId, absPath, text, b, loaded)
  }

  /** A reference whose file was read: its text is stored, the id marked
      loaded, and the file walked; an exception from that walk is reported by
      the `catch` against this reference. */
  function LoadRef(fs: FileStore, registry: seq<SetRoot>, o: Oracles, doc: Json, sourceDocId: Option<Json>,
                   refId: string, absPath: string, text: string, b: Board, loaded: set<string>): (w: Walk)
    requires refId in Universe(fs, o.parse) && refId !in loaded && text in fs.files.Values
    ensures WalkFacts(fs, o.parse, b, loaded, w)
    decreases Remaining(Universe(fs, o.parse), loaded), 0, 0
  {
    var b1 := Store(b, SplitAt(refId, '.', 1), refId, text);
    SeeNew(Universe(fs, o.parse), loaded, refId);
    var child := ResolveDoc(fs, registry, o, absPath, text, b1, loaded + {refId});
    GrowsTrans(b, b1, child.board);
    GrowsKeepsStored(b1, child.board, refId);
    if child.thrown.None? then child
    else
      var w := Caught(registry, o.pretty, doc, sourceDocId, refId, child.board, child.loaded);
      GrowsTrans(b, child.board, w.board);
      forall x | x in w.loaded && x !in loaded
        ensures Stored(w.board, x)
      {
        GrowsKeepsStored(child.board, w.board, x);
      }
      w
  }

  // ---------------------------------------------------------------------------
  // execute
  // ---------------------------------------------------------------------------

  function NotInSet(modelId: string): string
  {
    "Model ID " + modelId + " not found in config set."
  }

  /** `execute(context)`: the model's path from the config set's index, its
      text read and checked, stored at `ingest:models:<modelId>`, the loaded
      set reset, and the text walked. `prior` is the loaded set left by an
      earlier run, which the early exceptions leave in place. */
  function Ingested(cv: SetView, modelId: string, fs: FileStore, registry: seq<SetRoot>, o: Oracles,
                    b: Board, prior: set<string>): Walk
  {
    var resourcePath := Get(cv.models, modelId);
    if resourcePath.None? || resourcePath.value == "" then Walk(b, prior, Some(NotInSet(modelId)))
    else
      var path := resourcePath.value;
      match ReadFile(fs, path)
      case Failure(e) => Walk(b, prior, Some(e))
      case Success(content) =>
        if content == "" then Walk(b, prior, Some("File not found at: " + path))
        else if content == "\"\"" then Walk(b, prior, Some("File is empty: " + path))
        else ResolveDoc(fs, registry, o, path, content, Store(b, "models", modelId, content), {})
  }

  /** A model id the config set does not index throws before anything is
      written. */
  lemma UnknownModelThrows(cv: SetView, modelId: string, fs: FileStore, registry: seq<SetRoot>, o: Oracles,
                           b: Board, prior: set<string>)
    requires Get(cv.models, modelId).None?
    ensures Ingested(cv, modelId, fs, registry, o, b, prior) == Walk(b, prior, Some(NotInSet(modelId)))
  {
  }

  /** Empty text and the text `""` throw before anything is written. */
  lemma EmptyModelThrows(cv: SetView, modelId: string, fs: FileStore, registry: seq<SetRoot>, o: Oracles,
                         b: Board, prior: set<string>, path: string)
    requires Get(cv.models, modelId) == Some(path) && path != ""
    requires path in fs.files && path !in fs.dirs && fs.files[path] in {"", "\"\""}
    ensures var w := Ingested(cv, modelId, fs, registry, o, b, prior);
      w.board == b && w.loaded == prior && w.thrown.Some?
  {
  }

  /** A run that completes has stored the model's text at
      `ingest:models:<modelId>`, stored every id it loaded, loaded only ids
      some stored file mentions, kept every non-ingest key, and only appended
      errors. */
  lemma IngestedStoresModel(cv: SetView, modelId: string, fs: FileStore, registry: seq<SetRoot>, o: Oracles,
                            b: Board, prior: set<string>)
    ensures var w := Ingested(cv, modelId, fs, registry, o, b, prior);
      w.thrown.None? ==>
        GetPhaseData(w.board.data, "ingest", "models", modelId).Some?
        && Grows(b, w.board)
        && w.loaded <= Universe(fs, o.parse)
        && forall x :: x in w.loaded ==> Stored(w.board, x)
  {
    var w := Ingested(cv, modelId, fs, registry, o, b, prior);
    var resourcePath := Get(cv.models, modelId);
    if w.thrown.None? {
      var path := resourcePath.value;
      var content := ReadFile(fs, path).value;
      var b1 := Store(b, "models", modelId, content);
      assert w == ResolveDoc(fs, registry, o, path, content, b1, {});
      assert GetPhaseData(b1.data, "ingest", "models", modelId).Some?;
      var k := PhaseKey("ingest", "models", modelId);
      var i :| 0 <= i < |Keys(b1.data)| && Keys(b1.data)[i] == k;
      assert Keys(w.board.data)[i] == k;
      GrowsTrans(b, b1, w.board);
    }
  }

  /** Text that does not parse records exactly one error, at 0:0 against its
      own file, and neither loads nor stores anything. */
  lemma UnparsableDocument(fs: FileStore, registry: seq<SetRoot>, o: Oracles, filePath: string, content: string,
                           b: Board, loaded: set<string>)
    requires content in fs.files.Values && o.parse(content).Failure?
    ensures ResolveDoc(fs, registry, o, filePath, content, b, loaded)
      == Walk(Board(b.data, b.errors + [ValidationError(filePath, 0, 0, 0, NoIdMessage, Error)]), loaded, None)
  {
  }

  /** An id already loaded is neither read, stored nor walked again. */
  lemma LoadedRefSkipped(fs: FileStore, registry: seq<SetRoot>, o: Oracles, doc: Json, sourceDocId: Option<Json>,
                         refId: string, b: Board, loaded: set<string>)
    requires refId in Universe(fs, o.parse) && refId in loaded
    ensures ResolveRef(fs, registry, o, doc, sourceDocId, refId, b, loaded) == Walk(b, loaded, None)
  {
  }

  /** A reference no config set resolves is reported once, against the
      referencing document's file at the reference's position, and the loop
      goes on, as long as that document's `$id` has a category part. */
  lemma UnresolvedRefReported(fs: FileStore, registry: seq<SetRoot>, o: Oracles, doc: Json, id: string,
                              refId: string, b: Board, loaded: set<string>)
    requires refId in Universe(fs, o.parse) && refId !in loaded
    requires PathInRegistry(registry, refId) == "" && SegmentCount(id, '.') >= 2
    ensures ResolveRef(fs, registry, o, doc, Some(Str(id)), refId, b, loaded)
      == Walk(Board(b.data, b.errors + [RefError(PathInRegistry(registry, id),
                                                 FindFieldPositionInFile(o.pretty(doc), refId, true), refId)]),
              loaded, None)
  {
  }

  /** When the referencing document has no string `$id`, an unresolved
      reference escapes as an exception without any error recorded. */
  lemma UnresolvedWithoutId(fs: FileStore, registry: seq<SetRoot>, o: Oracles, doc: Json, sourceDocId: Option<Json>,
                            refId: string, b: Board, loaded: set<string>)
    requires refId in Universe(fs, o.parse) && refId !in loaded
    requires PathInRegistry(registry, refId) == "" && !IsStr(sourceDocId)
    ensures ResolveRef(fs, registry, o, doc, sourceDocId, refId, b, loaded) == Walk(b, loaded, Some(IdNotAString))
  {
  }

  /** With a one-part `$id`, an unresolved reference is reported twice (once
      in the `try`, once in the `catch`) and then escapes. */
  lemma UnresolvedWithBareId(fs: FileStore, registry: seq<SetRoot>, o: Oracles, doc: Json, id: string,
                             refId: string, b: Board, loaded: set<string>)
    requires refId in Universe(fs, o.parse) && refId !in loaded
    requires PathInRegistry(registry, refId) == "" && SegmentCount(id, '.') < 2
    ensures var w := ResolveRef(fs, registry, o, doc, Some(Str(id)), refId, b, loaded);
      |w.board.errors| == |b.errors| + 2 && w.thrown == Some(NoCategory)
  {
  }

  // ---------------------------------------------------------------------------
  // the strategy object
  // ---------------------------------------------------------------------------

  /** `FileSystemIngestStrategy`, reading through a file store. */
  class IngestStrategy {
    var alreadyLoaded: set<string>

    constructor()
      ensures alreadyLoaded == {}
    {
      alreadyLoaded := {};
    }

    method Execute(ctx: PipelineContext, fs: FileStore, o: Oracles) returns (thrown: Option<string>)
      modifies this, ctx
      ensures var w := Ingested(ctx.configSet, ctx.modelId, fs, ctx.registry, o, old(ctx.Snapshot()), old(alreadyLoaded));
        ctx.Snapshot() == w.board && alreadyLoaded == w.loaded && thrown == w.thrown
    {
      var resourcePath := Get(ctx.configSet.models, ctx.modelId);
      if resourcePath.None? || resourcePath.value == "" {
        thrown := Some(NotInSet(ctx.modelId));
        return;
      }
      var path := resourcePath.value;
      var read := ReadFile(fs, path);
      if read.Failure? {
        thrown := Some(read.error);
        return;
      }
      var content := read.value;
      if content == "" {
        thrown := Some("File not found at: " + path);
        return;
      }
      if content == "\"\"" {
        thrown := Some("File is empty: " + path);
        return;
      }
      ctx.SetPhaseData("ingest", "models", ctx.modelId, Str(content));
      alreadyLoaded := {};
      thrown := RecursivelyResolveReferences(ctx, fs, o, path, content);
    }

    method RecursivelyResolveReferences(ctx: PipelineContext, fs: FileStore, o: Oracles, filePath: string, content: string)
      returns (thrown: Option<string>)
      requires content in fs.files.Values
      modifies this, ctx
      ensures Walk(ctx.Snapshot(), alreadyLoaded, thrown)
           == ResolveDoc(fs, ctx.registry, o, filePath, content, old(ctx.Snapshot()), old(alreadyLoaded))
      decreases Remaining(Universe(fs, o.parse), alreadyLoaded), 1
    {
      var refs := ExtractReferences(o.parse, content);
      var p := o.parse(content);
      if p.Failure? || p.value.Null? {
        ctx.AddErrors([NoIdError(filePath)]);
        return None;
      }
      var doc := p.value;
      var sourceDocId := Prop(doc, "$id");
      RefsInUniverse(fs, o.parse, content);
      ghost var goal := ResolveRefs(fs, ctx.registry, o, doc, sourceDocId, refs, ctx.Snapshot(), alreadyLoaded);
      assert refs[0..] == refs;
      var i := 0;
      while i < |refs|
        invariant 0 <= i <= |refs|
        invariant old(alreadyLoaded) <= alreadyLoaded
        invariant ResolveRefs(fs, ctx.registry, o, doc, sourceDocId, refs[i..], ctx.Snapshot(), alreadyLoaded) == goal
        decreases |refs| - i
      {
        ghost var rest := refs[i..];
        assert rest[0] == refs[i] && rest[1..] == refs[i + 1..];
        assert refs[i] in refs;
        SeeMore(Universe(fs, o.parse), old(alreadyLoaded), alreadyLoaded);
        var t := ResolveReference(ctx, fs, o, doc, sourceDocId, refs[i]);
        if t.Some? {
          return t;
        }
        i := i + 1;
      }
      return None;
    }

    /** One turn of the loop over the extracted references. */
    method ResolveReference(ctx: PipelineContext, fs: FileStore, o: Oracles, doc: Json, sourceDocId: Option<Json>,
                            refId: string) returns (thrown: Option<string>)
      requires refId in Universe(fs, o.parse)
      modifies this, ctx
      ensures Walk(ctx.Snapshot(), alreadyLoaded, thrown)
           == ResolveRef(fs, ctx.registry, o, doc, sourceDocId, refId, old(ctx.Snapshot()), old(alreadyLoaded))
      decreases Remaining(Universe(fs, o.parse), alreadyLoaded), 0, 1
    {
      if refId in alreadyLoaded {
        return None;
      }
      ghost var b, loaded := ctx.Snapshot(), alreadyLoaded;
      ghost var w := ResolveRef(fs, ctx.registry, o, doc, sourceDocId, refId, b, loaded);
      var absPath := PathInRegistry(ctx.registry, refId);
      var read := if absPath == "" then Success("") else ReadFile(fs, absPath);
      if read.Success? && read.value == "" {
        assert w == Unresolved(ctx.registry, o.pretty, doc, sourceDocId, refId, b, loaded);
        thrown := HandleUnresolved(ctx, o.pretty, doc, sourceDocId, refId, loaded);
      } else if read.Failure? {
        assert w == Caught(ctx.registry, o.pretty, doc, sourceDocId, refId, b, loaded);
        thrown := HandleRefError(ctx, o.pretty, doc, sourceDocId, refId);
      } else {
        assert w == LoadRef(fs, ctx.registry, o, doc, sourceDocId, refId, absPath, read.value, b, loaded);
        thrown := LoadReference(ctx, fs, o, doc, sourceDocId, refId, absPath, read.value);
      }
    }

    /** A reference with no file or an empty one: `handleRefError` runs, and
        once more in the `catch` when the first call threw. */
    method HandleUnresolved(ctx: PipelineContext, pretty: Json -> string, doc: Json, sourceDocId: Option<Json>,
                            refId: string, ghost loaded: set<string>) returns (thrown: Option<string>)
      modifies ctx
      ensures var w := Unresolved(ctx.registry, pretty, doc, sourceDocId, refId, old(ctx.Snapshot()), loaded);
        ctx.Snapshot() == w.board && thrown == w.thrown
    {
      thrown := HandleRefError(ctx, pretty, doc, sourceDocId, refId);
      if thrown.Some? {
        thrown := HandleRefError(ctx, pretty, doc, sourceDocId, refId);
      }
    }

    /** The `try` body once the file was read: store, mark loaded, recurse. */
    method LoadReference(ctx: PipelineContext, fs: FileStore, o: Oracles, doc: Json, sourceDocId: Option<Json>,
                         refId: string, absPath: string, text: string) returns (thrown: Option<string>)
      requires refId in Universe(fs, o.parse) && refId !in alreadyLoaded && text in fs.files.Values
      modifies this, ctx
      ensures Walk(ctx.Snapshot(), alreadyLoaded, thrown)
           == LoadRef(fs, ctx.registry, o, doc, sourceDocId, refId, absPath, text, old(ctx.Snapshot()), old(alreadyLoaded))
      decreases Remaining(Universe(fs, o.parse), alreadyLoaded), 0, 0
    {
      ghost var b1 := Store(ctx.Snapshot(), SplitAt(refId, '.', 1), refId, text);
      ctx.SetPhaseData("ingest", SplitAt(refId, '.', 1), refId, Str(text));
      assert ctx.Snapshot() == b1;
      ghost var before := alreadyLoaded;
      alreadyLoaded := alreadyLoaded + {refId};
      SeeNew(Universe(fs, o.parse), before, refId);
      var c := RecursivelyResolveReferences(ctx, fs, o, absPath, text);
      ghost var child := ResolveDoc(fs, ctx.registry, o, absPath, text, b1, before + {refId});
      assert Walk(ctx.Snapshot(), alreadyLoaded, c) == child;
      thrown := None;
      if c.Some? {
        thrown := HandleRefError(ctx, o.pretty, doc, sourceDocId, refId);
      }
    }

    /** `handleRefError(context, sourceDocId, rawContent, refId)`. */
    method HandleRefError(ctx: PipelineContext, pretty: Json -> string, doc: Json, sourceDocId: Option<Json>,
                          refId: string) returns (thrown: Option<string>)
      modifies ctx
      ensures Outcome(ctx.Snapshot(), thrown) == RefErrorOutcome(ctx.registry, pretty, doc, sourceDocId, refId, old(ctx.Snapshot()))
    {
      if !IsStr(sourceDocId) {
        return Some(IdNotAString);
      }
      var id := sourceDocId.value.s;
      var absPath := PathInRegistry(ctx.registry, id);
      var pos := FindFieldPositionInFile(pretty(doc), refId, true);
      ctx.AddErrors([RefError(absPath, pos, refId)]);
      if SegmentCount(id, '.') < 2 {
        thrown := Some(NoCategory);
      } else {
        thrown := None;
      }
    }
  }
}
