/** The build phase (`DefaultBuildStrategy`): every validated schema is
    merged against the validated schemas, then every validated model other
    than the target is merged against the validated models and schemas, and
    the target model is built last. A built schema is stored under
    `build:schemas`; a built model stores its unmerged original under
    `build:models` and its merged, reference-free instance under
    `build:instances`. Each failed merge becomes one `[BUILD]` error. The
    `JSON.parse(JSON.stringify(...))` copies are the identity on these
    values. */
module Build {
  import opened Wrappers
  import opened Strings
  import opened OrderedMaps
  import opened JsonValues
  import opened ConfigSetManagers
  import opened PipelineContexts
  import opened FindElement
  import opened MergeWithRefs
  import opened MergeEngine
  import MergeProperties

  // ---------------------------------------------------------------------------
  // removeRefs
  // ---------------------------------------------------------------------------

  /** `removeRefs`: `$ref` and `$refs` deleted from every object at any depth,
      everything else kept in place. */
  function StripRefs(j: Json): Json
    decreases Size(j), 1
  {
    match j
    case Obj(fields) =>
      AllFieldsSmaller(fields);
      Obj(StripFields(Remove(Remove(fields, "$ref"), "$refs"), Size(j)))
    case Arr(items) =>
      AllItemsSmaller(items);
      Arr(StripItems(items, Size(j)))
    case _ => j
  }

  function StripFields(fs: OMap<Json>, bound: nat): (r: OMap<Json>)
    requires forall e :: e in fs ==> Size(e.val) < bound
    ensures |r| == |fs|
    ensures forall i :: 0 <= i < |fs| ==> r[i] == Entry(fs[i].key, StripRefs(fs[i].val))
    decreases bound, 0, |fs|
  {
    if |fs| == 0 then [] else [Entry(fs[0].key, StripRefs(fs[0].val))] + StripFields(fs[1..], bound)
  }

  function StripItems(items: seq<Json>, bound: nat): (r: seq<Json>)
    requires forall x :: x in items ==> Size(x) < bound
    ensures |r| == |items|
    ensures forall i :: 0 <= i < |items| ==> r[i] == StripRefs(items[i])
    decreases bound, 0, |items|
  {
    if |items| == 0 then [] else [StripRefs(items[0])] + StripItems(items[1..], bound)
  }

  /** No object anywhere in the value has a `$ref` or `$refs` key. */
  predicate RefFree(j: Json)
    decreases Size(j), 1
  {
    match j
    case Obj(fields) => "$ref" !in Keys(fields) && "$refs" !in Keys(fields) && RefFreeFields(fields)
    case Arr(items) => RefFreeItems(items)
    case _ => true
  }

  predicate RefFreeFields(fs: OMap<Json>)
    decreases SizeFields(fs), 2
  {
    |fs| == 0 || (RefFree(fs[0].val) && RefFreeFields(fs[1..]))
  }

  predicate RefFreeItems(items: seq<Json>)
    decreases SizeItems(items), 2
  {
    |items| == 0 || (RefFree(items[0]) && RefFreeItems(items[1..]))
  }

  /** Keys survive `StripFields` in place. */
  lemma StripFieldsKeys(fs: OMap<Json>, bound: nat)
    requires forall e :: e in fs ==> Size(e.val) < bound
    ensures Keys(StripFields(fs, bound)) == Keys(fs)
  {
  }

  /** After `removeRefs` no `$ref` or `$refs` is left at any depth. */
  lemma {:induction false} StripRefsRefFree(j: Json)
    ensures RefFree(StripRefs(j))
    decreases Size(j), 1
  {
    match j
    case Obj(fields) =>
      AllFieldsSmaller(fields);
      var fs := Remove(Remove(fields, "$ref"), "$refs");
      StripFieldsKeys(fs, Size(j));
      assert "$ref" !in Keys(fs) by {
        assert Get(fs, "$ref") == Get(Remove(fields, "$ref"), "$ref");
      }
      StripFieldsRefFree(fs, Size(j));
    case Arr(items) =>
      AllItemsSmaller(items);
      StripItemsRefFree(items, Size(j));
    case _ =>
  }

  lemma {:induction false} StripFieldsRefFree(fs: OMap<Json>, bound: nat)
    requires forall e :: e in fs ==> Size(e.val) < bound
    ensures RefFreeFields(StripFields(fs, bound))
    decreases bound, 0, |fs|
  {
    if |fs| > 0 {
      var r := StripFields(fs, bound);
      assert fs[0] in fs;
      StripRefsRefFree(fs[0].val);
      StripFieldsRefFree(fs[1..], bound);
      assert r[1..] == StripFields(fs[1..], bound);
    }
  }

  lemma {:induction false} StripItemsRefFree(items: seq<Json>, bound: nat)
    requires forall x :: x in items ==> Size(x) < bound
    ensures RefFreeItems(StripItems(items, bound))
    decreases bound, 0, |items|
  {
    if |items| > 0 {
      var r := StripItems(items, bound);
      assert items[0] in items;
      StripRefsRefFree(items[0]);
      StripItemsRefFree(items[1..], bound);
      assert r[1..] == StripItems(items[1..], bound);
    }
  }

  /** A value with no references is left as it is, so `removeRefs` is
      idempotent. */
  lemma {:induction false} StripRefsOfRefFree(j: Json)
    requires RefFree(j)
    ensures StripRefs(j) == j
    decreases Size(j), 1
  {
    match j
    case Obj(fields) =>
      AllFieldsSmaller(fields);
      RemoveAbsent(fields, "$ref");
      RemoveAbsent(fields, "$refs");
      StripFieldsOfRefFree(fields, Size(j));
    case Arr(items) =>
      AllItemsSmaller(items);
      StripItemsOfRefFree(items, Size(j));
    case _ =>
  }

  lemma {:induction false} StripFieldsOfRefFree(fs: OMap<Json>, bound: nat)
    requires forall e :: e in fs ==> Size(e.val) < bound
    requires RefFreeFields(fs)
    ensures StripFields(fs, bound) == fs
    decreases bound, 0, |fs|
  {
    if |fs| > 0 {
      assert fs[0] in fs;
      StripRefsOfRefFree(fs[0].val);
      StripFieldsOfRefFree(fs[1..], bound);
      assert fs == [fs[0]] + fs[1..];
    }
  }

  lemma {:induction false} StripItemsOfRefFree(items: seq<Json>, bound: nat)
    requires forall x :: x in items ==> Size(x) < bound
    requires RefFreeItems(items)
    ensures StripItems(items, bound) == items
    decreases bound, 0, |items|
  {
    if |items| > 0 {
      assert items[0] in items;
      StripRefsOfRefFree(items[0]);
      StripItemsOfRefFree(items[1..], bound);
      assert items == [items[0]] + items[1..];
    }
  }

  lemma StripRefsIdempotent(j: Json)
    ensures StripRefs(StripRefs(j)) == StripRefs(j)
  {
    StripRefsRefFree(j);
    StripRefsOfRefFree(StripRefs(j));
  }

  /** `Get` on stripped fields finds the stripped value. */
  lemma {:induction false} GetStripFields(fs: OMap<Json>, bound: nat, k: string)
    requires forall e :: e in fs ==> Size(e.val) < bound
    ensures Get(StripFields(fs, bound), k) == if Get(fs, k).Some? then Some(StripRefs(Get(fs, k).value)) else None
    decreases |fs|
  {
    if |fs| > 0 && fs[0].key != k {
      GetStripFields(fs[1..], bound, k);
      assert StripFields(fs, bound)[1..] == StripFields(fs[1..], bound);
    }
  }

  /** Every key other than `$ref` and `$refs` keeps its (stripped) value. */
  lemma StripRefsKeepsOthers(fields: OMap<Json>, k: string)
    requires k != "$ref" && k != "$refs"
    ensures Prop(StripRefs(Obj(fields)), k)
            == if Get(fields, k).Some? then Some(StripRefs(Get(fields, k).value)) else None
  {
    AllFieldsSmaller(fields);
    GetStripFields(Remove(Remove(fields, "$ref"), "$refs"), Size(Obj(fields)), k);
  }

  /** `removeRefs` as the closure runs it: delete the two keys of a node, then
      clean and write back each remaining value in key order. */
  method RemoveRefs(j: Json) returns (r: Json)
    ensures r == StripRefs(j)
    decreases Size(j), 1
  {
    match j {
      case Obj(fields) =>
        AllFieldsSmaller(fields);
        var fs := RemoveRefsFields(Remove(Remove(fields, "$ref"), "$refs"), Size(j));
        return Obj(fs);
      case Arr(items) =>
        AllItemsSmaller(items);
        var xs := RemoveRefsItems(items, Size(j));
        return Arr(xs);
      case _ =>
        return j;
    }
  }

  method RemoveRefsFields(fs: OMap<Json>, bound: nat) returns (out: OMap<Json>)
    requires forall e :: e in fs ==> Size(e.val) < bound
    ensures out == StripFields(fs, bound)
    decreases bound, 0
  {
    out := [];
    var i := 0;
    while i < |fs|
      invariant 0 <= i <= |fs|
      invariant out == StripFields(fs[..i], bound)
    {
      assert fs[i] in fs;
      var v := RemoveRefs(fs[i].val);
      assert fs[..i + 1] == fs[..i] + [fs[i]];
      out := out + [Entry(fs[i].key, v)];
      i := i + 1;
    }
    assert fs[..|fs|] == fs;
  }

  method RemoveRefsItems(items: seq<Json>, bound: nat) returns (out: seq<Json>)
    requires forall x :: x in items ==> Size(x) < bound
    ensures out == StripItems(items, bound)
    decreases bound, 0
  {
    out := [];
    var i := 0;
    while i < |items|
      invariant 0 <= i <= |items|
      invariant out == StripItems(items[..i], bound)
    {
      assert items[i] in items;
      var v := RemoveRefs(items[i]);
      assert items[..i + 1] == items[..i] + [items[i]];
      out := out + [v];
      i := i + 1;
    }
    assert items[..|items|] == items;
  }

  // ---------------------------------------------------------------------------
  // reading the validated entities
  // ---------------------------------------------------------------------------

  /** The same entities as a `Map`, keyed in their order. */
  function PoolOf(m: OMap<Json>): (p: Available)
    ensures AvailableWellFormed(p) && p.ids == Keys(m)
    ensures forall k :: k in p.entries ==> Some(p.entries[k]) == Get(m, k)
  {
    Available(map k | k in Keys(m) :: Get(m, k).value, Keys(m))
  }

  /** Build keys belong to the `build` phase. */
  lemma BuildKeyPhase(t: string, id: string)
    ensures SplitKey(PhaseKey("build", t, id)).phase == "build"
  {
    assert PhaseKey("build", t, id) == "build" + [':'] + (t + ":" + id);
    SplitHead("build", ':', t + ":" + id);
  }

  // ---------------------------------------------------------------------------
  // errors
  // ---------------------------------------------------------------------------

  const BuildPrefix := "[BUILD] "
  const CircularLabel := "Circular reference"
  const UnresolvedLabel := "Unresolved reference"

  /** The label `handleMergeRefError` gives a failure: only an unresolved
      reference names its id; every error that is not a circular reference
      reads as an unresolved one. */
  function BuildMessage(err: MergeError): string
  {
    BuildPrefix + match err
                  case Circular(_) => CircularLabel
                  case Unresolved(id) => UnresolvedLabel + ": " + id
                  case Other(_) => UnresolvedLabel
  }

  /** `handleMergeRefError`: the error against the entity's file, positioned
      (value mode, 1-based line) at the unresolved id in the printed entity,
      and at line 1, column 0 for every other failure. */
  function MergeErrorRecord(registry: seq<SetRoot>, pretty: Json -> string, entityId: string, content: Json,
                            err: MergeError): (e: ValidationError)
    ensures e.filePath == PathInRegistry(registry, entityId) && e.message == BuildMessage(err)
    ensures e.severity == Error && e.line >= 1
    ensures !err.Unresolved? ==> e.line == 1 && e.column == 0 && e.endColumn == 0
  {
    var pos := if err.Unresolved? then FindInLinesMeaning(Split(pretty(content), '\n'), err.id, true);
                                       FindFieldPositionInFile(pretty(content), err.id, true)
               else FieldPosition(0, 0, 0);
    ValidationError(PathInRegistry(registry, entityId), pos.line + 1, pos.startChar, pos.endChar, BuildMessage(err), Error)
  }

  method HandleMergeRefError(ctx: PipelineContext, pretty: Json -> string, entityId: string, content: Json,
                             err: MergeError)
    modifies ctx
    ensures ctx.errors == old(ctx.errors) + [MergeErrorRecord(ctx.registry, pretty, entityId, content, err)]
    ensures ctx.data == old(ctx.data)
  {
    var msg := if err.Circular? then CircularLabel else UnresolvedLabel;
    var absPath := PathInRegistry(ctx.registry, entityId);
    var position := FieldPosition(0, 0, 0);
    if err.Unresolved? {
      position := FindFieldPositionInFile(pretty(content), err.id, true);
      msg := msg + ": " + err.id;
    }
    var record := ValidationError(absPath, position.line + 1, position.startChar, position.endChar,
                                  BuildPrefix + msg, Error);
    ctx.AddErrors([record]);
  }

  // ---------------------------------------------------------------------------
  // building
  // ---------------------------------------------------------------------------

  /** One schema of `buildSchemas`. */
  function BuildSchema(b: Board, id: string, schema: Json, pool: Available, registry: seq<SetRoot>,
                       pretty: Json -> string): Board
  {
    match Merge(schema, pool, true)
    case Success(m) => Board(WithPhaseData(b.data, "build", "schemas", id, m), b.errors)
    case Failure(err) => Board(b.data, b.errors + [MergeErrorRecord(registry, pretty, id, schema, err)])
  }

  function BuildSchemasFrom(schemas: OMap<Json>, b: Board, pool: Available, registry: seq<SetRoot>,
                            pretty: Json -> string): Board
    decreases |schemas|
  {
    if |schemas| == 0 then b
    else BuildSchemasFrom(schemas[1..], BuildSchema(b, schemas[0].key, schemas[0].val, pool, registry, pretty),
                          pool, registry, pretty)
  }

  /** `modelId.replace('.models.', '.instances.')`. */
  function InstanceId(modelId: string): string
  {
    ReplaceFirst(modelId, ".models.", ".instances.")
  }

  /** The stored instance: the merged model under the instance id, with every
      reference removed. */
  function InstanceOf(merged: Json, instanceId: string): Json
  {
    StripRefs(SetProp(merged, "$id", Str(instanceId)))
  }

  /** `execBuildModels` for one model. */
  function BuildModel(b: Board, id: string, model: Json, pool: Available, registry: seq<SetRoot>,
                      pretty: Json -> string): Board
  {
    match Merge(model, pool, false)
    case Success(m) =>
      var iid := InstanceId(id);
      Board(WithPhaseData(WithPhaseData(b.data, "build", "models", id, model), "build", "instances", iid,
                          InstanceOf(m, iid)), b.errors)
    case Failure(err) => Board(b.data, b.errors + [MergeErrorRecord(registry, pretty, id, model, err)])
  }

  /** The loop of `buildModels`, which skips the target. */
  function BuildModelsFrom(models: OMap<Json>, target: string, b: Board, pool: Available, registry: seq<SetRoot>,
                           pretty: Json -> string): Board
    decreases |models|
  {
    if |models| == 0 then b
    else
      var b' := if models[0].key == target then b
                else BuildModel(b, models[0].key, models[0].val, pool, registry, pretty);
      BuildModelsFrom(models[1..], target, b', pool, registry, pretty)
  }

  /** The model the target is built from: its validated entry, or `{}`. */
  function TargetModel(models: OMap<Json>, target: string): Json
  {
    match Get(models, target)
    case None => Obj([])
    case Some(m) => m
  }

  /** The pool for models: validated models, then validated schemas (a
      schema wins on a shared key). */
  function ModelPool(data: OMap<Json>): Available
  {
    MapJoin(PoolOf(Entities(data, "validation", "models")), PoolOf(Entities(data, "validation", "schemas")))
  }

  /** The blackboard after `buildModels`. */
  function ModelsBuilt(b: Board, target: string, registry: seq<SetRoot>, pretty: Json -> string): Board
  {
    var models := Entities(b.data, "validation", "models");
    var pool := ModelPool(b.data);
    var b2 := BuildModelsFrom(models, target, b, pool, registry, pretty);
    BuildModel(b2, target, TargetModel(models, target), pool, registry, pretty)
  }

  /** The blackboard after `buildSchemas`. */
  function SchemasBuilt(b: Board, registry: seq<SetRoot>, pretty: Json -> string): Board
  {
    var schemas := Entities(b.data, "validation", "schemas");
    BuildSchemasFrom(schemas, b, PoolOf(schemas), registry, pretty)
  }

  /** The blackboard after the build phase: schemas, then models. */
  function Built(b: Board, target: string, registry: seq<SetRoot>, pretty: Json -> string): Board
  {
    ModelsBuilt(SchemasBuilt(b, registry, pretty), target, registry, pretty)
  }

  method BuildSchemasInContext(ctx: PipelineContext, pretty: Json -> string)
    modifies ctx
    ensures ctx.Snapshot() == SchemasBuilt(old(ctx.Snapshot()), ctx.registry, pretty)
  {
    var schemas := GetEntitiesFromContext(ctx, "validation", "schemas");
    var pool := PoolOf(schemas);
    ghost var start := ctx.Snapshot();
    var i := 0;
    assert schemas[0..] == schemas;
    while i < |schemas|
      invariant 0 <= i <= |schemas|
      invariant BuildSchemasFrom(schemas[i..], ctx.Snapshot(), pool, ctx.registry, pretty)
                == BuildSchemasFrom(schemas, start, pool, ctx.registry, pretty)
    {
      BuildSchemaTurn(ctx, pretty, schemas, i, pool);
      i := i + 1;
    }
  }

  /** One turn of the loop of `buildSchemas`, at position `i`. */
  method BuildSchemaTurn(ctx: PipelineContext, pretty: Json -> string, schemas: OMap<Json>, i: nat, pool: Available)
    requires i < |schemas|
    modifies ctx
    ensures BuildSchemasFrom(schemas[i + 1..], ctx.Snapshot(), pool, ctx.registry, pretty)
            == BuildSchemasFrom(schemas[i..], old(ctx.Snapshot()), pool, ctx.registry, pretty)
  {
    assert schemas[i..][0] == schemas[i] && schemas[i..][1..] == schemas[i + 1..];
    ExecBuildSchema(ctx, pretty, schemas[i].key, schemas[i].val, pool);
  }

  /** The body of the loop of `buildSchemas`. */
  method ExecBuildSchema(ctx: PipelineContext, pretty: Json -> string, id: string, schema: Json, pool: Available)
    modifies ctx
    ensures ctx.Snapshot() == BuildSchema(old(ctx.Snapshot()), id, schema, pool, ctx.registry, pretty)
  {
    var merged := MergeEntity(schema, pool, true);
    if merged.Success? {
      ctx.SetPhaseData("build", "schemas", id, merged.value);
    } else {
      HandleMergeRefError(ctx, pretty, id, schema, merged.error);
    }
  }

  method ExecBuildModels(ctx: PipelineContext, pretty: Json -> string, modelId: string, model: Json, pool: Available)
    modifies ctx
    ensures ctx.Snapshot() == BuildModel(old(ctx.Snapshot()), modelId, model, pool, ctx.registry, pretty)
  {
    var merged := MergeEntity(model, pool, false);
    if merged.Failure? {
      HandleMergeRefError(ctx, pretty, modelId, model, merged.error);
      return;
    }
    ctx.SetPhaseData("build", "models", modelId, model);
    var instanceId := InstanceId(modelId);
    var resolved := SetProp(merged.value, "$id", Str(instanceId));
    resolved := RemoveRefs(resolved);
    ctx.SetPhaseData("build", "instances", instanceId, resolved);
  }

  method BuildModelsInContext(ctx: PipelineContext, pretty: Json -> string)
    modifies ctx
    ensures ctx.Snapshot() == ModelsBuilt(old(ctx.Snapshot()), ctx.modelId, ctx.registry, pretty)
  {
    var models := GetEntitiesFromContext(ctx, "validation", "models");
    var schemas := GetEntitiesFromContext(ctx, "validation", "schemas");
    var pool := MapJoin(PoolOf(models), PoolOf(schemas));
    EntitiesDistinct(ctx.data, "validation", "models");
    var main := BuildOtherModels(ctx, pretty, models, pool);
    ExecBuildModels(ctx, pretty, ctx.modelId, main, pool);
  }

  /** The loop of `buildModels`: every model but the target is built, and the
      target's entry (or `{}`) is kept for last. */
  method BuildOtherModels(ctx: PipelineContext, pretty: Json -> string, models: OMap<Json>, pool: Available)
    returns (main: Json)
    requires DistinctKeys(models)
    modifies ctx
    ensures ctx.Snapshot() == BuildModelsFrom(models, ctx.modelId, old(ctx.Snapshot()), pool, ctx.registry, pretty)
    ensures main == TargetModel(models, ctx.modelId)
  {
    ghost var start := ctx.Snapshot();
    main := Obj([]);
    var i := 0;
    assert models[0..] == models;
    while i < |models|
      invariant 0 <= i <= |models|
      invariant BuildModelsFrom(models[i..], ctx.modelId, ctx.Snapshot(), pool, ctx.registry, pretty)
                == BuildModelsFrom(models, ctx.modelId, start, pool, ctx.registry, pretty)
      invariant main == if ctx.modelId in Keys(models[..i]) then Get(models, ctx.modelId).value else Obj([])
    {
      var rest := models[i..];
      assert rest[0] == models[i] && rest[1..] == models[i + 1..];
      MainModelStep(models, i, ctx.modelId);
      if models[i].key == ctx.modelId {
        main := models[i].val;
      } else {
        ExecBuildModels(ctx, pretty, models[i].key, models[i].val, pool);
      }
      i := i + 1;
    }
    assert models[..|models|] == models;
  }

  /** The target seen so far in the loop is the one `Get` finds. */
  lemma MainModelStep(models: OMap<Json>, i: nat, target: string)
    requires i < |models|
    ensures models[i].key == target && target !in Keys(models[..i]) && DistinctKeys(models) ==>
              Get(models, target) == Some(models[i].val)
    ensures Keys(models[..i + 1]) == Keys(models[..i]) + [models[i].key]
  {
    if models[i].key == target && target !in Keys(models[..i]) && DistinctKeys(models) {
      GetAtDistinct(models, i);
    }
  }

  /** `DefaultBuildStrategy.execute`. */
  method ExecuteBuild(ctx: PipelineContext, pretty: Json -> string)
    modifies ctx
    ensures ctx.Snapshot() == Built(old(ctx.Snapshot()), ctx.modelId, ctx.registry, pretty)
  {
    BuildSchemasInContext(ctx, pretty);
    BuildModelsInContext(ctx, pretty);
  }

  // ---------------------------------------------------------------------------
  // what the build phase promises
  // ---------------------------------------------------------------------------

  /** The instance carries the instance id and no reference, and every other
      property is the merged one with its references removed. */
  lemma InstanceShape(merged: Json, instanceId: string)
    requires merged.Obj?
    ensures var inst := InstanceOf(merged, instanceId);
      Prop(inst, "$id") == Some(Str(instanceId))
      && RefFree(inst)
      && forall k :: k != "$id" && k != "$ref" && k != "$refs" ==>
           Prop(inst, k) == if Get(merged.fields, k).Some? then Some(StripRefs(Get(merged.fields, k).value)) else None
  {
    var withId := SetProp(merged, "$id", Str(instanceId));
    StripRefsKeepsOthers(withId.fields, "$id");
    StripRefsRefFree(withId);
    forall k | k != "$id" && k != "$ref" && k != "$refs"
      ensures Prop(InstanceOf(merged, instanceId), k)
              == if Get(merged.fields, k).Some? then Some(StripRefs(Get(merged.fields, k).value)) else None
    {
      StripRefsKeepsOthers(withId.fields, k);
    }
  }

  lemma BuildMessagePrefix(err: MergeError)
    ensures StartsWith(BuildMessage(err), BuildPrefix)
  {
    match err
    case Circular(_) => StartsWithConcat(BuildPrefix, CircularLabel);
    case Unresolved(id) => StartsWithConcat(BuildPrefix, UnresolvedLabel + ": " + id);
    case Other(_) => StartsWithConcat(BuildPrefix, UnresolvedLabel);
  }

  /** Every non-`build` key reads as before. */
  ghost predicate OnlyBuildChanged(d: OMap<Json>, d': OMap<Json>)
  {
    forall k :: !StartsWith(k, "build:") ==> Get(d', k) == Get(d, k)
  }

  /** From `b` to `b'` the build phase changed no key outside itself and only
      appended `[BUILD]` errors. */
  ghost predicate BuildStep(b: Board, b': Board)
  {
    OnlyBuildChanged(b.data, b'.data)
    && |b.errors| <= |b'.errors| && b'.errors[..|b.errors|] == b.errors
    && (forall i :: |b.errors| <= i < |b'.errors| ==>
          StartsWith(b'.errors[i].message, BuildPrefix) && b'.errors[i].severity == Error)
  }

  lemma BuildStepRefl(b: Board)
    ensures BuildStep(b, b)
  {
    assert b.errors[..|b.errors|] == b.errors;
  }

  lemma BuildStepTrans(b1: Board, b2: Board, b3: Board)
    requires BuildStep(b1, b2) && BuildStep(b2, b3)
    ensures BuildStep(b1, b3)
  {
    assert b3.errors[..|b1.errors|] == b3.errors[..|b2.errors|][..|b1.errors|];
    forall i | |b1.errors| <= i < |b3.errors|
      ensures StartsWith(b3.errors[i].message, BuildPrefix) && b3.errors[i].severity == Error
    {
      if i < |b2.errors| {
        assert b3.errors[i] == b3.errors[..|b2.errors|][i];
      }
    }
  }

  lemma WriteIsBuildStep(b: Board, t: string, id: string, v: Json)
    ensures BuildStep(b, Board(WithPhaseData(b.data, "build", t, id, v), b.errors))
  {
    PhaseKeyPrefix("build", t, id);
    BuildStepRefl(b);
  }

  lemma ReportIsBuildStep(b: Board, registry: seq<SetRoot>, pretty: Json -> string, id: string, content: Json,
                          err: MergeError)
    ensures BuildStep(b, Board(b.data, b.errors + [MergeErrorRecord(registry, pretty, id, content, err)]))
  {
    BuildMessagePrefix(err);
    var es := b.errors + [MergeErrorRecord(registry, pretty, id, content, err)];
    assert es[..|b.errors|] == b.errors;
  }

  lemma BuildSchemaStep(b: Board, id: string, schema: Json, pool: Available, registry: seq<SetRoot>,
                        pretty: Json -> string)
    ensures BuildStep(b, BuildSchema(b, id, schema, pool, registry, pretty))
  {
    match Merge(schema, pool, true)
    case Success(m) => WriteIsBuildStep(b, "schemas", id, m);
    case Failure(err) => ReportIsBuildStep(b, registry, pretty, id, schema, err);
  }

  lemma BuildModelStep(b: Board, id: string, model: Json, pool: Available, registry: seq<SetRoot>,
                       pretty: Json -> string)
    ensures BuildStep(b, BuildModel(b, id, model, pool, registry, pretty))
  {
    match Merge(model, pool, false)
    case Success(m) =>
      var b1 := Board(WithPhaseData(b.data, "build", "models", id, model), b.errors);
      WriteIsBuildStep(b, "models", id, model);
      WriteIsBuildStep(b1, "instances", InstanceId(id), InstanceOf(m, InstanceId(id)));
      BuildStepTrans(b, b1, BuildModel(b, id, model, pool, registry, pretty));
    case Failure(err) => ReportIsBuildStep(b, registry, pretty, id, model, err);
  }

  lemma {:induction false} BuildSchemasFromStep(schemas: OMap<Json>, b: Board, pool: Available, registry: seq<SetRoot>,
                                                pretty: Json -> string)
    ensures BuildStep(b, BuildSchemasFrom(schemas, b, pool, registry, pretty))
    decreases |schemas|
  {
    if |schemas| == 0 {
      BuildStepRefl(b);
    } else {
      var b1 := BuildSchema(b, schemas[0].key, schemas[0].val, pool, registry, pretty);
      BuildSchemaStep(b, schemas[0].key, schemas[0].val, pool, registry, pretty);
      BuildSchemasFromStep(schemas[1..], b1, pool, registry, pretty);
      BuildStepTrans(b, b1, BuildSchemasFrom(schemas, b, pool, registry, pretty));
    }
  }

  lemma {:induction false} BuildModelsFromStep(models: OMap<Json>, target: string, b: Board, pool: Available,
                                               registry: seq<SetRoot>, pretty: Json -> string)
    ensures BuildStep(b, BuildModelsFrom(models, target, b, pool, registry, pretty))
    decreases |models|
  {
    if |models| == 0 {
      BuildStepRefl(b);
    } else {
      var b1 := if models[0].key == target then b
                else BuildModel(b, models[0].key, models[0].val, pool, registry, pretty);
      if models[0].key == target {
        BuildStepRefl(b);
      } else {
        BuildModelStep(b, models[0].key, models[0].val, pool, registry, pretty);
      }
      BuildModelsFromStep(models[1..], target, b1, pool, registry, pretty);
      BuildStepTrans(b, b1, BuildModelsFrom(models, target, b, pool, registry, pretty));
    }
  }

  /** The build phase writes only `build` keys and only adds `[BUILD]`
      errors, after the ones already there. */
  lemma BuiltKeepsOthers(b: Board, target: string, registry: seq<SetRoot>, pretty: Json -> string)
    ensures BuildStep(b, Built(b, target, registry, pretty))
  {
    var b1 := SchemasBuilt(b, registry, pretty);
    var models := Entities(b1.data, "validation", "models");
    var pool := ModelPool(b1.data);
    var b2 := BuildModelsFrom(models, target, b1, pool, registry, pretty);
    BuildSchemasFromStep(Entities(b.data, "validation", "schemas"), b, PoolOf(Entities(b.data, "validation", "schemas")), registry, pretty);
    BuildModelsFromStep(models, target, b1, pool, registry, pretty);
    BuildModelStep(b2, target, TargetModel(models, target), pool, registry, pretty);
    BuildStepTrans(b1, b2, Built(b, target, registry, pretty));
    BuildStepTrans(b, b1, Built(b, target, registry, pretty));
  }

  // reading back what was read

  lemma EntitiesAfterWrite(d: OMap<Json>, category: string, t: string, id: string, v: Json)
    ensures Entities(WithPhaseData(d, "build", t, id, v), "validation", category) == Entities(d, "validation", category)
  {
    BuildKeyPhase(t, id);
    EntitiesFromPut(d, "validation", category, [], PhaseKey("build", t, id), v);
  }

  lemma {:induction false} EntitiesAfterSchemas(schemas: OMap<Json>, b: Board, pool: Available, registry: seq<SetRoot>,
                                                pretty: Json -> string, category: string)
    ensures Entities(BuildSchemasFrom(schemas, b, pool, registry, pretty).data, "validation", category)
            == Entities(b.data, "validation", category)
    decreases |schemas|
  {
    if |schemas| > 0 {
      var b1 := BuildSchema(b, schemas[0].key, schemas[0].val, pool, registry, pretty);
      var merged := Merge(schemas[0].val, pool, true);
      if merged.Success? {
        EntitiesAfterWrite(b.data, category, "schemas", schemas[0].key, merged.value);
      }
      EntitiesAfterSchemas(schemas[1..], b1, pool, registry, pretty, category);
    }
  }

  /** The models pass reads the same validated models and schemas as the
      schemas pass: building writes no `validation` key. */
  lemma ModelsSeeValidated(b: Board, registry: seq<SetRoot>, pretty: Json -> string)
    ensures Entities(SchemasBuilt(b, registry, pretty).data, "validation", "models") == Entities(b.data, "validation", "models")
    ensures ModelPool(SchemasBuilt(b, registry, pretty).data) == ModelPool(b.data)
  {
    var schemas := Entities(b.data, "validation", "schemas");
    EntitiesAfterSchemas(schemas, b, PoolOf(schemas), registry, pretty, "models");
    EntitiesAfterSchemas(schemas, b, PoolOf(schemas), registry, pretty, "schemas");
  }

  // where each result is stored

  /** Two build keys of different types, or of different ids, differ. */
  lemma BuildKeysDiffer(t: string, id: string, t': string, id': string)
    requires t in ["schemas", "models", "instances"] && t' in ["schemas", "models", "instances"]
    requires t != t' || id != id'
    ensures PhaseKey("build", t, id) != PhaseKey("build", t', id')
  {
    if t != t' {
      assert PhaseKey("build", t, id)[6] == t[0];
      assert PhaseKey("build", t', id')[6] == t'[0];
    } else {
      var prefix := "build:" + t + ":";
      assert PhaseKey("build", t, id) == prefix + id;
      assert PhaseKey("build", t, id') == prefix + id';
      assert (prefix + id)[|prefix|..] == id;
      assert (prefix + id')[|prefix|..] == id';
    }
  }

  lemma KeysTail<V>(m: OMap<V>)
    requires |m| > 0
    ensures Keys(m) == [m[0].key] + Keys(m[1..])
  {
  }

  /** The schemas pass leaves the `build:schemas` entry of an id it does not
      visit as it was. */
  lemma {:induction false} SchemasFromKeep(schemas: OMap<Json>, b: Board, pool: Available, registry: seq<SetRoot>,
                                           pretty: Json -> string, k: string)
    requires k !in Keys(schemas)
    ensures GetPhaseData(BuildSchemasFrom(schemas, b, pool, registry, pretty).data, "build", "schemas", k)
            == GetPhaseData(b.data, "build", "schemas", k)
    decreases |schemas|
  {
    if |schemas| > 0 {
      KeysTail(schemas);
      var b1 := BuildSchema(b, schemas[0].key, schemas[0].val, pool, registry, pretty);
      BuildKeysDiffer("schemas", schemas[0].key, "schemas", k);
      SchemasFromKeep(schemas[1..], b1, pool, registry, pretty, k);
    }
  }

  /** Each schema's outcome: stored under `build:schemas` when its merge
      succeeds, reported when it fails. */
  lemma {:induction false} SchemasFromStore(schemas: OMap<Json>, b: Board, pool: Available, registry: seq<SetRoot>,
                                            pretty: Json -> string, k: string)
    requires DistinctKeys(schemas) && k in Keys(schemas)
    ensures var r := BuildSchemasFrom(schemas, b, pool, registry, pretty);
      var schema := Get(schemas, k).value;
      match Merge(schema, pool, true)
      case Success(m) => GetPhaseData(r.data, "build", "schemas", k) == Some(m)
      case Failure(err) => MergeErrorRecord(registry, pretty, k, schema, err) in r.errors
    decreases |schemas|
  {
    KeysTail(schemas);
    var b1 := BuildSchema(b, schemas[0].key, schemas[0].val, pool, registry, pretty);
    var r := BuildSchemasFrom(schemas, b, pool, registry, pretty);
    if schemas[0].key == k {
      match Merge(schemas[0].val, pool, true)
      case Success(m) =>
        SchemasFromKeep(schemas[1..], b1, pool, registry, pretty, k);
      case Failure(err) =>
        BuildSchemasFromStep(schemas[1..], b1, pool, registry, pretty);
        assert b1.errors[|b.errors|] == MergeErrorRecord(registry, pretty, k, schemas[0].val, err);
        assert r.errors[..|b1.errors|][|b.errors|] == r.errors[|b.errors|];
    } else {
      assert DistinctKeys(schemas[1..]) by {
        forall i, j | 0 <= i < j < |schemas[1..]|
          ensures schemas[1..][i].key != schemas[1..][j].key
        {
          assert schemas[1..][i] == schemas[i + 1] && schemas[1..][j] == schemas[j + 1];
        }
      }
      SchemasFromStore(schemas[1..], b1, pool, registry, pretty, k);
    }
  }

  /** Building one model writes no `build:schemas` entry and no other
      model's `build:models` entry. */
  lemma BuildModelKeeps(b: Board, id: string, model: Json, pool: Available, registry: seq<SetRoot>,
                        pretty: Json -> string, t: string, k: string)
    requires t == "schemas" || (t == "models" && k != id)
    ensures GetPhaseData(BuildModel(b, id, model, pool, registry, pretty).data, "build", t, k)
            == GetPhaseData(b.data, "build", t, k)
  {
    BuildKeysDiffer("models", id, t, k);
    BuildKeysDiffer("instances", InstanceId(id), t, k);
  }

  lemma {:induction false} ModelsFromKeep(models: OMap<Json>, target: string, b: Board, pool: Available,
                                          registry: seq<SetRoot>, pretty: Json -> string, t: string, k: string)
    requires t == "schemas" || (t == "models" && k !in Keys(models))
    ensures GetPhaseData(BuildModelsFrom(models, target, b, pool, registry, pretty).data, "build", t, k)
            == GetPhaseData(b.data, "build", t, k)
    decreases |models|
  {
    if |models| > 0 {
      KeysTail(models);
      var b1 := if models[0].key == target then b
                else BuildModel(b, models[0].key, models[0].val, pool, registry, pretty);
      if models[0].key != target {
        BuildModelKeeps(b, models[0].key, models[0].val, pool, registry, pretty, t, k);
      }
      ModelsFromKeep(models[1..], target, b1, pool, registry, pretty, t, k);
    }
  }

  /** Each validated schema's outcome survives to the end of the build
      phase: its merge result under `build:schemas`, or its error. */
  lemma SchemaBuilt(b: Board, target: string, registry: seq<SetRoot>, pretty: Json -> string, k: string)
    requires k in Keys(Entities(b.data, "validation", "schemas"))
    ensures var schemas := Entities(b.data, "validation", "schemas");
      var schema := Get(schemas, k).value;
      var r := Built(b, target, registry, pretty);
      match Merge(schema, PoolOf(schemas), true)
      case Success(m) => GetPhaseData(r.data, "build", "schemas", k) == Some(m)
      case Failure(err) => MergeErrorRecord(registry, pretty, k, schema, err) in r.errors
  {
    var schemas := Entities(b.data, "validation", "schemas");
    var b1 := SchemasBuilt(b, registry, pretty);
    var models := Entities(b1.data, "validation", "models");
    var pool := ModelPool(b1.data);
    var b2 := BuildModelsFrom(models, target, b1, pool, registry, pretty);
    var r := Built(b, target, registry, pretty);
    EntitiesDistinct(b.data, "validation", "schemas");
    SchemasFromStore(schemas, b, PoolOf(schemas), registry, pretty, k);
    ModelsFromKeep(models, target, b1, pool, registry, pretty, "schemas", k);
    BuildModelKeeps(b2, target, TargetModel(models, target), pool, registry, pretty, "schemas", k);
    BuildModelsFromStep(models, target, b1, pool, registry, pretty);
    BuildModelStep(b2, target, TargetModel(models, target), pool, registry, pretty);
    BuildStepTrans(b1, b2, r);
    assert forall e :: e in b1.errors ==> e in r.errors by {
      forall e | e in b1.errors ensures e in r.errors {
        var i :| 0 <= i < |b1.errors| && b1.errors[i] == e;
        assert r.errors[..|b1.errors|][i] == e;
      }
    }
  }

  lemma DistinctTail<V>(m: OMap<V>)
    requires |m| > 0 && DistinctKeys(m)
    ensures DistinctKeys(m[1..]) && m[0].key !in Keys(m[1..])
  {
    forall i, j | 0 <= i < j < |m[1..]|
      ensures m[1..][i].key != m[1..][j].key
    {
      assert m[1..][i] == m[i + 1] && m[1..][j] == m[j + 1];
    }
  }

  /** Each model other than the target: its unmerged original is stored under
      `build:models` when its merge succeeds, and its error is reported when
      it fails. */
  lemma {:induction false} ModelsFromStore(models: OMap<Json>, target: string, b: Board, pool: Available,
                                           registry: seq<SetRoot>, pretty: Json -> string, k: string)
    requires DistinctKeys(models) && k in Keys(models) && k != target
    ensures var r := BuildModelsFrom(models, target, b, pool, registry, pretty);
      var model := Get(models, k).value;
      match Merge(model, pool, false)
      case Success(_) => GetPhaseData(r.data, "build", "models", k) == Some(model)
      case Failure(err) => MergeErrorRecord(registry, pretty, k, model, err) in r.errors
    decreases |models|
  {
    KeysTail(models);
    DistinctTail(models);
    var b1 := if models[0].key == target then b
              else BuildModel(b, models[0].key, models[0].val, pool, registry, pretty);
    var r := BuildModelsFrom(models, target, b, pool, registry, pretty);
    if models[0].key == k {
      match Merge(models[0].val, pool, false)
      case Success(m) =>
        BuildKeysDiffer("instances", InstanceId(k), "models", k);
        ModelsFromKeep(models[1..], target, b1, pool, registry, pretty, "models", k);
      case Failure(err) =>
        BuildModelsFromStep(models[1..], target, b1, pool, registry, pretty);
        assert b1.errors[|b.errors|] == MergeErrorRecord(registry, pretty, k, models[0].val, err);
        assert r.errors[..|b1.errors|][|b.errors|] == r.errors[|b.errors|];
    } else {
      ModelsFromStore(models[1..], target, b1, pool, registry, pretty, k);
    }
  }

  /** Each validated model other than the target keeps its outcome to the
      end of the build phase. */
  lemma ModelBuilt(b: Board, target: string, registry: seq<SetRoot>, pretty: Json -> string, k: string)
    requires k in Keys(Entities(b.data, "validation", "models")) && k != target
    ensures var models := Entities(b.data, "validation", "models");
      var model := Get(models, k).value;
      var r := Built(b, target, registry, pretty);
      match Merge(model, ModelPool(b.data), false)
      case Success(_) => GetPhaseData(r.data, "build", "models", k) == Some(model)
      case Failure(err) => MergeErrorRecord(registry, pretty, k, model, err) in r.errors
  {
    var b1 := SchemasBuilt(b, registry, pretty);
    ModelsSeeValidated(b, registry, pretty);
    var models := Entities(b1.data, "validation", "models");
    var pool := ModelPool(b1.data);
    var b2 := BuildModelsFrom(models, target, b1, pool, registry, pretty);
    var r := BuildModel(b2, target, TargetModel(models, target), pool, registry, pretty);
    assert r == Built(b, target, registry, pretty);
    EntitiesDistinct(b.data, "validation", "models");
    ModelsFromStore(models, target, b1, pool, registry, pretty, k);
    BuildModelKeeps(b2, target, TargetModel(models, target), pool, registry, pretty, "models", k);
    BuildModelStep(b2, target, TargetModel(models, target), pool, registry, pretty);
    BuildStepKeepsErrors(b2, r);
  }

  /** A build step only appends errors. */
  lemma BuildStepKeepsErrors(b: Board, b': Board)
    requires BuildStep(b, b')
    ensures forall e :: e in b.errors ==> e in b'.errors
  {
    forall e | e in b.errors ensures e in b'.errors {
      var i :| 0 <= i < |b.errors| && b.errors[i] == e;
      assert b'.errors[..|b.errors|][i] == e;
    }
  }

  /** The target is built last, from its validated entry or from `{}`: on
      success its original and its instance are what the phase leaves
      behind, and on failure its error is the last one. */
  lemma TargetBuilt(b: Board, target: string, registry: seq<SetRoot>, pretty: Json -> string)
    ensures var model := TargetModel(Entities(b.data, "validation", "models"), target);
      var r := Built(b, target, registry, pretty);
      match Merge(model, ModelPool(b.data), false)
      case Success(m) =>
        GetPhaseData(r.data, "build", "models", target) == Some(model)
        && GetPhaseData(r.data, "build", "instances", InstanceId(target)) == Some(InstanceOf(m, InstanceId(target)))
      case Failure(err) =>
        |r.errors| > 0 && r.errors[|r.errors| - 1] == MergeErrorRecord(registry, pretty, target, model, err)
  {
    ModelsSeeValidated(b, registry, pretty);
    BuildKeysDiffer("instances", InstanceId(target), "models", target);
  }

  /** When every validated entity is an object and the target's entry is one,
      a target that merges is an object, and the instance the phase leaves
      for it has the instance id, no reference at any depth, and every other
      property of the merged model with its references removed. */
  lemma TargetInstanceShaped(b: Board, target: string, registry: seq<SetRoot>, pretty: Json -> string)
    requires TargetModel(Entities(b.data, "validation", "models"), target).Obj?
    requires MergeProperties.ObjectPool(ModelPool(b.data).entries)
    requires Merge(TargetModel(Entities(b.data, "validation", "models"), target), ModelPool(b.data), false).Success?
    ensures var m := Merge(TargetModel(Entities(b.data, "validation", "models"), target), ModelPool(b.data), false).value;
      var inst := InstanceOf(m, InstanceId(target));
      m.Obj?
      && GetPhaseData(Built(b, target, registry, pretty).data, "build", "instances", InstanceId(target)) == Some(inst)
      && Prop(inst, "$id") == Some(Str(InstanceId(target)))
      && RefFree(inst)
      && forall k :: k != "$id" && k != "$ref" && k != "$refs" ==>
           Prop(inst, k) == if Get(m.fields, k).Some? then Some(StripRefs(Get(m.fields, k).value)) else None
  {
    var model := TargetModel(Entities(b.data, "validation", "models"), target);
    TargetBuilt(b, target, registry, pretty);
    MergeProperties.MergeKeepsObjects(model, ModelPool(b.data), false);
    InstanceShape(Merge(model, ModelPool(b.data), false).value, InstanceId(target));
  }

  /** A target with no validated entry is built from `{}`, which has no
      `$id`, so the phase ends with an unresolved-reference error for it. */
  lemma MissingTargetReported(b: Board, target: string, registry: seq<SetRoot>, pretty: Json -> string)
    requires target !in Keys(Entities(b.data, "validation", "models"))
    ensures var r := Built(b, target, registry, pretty);
      |r.errors| > 0
      && r.errors[|r.errors| - 1].message == BuildPrefix + UnresolvedLabel
      && r.errors[|r.errors| - 1].filePath == PathInRegistry(registry, target)
      && r.errors[|r.errors| - 1].line == 1
      && GetPhaseData(r.data, "build", "models", target)
         == GetPhaseData(BuildModelsFrom(Entities(b.data, "validation", "models"), target, SchemasBuilt(b, registry, pretty),
                                         ModelPool(b.data), registry, pretty).data, "build", "models", target)
  {
    ModelsSeeValidated(b, registry, pretty);
    var models := Entities(b.data, "validation", "models");
    assert TargetModel(models, target) == Obj([]);
    assert !EntityIdValid(Obj([]));
  }
}
