/** The entry point of the library (`HcsManager`): it discovers the config
    sets below its search paths, owns the phase list (by default the nine
    built-in phases in their fixed order), runs the pipeline for one model in
    a fresh context, and runs it for every model of every set, merging the
    errors of the failed runs into one list without repetitions. */
module HcsManagers {
  import opened Wrappers
  import opened Strings
  import opened OrderedMaps
  import opened Sequences
  import opened Host
  import opened FileStores
  import opened ConfigSets
  import opened ConfigSetManagers
  import opened PipelineContexts
  import opened Pipelines
  import Ingest

  /** `registerDefaultPipeline`: the built-in phases in registration order. */
  const DefaultPhases: seq<PhaseKind> := [
    IngestPhase, ConversionPhase, ValidationPhase, BuildPhase, VerificationPhase,
    ProblemResolutionPhase, VersioningPhase, OutputConversionPhase, SerializationPhase]

  datatype PipelineResult = PipelineResult(modelId: string, success: bool, errors: seq<ValidationError>)

  datatype PipelineResults = PipelineResults(results: seq<PipelineResult>, hasErrors: bool)

  function NotFound(modelId: string): string
  {
    "Model ID " + modelId + " not found in any config set."
  }

  const NotImplemented: string := "Not implemented: failOnFileChanges"

  const NoConfigSets: string := "No config sets found.  Try creating one before running the pipeline."

  // ---------------------------------------------------------------------------
  // the registry as values
  // ---------------------------------------------------------------------------

  function ViewsOf(sets: seq<ConfigSet>): (views: seq<SetView>)
    reads set i | 0 <= i < |sets| :: sets[i]
    ensures |views| == |sets|
    ensures forall i :: 0 <= i < |sets| ==> views[i] == sets[i].View()
  {
    seq(|sets|, i requires 0 <= i < |sets| reads set j | 0 <= j < |sets| :: sets[j] => sets[i].View())
  }

  function NamesOf(views: seq<SetView>): (names: seq<string>)
    ensures |names| == |views|
    ensures forall i :: 0 <= i < |views| ==> names[i] == views[i].name
  {
    seq(|views|, i requires 0 <= i < |views| => views[i].name)
  }

  function RootsOf(views: seq<SetView>): (roots: seq<SetRoot>)
    ensures |roots| == |views|
    ensures forall i :: 0 <= i < |views| ==> roots[i] == SetRoot(views[i].name, views[i].root)
  {
    seq(|views|, i requires 0 <= i < |views| => SetRoot(views[i].name, views[i].root))
  }

  /** `initialize`: the sets `discoverConfigSets(paths)` loads, in order. */
  function AllViews(fs: FileStore, paths: seq<string>): Result<seq<SetView>, string>
  {
    var found :- DiscoveredRoots(fs, paths);
    var roots := Dedup(found);
    Success(seq(|roots|, i requires 0 <= i < |roots| => LoadedView(fs, roots[i])))
  }

  /** What the runs change besides their results: the loaded set of the one
      ingest strategy, and the disk. */
  datatype World = World(loaded: set<string>, fs: FileStore)

  datatype ModelRun = ModelRun(result: Result<PipelineResult, string>, world: World)

  /** `runPipelineForModel(modelId)` once the sets are known: the set named by
      the id's first segment, a fresh context, the registered phases. */
  function RunForModel(views: seq<SetView>, phases: seq<PhaseKind>, o: Oracles, modelId: string, w: World): (m: ModelRun)
    ensures m.result.Success? ==>
              m.result.value.modelId == modelId && (m.result.value.success <==> m.result.value.errors == [])
  {
    var i := FirstIndex(NamesOf(views), SplitAt(modelId, '.', 0));
    if i == |views| then ModelRun(Failure(NotFound(modelId)), w)
    else
      var r := RunPhases(phases, Target(views[i], modelId, RootsOf(views)), o, State(Board([], []), w.loaded, w.fs));
      var w' := World(r.state.loaded, r.state.fs);
      if r.thrown.Some? then ModelRun(Failure(r.thrown.value), w')
      else ModelRun(Success(PipelineResult(modelId, |r.state.board.errors| == 0, r.state.board.errors)), w')
  }

  /** A model run reports the errors of its context after the phases of
      the set its id's first segment names; an id whose first segment names
      no set is refused before any phase runs. */
  lemma RunForModelMeaning(views: seq<SetView>, phases: seq<PhaseKind>, o: Oracles, modelId: string, w: World)
    ensures var m := RunForModel(views, phases, o, modelId, w);
      && (SplitAt(modelId, '.', 0) !in NamesOf(views) ==> m == ModelRun(Failure(NotFound(modelId)), w))
      && (m.result.Success? ==>
            var i := FirstIndex(NamesOf(views), SplitAt(modelId, '.', 0));
            var r := RunPhases(phases, Target(views[i], modelId, RootsOf(views)), o, State(Board([], []), w.loaded, w.fs));
            && views[i].name == SplitAt(modelId, '.', 0)
            && r.thrown.None?
            && m.result.value.errors == r.state.board.errors
            && m.world == World(r.state.loaded, r.state.fs))
  {
  }

  // ---------------------------------------------------------------------------
  // running every model
  // ---------------------------------------------------------------------------

  datatype Batch = Batch(results: seq<PipelineResult>, thrown: Option<string>, world: World)

  /** A model run as a value: `RunnerOf` is the one the manager uses. */
  type Runner = (string, World) -> ModelRun

  function RunnerOf(views: seq<SetView>, phases: seq<PhaseKind>, o: Oracles): Runner
  {
    (modelId: string, w: World) => RunForModel(views, phases, o, modelId, w)
  }

  /** What the loops need of a model run: a success reports the id it ran,
      and it succeeds exactly when it holds no error. */
  ghost predicate Reports(run: Runner)
  {
    forall modelId: string, w: World :: run(modelId, w).result.Success? ==>
      run(modelId, w).result.value.modelId == modelId
      && (run(modelId, w).result.value.success <==> run(modelId, w).result.value.errors == [])
  }

  lemma RunnerReports(views: seq<SetView>, phases: seq<PhaseKind>, o: Oracles)
    ensures Reports(RunnerOf(views, phases, o))
  {
    var run := RunnerOf(views, phases, o);
    forall modelId: string, w: World
      ensures run(modelId, w).result.Success? ==>
        run(modelId, w).result.value.modelId == modelId
        && (run(modelId, w).result.value.success <==> run(modelId, w).result.value.errors == [])
    {
      assert run(modelId, w) == RunForModel(views, phases, o, modelId, w);
    }
  }

  /** The inner loop: the models of one set in map order; an exception ends
      the whole run. */
  function RunModels(ids: seq<string>, run: Runner, acc: seq<PipelineResult>, w: World): Batch
    decreases |ids|
  {
    if |ids| == 0 then Batch(acc, None, w)
    else
      var m := run(ids[0], w);
      match m.result
      case Failure(e) => Batch(acc, Some(e), m.world)
      case Success(res) => RunModels(ids[1..], run, acc + [res], m.world)
  }

  /** The outer loop: the sets in registry order. */
  function RunSets(todo: seq<SetView>, run: Runner, acc: seq<PipelineResult>, w: World): Batch
    decreases |todo|
  {
    if |todo| == 0 then Batch(acc, None, w)
    else
      var b := RunModels(Keys(todo[0].models), run, acc, w);
      if b.thrown.Some? then b else RunSets(todo[1..], run, b.results, b.world)
  }

  /** Every model id of the sets, set by set, in map order. */
  function ModelIdsOf(todo: seq<SetView>): seq<string>
    decreases |todo|
  {
    if |todo| == 0 then [] else Keys(todo[0].models) + ModelIdsOf(todo[1..])
  }

  function IdsOf(results: seq<PipelineResult>): (ids: seq<string>)
    ensures |ids| == |results|
    ensures forall i :: 0 <= i < |results| ==> ids[i] == results[i].modelId
  {
    seq(|results|, i requires 0 <= i < |results| => results[i].modelId)
  }

  lemma {:induction false} RunModelsOrder(ids: seq<string>, run: Runner, acc: seq<PipelineResult>, w: World)
    requires Reports(run)
    ensures var b := RunModels(ids, run, acc, w);
      b.thrown.None? ==> IdsOf(b.results) == IdsOf(acc) + ids
    decreases |ids|
  {
    if |ids| > 0 {
      var m := run(ids[0], w);
      if m.result.Success? {
        var r := m.result.value;
        RunModelsOrder(ids[1..], run, acc + [r], m.world);
        IdsAppend(acc, r);
        assert IdsOf(acc) + [ids[0]] + ids[1..] == IdsOf(acc) + ids;
      }
    } else {
      assert IdsOf(acc) + ids == IdsOf(acc);
    }
  }

  lemma IdsAppend(acc: seq<PipelineResult>, r: PipelineResult)
    ensures IdsOf(acc + [r]) == IdsOf(acc) + [r.modelId]
  {
    assert forall i :: 0 <= i < |acc| ==> (acc + [r])[i] == acc[i];
  }

  lemma {:induction false} RunSetsOrder(todo: seq<SetView>, run: Runner, acc: seq<PipelineResult>, w: World)
    requires Reports(run)
    ensures var b := RunSets(todo, run, acc, w);
      b.thrown.None? ==> IdsOf(b.results) == IdsOf(acc) + ModelIdsOf(todo)
    decreases |todo|
  {
    if |todo| > 0 {
      var b := RunModels(Keys(todo[0].models), run, acc, w);
      RunModelsOrder(Keys(todo[0].models), run, acc, w);
      if b.thrown.None? {
        RunSetsOrder(todo[1..], run, b.results, b.world);
      }
    } else {
      assert IdsOf(acc) + [] == IdsOf(acc);
    }
  }

  // ---------------------------------------------------------------------------
  // merging the errors of the failed runs
  // ---------------------------------------------------------------------------

  /** The key of the merge: `${filePath}::${message}`. */
  function ErrorKey(e: ValidationError): string
  {
    e.filePath + "::" + e.message
  }

  function KeySet(xs: seq<ValidationError>): set<string>
  {
    set i | 0 <= i < |xs| :: ErrorKey(xs[i])
  }

  /** The errors of the failed runs, run by run. */
  function FailingErrors(results: seq<PipelineResult>): seq<ValidationError>
    decreases |results|
  {
    if |results| == 0 then []
    else
      var last := results[|results| - 1];
      FailingErrors(results[..|results| - 1]) + (if last.success then [] else last.errors)
  }

  /** The reference merge: an error is kept when no earlier error has its key. */
  function KeepFirst(xs: seq<ValidationError>): seq<ValidationError>
    decreases |xs|
  {
    if |xs| == 0 then []
    else
      var init := xs[..|xs| - 1];
      var x := xs[|xs| - 1];
      KeepFirst(init) + (if ErrorKey(x) in KeySet(init) then [] else [x])
  }

  /** The position of the first error with the key, or the length. */
  function FirstWithKey(xs: seq<ValidationError>, k: string): (i: nat)
    ensures i <= |xs|
    ensures i < |xs| ==> ErrorKey(xs[i]) == k
    ensures forall j {:trigger ErrorKey(xs[j])} :: 0 <= j < i ==> ErrorKey(xs[j]) != k
    ensures i == |xs| <==> k !in KeySet(xs)
    decreases |xs|
  {
    if |xs| == 0 then 0
    else if ErrorKey(xs[0]) == k then 0
    else
      var r := FirstWithKey(xs[1..], k);
      assert forall j :: 0 < j < |xs| ==> xs[j] == xs[1..][j - 1];
      assert k in KeySet(xs) ==> k in KeySet(xs[1..]) by {
        if k in KeySet(xs) {
          var j :| 0 <= j < |xs| && ErrorKey(xs[j]) == k;
          assert ErrorKey(xs[1..][j - 1]) == k;
        }
      }
      1 + r
  }

  /** An appended error does not move the first position of a key already
      present. */
  lemma FirstWithKeyAppend(xs: seq<ValidationError>, x: ValidationError, k: string)
    requires k in KeySet(xs)
    ensures FirstWithKey(xs + [x], k) == FirstWithKey(xs, k)
  {
    var a := FirstWithKey(xs + [x], k);
    var b := FirstWithKey(xs, k);
    assert (xs + [x])[b] == xs[b];
  }

  lemma FirstWithKeyNew(xs: seq<ValidationError>, x: ValidationError)
    requires ErrorKey(x) !in KeySet(xs)
    ensures FirstWithKey(xs + [x], ErrorKey(x)) == |xs|
  {
    assert (xs + [x])[|xs|] == x;
  }

  /** The merged list has the same keys as the errors merged. */
  lemma {:induction false} KeepFirstKeys(xs: seq<ValidationError>)
    ensures KeySet(KeepFirst(xs)) == KeySet(xs)
    decreases |xs|
  {
    if |xs| > 0 {
      var init := xs[..|xs| - 1];
      var x := xs[|xs| - 1];
      KeepFirstKeys(init);
      assert xs == init + [x];
      var tail := if ErrorKey(x) in KeySet(init) then [] else [x];
      KeySetAppend(KeepFirst(init), tail);
      KeySetAppend(init, [x]);
    }
  }

  lemma KeySetAppend(xs: seq<ValidationError>, ys: seq<ValidationError>)
    ensures KeySet(xs + ys) == KeySet(xs) + KeySet(ys)
  {
    forall k | k in KeySet(xs + ys)
      ensures k in KeySet(xs) + KeySet(ys)
    {
      var i :| 0 <= i < |xs + ys| && ErrorKey((xs + ys)[i]) == k;
      if i < |xs| {
        assert ErrorKey(xs[i]) == k;
      } else {
        assert ErrorKey(ys[i - |xs|]) == k;
      }
    }
    forall k | k in KeySet(xs) + KeySet(ys)
      ensures k in KeySet(xs + ys)
    {
      if k in KeySet(xs) {
        var i :| 0 <= i < |xs| && ErrorKey(xs[i]) == k;
        assert (xs + ys)[i] == xs[i];
      } else {
        var i :| 0 <= i < |ys| && ErrorKey(ys[i]) == k;
        assert (xs + ys)[|xs| + i] == ys[i];
      }
    }
  }

  lemma KeySetSingle(e: ValidationError)
    ensures KeySet([e]) == {ErrorKey(e)}
  {
    assert [e][0] == e;
  }

  /** No two errors of the merged list share a key. */
  lemma {:induction false} KeepFirstUnique(xs: seq<ValidationError>)
    ensures var m := KeepFirst(xs);
      forall i, j :: 0 <= i < j < |m| ==> ErrorKey(m[i]) != ErrorKey(m[j])
    decreases |xs|
  {
    if |xs| > 0 {
      var init := xs[..|xs| - 1];
      var x := xs[|xs| - 1];
      KeepFirstUnique(init);
      KeepFirstKeys(init);
      var m0 := KeepFirst(init);
      if ErrorKey(x) !in KeySet(init) {
        var m := m0 + [x];
        forall i, j | 0 <= i < j < |m|
          ensures ErrorKey(m[i]) != ErrorKey(m[j])
        {
          if j == |m0| {
            assert ErrorKey(m0[i]) in KeySet(m0);
          }
        }
      }
    }
  }

  /** Each merged error is the first one with its key, and the merged list
      keeps the order in which the keys first appear. */
  lemma {:induction false} KeepFirstOrder(xs: seq<ValidationError>)
    ensures var m := KeepFirst(xs);
      && (forall i :: 0 <= i < |m| ==>
            FirstWithKey(xs, ErrorKey(m[i])) < |xs| && m[i] == xs[FirstWithKey(xs, ErrorKey(m[i]))])
      && (forall i, j :: 0 <= i < j < |m| ==> FirstWithKey(xs, ErrorKey(m[i])) < FirstWithKey(xs, ErrorKey(m[j])))
    decreases |xs|
  {
    if |xs| > 0 {
      var init := xs[..|xs| - 1];
      var x := xs[|xs| - 1];
      assert xs == init + [x];
      KeepFirstOrder(init);
      KeepFirstKeys(init);
      var m0 := KeepFirst(init);
      forall i | 0 <= i < |m0|
        ensures FirstWithKey(xs, ErrorKey(m0[i])) == FirstWithKey(init, ErrorKey(m0[i])) < |init|
      {
        assert ErrorKey(m0[i]) in KeySet(m0);
        FirstWithKeyAppend(init, x, ErrorKey(m0[i]));
      }
      KeepFirstStep(init, x);
      if ErrorKey(x) !in KeySet(init) {
        FirstWithKeyNew(init, x);
      }
    }
  }

  /** A witness: two errors with different paths can share a key when a
      path or a message holds `::`; the merge then keeps only the first. */
  lemma KeysCollide()
    ensures var a := ValidationError("a::b", 0, 0, 0, "c", Error);
      var b := ValidationError("a", 0, 0, 0, "b::c", Error);
      a != b && KeepFirst([a, b]) == [a]
  {
    var a := ValidationError("a::b", 0, 0, 0, "c", Error);
    var b := ValidationError("a", 0, 0, 0, "b::c", Error);
    assert ErrorKey(a) == "a::b::c" == ErrorKey(b);
    assert [a, b][..1] == [a];
    assert [a][..0] == [];
    assert KeySet([]) == {};
    assert KeepFirst([a]) == [a];
    KeySetSingle(a);
  }

  /** The results after the merge: every failed result holds the one merged
      list (the code assigns the same array to each of them, and that
      array keeps growing until the last failed result); a successful
      result keeps its own, empty, list. */
  function Deduplicated(results: seq<PipelineResult>): seq<PipelineResult>
  {
    var merged := KeepFirst(FailingErrors(results));
    seq(|results|, i requires 0 <= i < |results| =>
      if results[i].success then results[i] else results[i].(errors := merged))
  }

  /** Every error of a failed run is, by key, in the merged list, and every
      merged error comes from a failed run. */
  lemma {:induction false} FailingErrorsMeaning(results: seq<PipelineResult>, e: ValidationError)
    ensures e in FailingErrors(results) <==> exists i :: 0 <= i < |results| && !results[i].success && e in results[i].errors
    decreases |results|
  {
    if |results| > 0 {
      var init := results[..|results| - 1];
      FailingErrorsMeaning(init, e);
      assert forall i :: 0 <= i < |init| ==> init[i] == results[i];
    }
  }

  lemma DeduplicatedMeaning(results: seq<PipelineResult>)
    ensures var d := Deduplicated(results);
      var merged := KeepFirst(FailingErrors(results));
      && |d| == |results|
      && (forall i :: 0 <= i < |results| ==>
            d[i].modelId == results[i].modelId && d[i].success == results[i].success
            && d[i].errors == if results[i].success then results[i].errors else merged)
      && KeySet(merged) == KeySet(FailingErrors(results))
      && (forall e :: e in merged ==>
            exists i :: 0 <= i < |results| && !results[i].success && e in results[i].errors)
  {
    var merged := KeepFirst(FailingErrors(results));
    KeepFirstKeys(FailingErrors(results));
    KeepFirstOrder(FailingErrors(results));
    forall e | e in merged
      ensures exists i :: 0 <= i < |results| && !results[i].success && e in results[i].errors
    {
      var i :| 0 <= i < |merged| && merged[i] == e;
      assert e in FailingErrors(results);
      FailingErrorsMeaning(results, e);
    }
  }

  /** `results.some((result) => !result.success)`. */
  method SomeFailed(results: seq<PipelineResult>) returns (hasErrors: bool)
    ensures hasErrors <==> exists i :: 0 <= i < |results| && !results[i].success
  {
    var i := 0;
    while i < |results|
      invariant 0 <= i <= |results|
      invariant forall j :: 0 <= j < i ==> results[j].success
    {
      if !results[i].success {
        return true;
      }
      i := i + 1;
    }
    return false;
  }

  /** The merge loop: a set of the keys seen and the growing list. The
      code assigns that one growing array to each failed result as it
      goes, so every failed result ends up holding the complete list. */
  method Deduplicate(results: seq<PipelineResult>) returns (deduped: seq<PipelineResult>)
    ensures deduped == Deduplicated(results)
  {
    var uniqueErrors: set<string> := {};
    var deduplicatedErrors: seq<ValidationError> := [];
    var i := 0;
    while i < |results|
      invariant 0 <= i <= |results|
      invariant deduplicatedErrors == KeepFirst(FailingErrors(results[..i]))
      invariant uniqueErrors == KeySet(FailingErrors(results[..i]))
    {
      assert results[..i + 1][..i] == results[..i];
      assert FailingErrors(results[..i + 1])
             == FailingErrors(results[..i]) + (if results[i].success then [] else results[i].errors);
      if !results[i].success {
        uniqueErrors, deduplicatedErrors :=
          MergeErrors(results[i].errors, uniqueErrors, deduplicatedErrors, FailingErrors(results[..i]));
      } else {
        assert FailingErrors(results[..i]) + [] == FailingErrors(results[..i]);
      }
      i := i + 1;
    }
    assert results[..i] == results;
    deduped := seq(|results|, k requires 0 <= k < |results| =>
      if results[k].success then results[k] else results[k].(errors := deduplicatedErrors));
  }

  /** `result.errors.forEach(...)` for one failed result: the errors merged
      so far, `before`, followed by the result's own. */
  method MergeErrors(errs: seq<ValidationError>, seen: set<string>, merged: seq<ValidationError>,
                     ghost before: seq<ValidationError>)
    returns (seen': set<string>, merged': seq<ValidationError>)
    requires merged == KeepFirst(before) && seen == KeySet(before)
    ensures merged' == KeepFirst(before + errs) && seen' == KeySet(before + errs)
  {
    seen', merged' := seen, merged;
    var j := 0;
    assert before + errs[..0] == before;
    while j < |errs|
      invariant 0 <= j <= |errs|
      invariant merged' == KeepFirst(before + errs[..j])
      invariant seen' == KeySet(before + errs[..j])
    {
      var error := errs[j];
      var errorKey := ErrorKey(error);
      ghost var pre := before + errs[..j];
      assert before + errs[..j + 1] == pre + [error];
      KeepFirstStep(pre, error);
      if errorKey !in seen' {
        seen' := seen' + {errorKey};
        merged' := merged' + [error];
      }
      j := j + 1;
    }
    assert errs[..j] == errs;
  }

  /** One more error keeps the list merged so far, extended by the error
      when its key is new. */
  lemma KeepFirstStep(pre: seq<ValidationError>, error: ValidationError)
    ensures KeepFirst(pre + [error]) == KeepFirst(pre) + (if ErrorKey(error) in KeySet(pre) then [] else [error])
    ensures KeySet(pre + [error]) == KeySet(pre) + {ErrorKey(error)}
  {
    assert (pre + [error])[..|pre|] == pre;
    KeySetAppend(pre, [error]);
    KeySetSingle(error);
  }

  /** `runPipelineForAll(failOnFileChanges)`: discover the sets, refuse the
      unimplemented option and an empty registry, run every model, merge the
      errors when a run failed, and discover the sets once more. */
  datatype AllRun = AllRun(result: Result<PipelineResults, string>, world: World)

  function RunForAll(paths: seq<string>, phases: seq<PhaseKind>, o: Oracles, failOnFileChanges: bool, w: World): AllRun
  {
    match AllViews(w.fs, paths)
    case Failure(e) => AllRun(Failure(e), w)
    case Success(views) =>
      if failOnFileChanges then AllRun(Failure(NotImplemented), w)
      else if |views| == 0 then AllRun(Failure(NoConfigSets), w)
      else RunAllWith(paths, views, RunnerOf(views, phases, o), w)
  }

  /** The two loops over the discovered sets, the merge of the errors of
      the failed runs, and the closing `initialize`. */
  function RunAllWith(paths: seq<string>, views: seq<SetView>, run: Runner, w: World): AllRun
  {
    Concluded(paths, RunSets(views, run, [], w))
  }

  /** What follows the two loops: an exception they threw, or the merge of
      the errors of the failed runs and the closing `initialize`. */
  function Concluded(paths: seq<string>, b: Batch): AllRun
  {
    if b.thrown.Some? then AllRun(Failure(b.thrown.value), b.world)
    else
      var hasErrors := exists i :: 0 <= i < |b.results| && !b.results[i].success;
      var results := if hasErrors then Deduplicated(b.results) else b.results;
      match AllViews(b.world.fs, paths)
      case Failure(e) => AllRun(Failure(e), b.world)
      case Success(_) => AllRun(Success(PipelineResults(results, hasErrors)), b.world)
  }

  /** The option `failOnFileChanges` is refused before any model runs. */
  lemma FailOnFileChangesRefused(paths: seq<string>, phases: seq<PhaseKind>, o: Oracles, w: World)
    ensures RunForAll(paths, phases, o, true, w).world == w
    ensures AllViews(w.fs, paths).Success? ==> RunForAll(paths, phases, o, true, w).result == Failure(NotImplemented)
  {
  }

  /** A successful run of all models has one result per model id of the
      discovered sets, in registry and map order; `hasErrors` holds exactly
      when one of them failed; then every failed result holds the merged
      list, and a successful one holds no error. */
  lemma RunForAllMeaning(paths: seq<string>, phases: seq<PhaseKind>, o: Oracles, w: World)
    requires RunForAll(paths, phases, o, false, w).result.Success?
    ensures var views := AllViews(w.fs, paths).value;
      var rs := RunForAll(paths, phases, o, false, w).result.value;
      && |views| > 0
      && IdsOf(rs.results) == ModelIdsOf(views)
      && (rs.hasErrors <==> exists i :: 0 <= i < |rs.results| && !rs.results[i].success)
      && (forall i :: 0 <= i < |rs.results| && rs.results[i].success ==> rs.results[i].errors == [])
      && (rs.hasErrors ==>
            var b := RunSets(views, RunnerOf(views, phases, o), [], w);
            forall i :: 0 <= i < |rs.results| && !rs.results[i].success ==>
              rs.results[i].errors == KeepFirst(FailingErrors(b.results)))
  {
    var views := AllViews(w.fs, paths).value;
    RunnerReports(views, phases, o);
    RunAllWithMeaning(paths, views, RunnerOf(views, phases, o), w);
  }

  /** The same for any model run that reports its id. */
  lemma RunAllWithMeaning(paths: seq<string>, views: seq<SetView>, run: Runner, w: World)
    requires Reports(run) && RunAllWith(paths, views, run, w).result.Success?
    ensures var rs := RunAllWith(paths, views, run, w).result.value;
      && IdsOf(rs.results) == ModelIdsOf(views)
      && (rs.hasErrors <==> exists i :: 0 <= i < |rs.results| && !rs.results[i].success)
      && (forall i :: 0 <= i < |rs.results| && rs.results[i].success ==> rs.results[i].errors == [])
      && (rs.hasErrors ==>
            var b := RunSets(views, run, [], w);
            forall i :: 0 <= i < |rs.results| && !rs.results[i].success ==>
              rs.results[i].errors == KeepFirst(FailingErrors(b.results)))
  {
    var b := RunSets(views, run, [], w);
    var rs := RunAllWith(paths, views, run, w).result.value;
    assert b.thrown.None?;
    assert rs.hasErrors == exists i :: 0 <= i < |b.results| && !b.results[i].success;
    assert rs.results == if rs.hasErrors then Deduplicated(b.results) else b.results;
    RunSetsOrder(views, run, [], w);
    RunSetsSuccessEmpty(views, run, [], w);
    MergedResults(b.results, rs.hasErrors, rs.results, ModelIdsOf(views));
  }

  /** The results as reported: the runs themselves, or, when one failed,
      the runs with the merged list in every failed one. */
  lemma MergedResults(results: seq<PipelineResult>, hasErrors: bool, reported: seq<PipelineResult>, ids: seq<string>)
    requires IdsOf([]) + ids == IdsOf(results) && SuccessEmpty(results)
    requires hasErrors == exists i :: 0 <= i < |results| && !results[i].success
    requires reported == if hasErrors then Deduplicated(results) else results
    ensures IdsOf(reported) == ids
    ensures hasErrors <==> exists i :: 0 <= i < |reported| && !reported[i].success
    ensures forall i :: 0 <= i < |reported| && reported[i].success ==> reported[i].errors == []
    ensures hasErrors ==>
      forall i :: 0 <= i < |reported| && !reported[i].success ==> reported[i].errors == KeepFirst(FailingErrors(results))
  {
    assert IdsOf([]) + ids == ids;
    if hasErrors {
      assert reported == Deduplicated(results);
      DeduplicatedShape(results);
      assert IdsOf(reported) == IdsOf(results);
      var k :| 0 <= k < |results| && !results[k].success;
      assert !reported[k].success;
      forall i | 0 <= i < |reported| && !reported[i].success
        ensures reported[i].errors == KeepFirst(FailingErrors(results))
      {
        assert !results[i].success;
      }
      forall i | 0 <= i < |reported| && reported[i].success
        ensures reported[i].errors == []
      {
        assert results[i].success;
      }
    } else {
      assert reported == results;
    }
  }

  lemma DeduplicatedShape(results: seq<PipelineResult>)
    ensures var d := Deduplicated(results);
      && |d| == |results|
      && forall i :: 0 <= i < |results| ==>
           d[i].modelId == results[i].modelId && d[i].success == results[i].success
           && d[i].errors == if results[i].success then results[i].errors else KeepFirst(FailingErrors(results))
  {
  }

  /** Every result that reports success holds no error. */
  predicate SuccessEmpty(results: seq<PipelineResult>)
  {
    forall i :: 0 <= i < |results| && results[i].success ==> results[i].errors == []
  }

  lemma SuccessEmptyAppend(results: seq<PipelineResult>, r: PipelineResult)
    requires SuccessEmpty(results) && (r.success ==> r.errors == [])
    ensures SuccessEmpty(results + [r])
  {
    var rs := results + [r];
    forall i | 0 <= i < |rs| && rs[i].success
      ensures rs[i].errors == []
    {
      if i < |results| {
        assert rs[i] == results[i];
      }
    }
  }

  lemma {:induction false} RunSetsSuccessEmpty(todo: seq<SetView>, run: Runner, acc: seq<PipelineResult>, w: World)
    requires Reports(run) && SuccessEmpty(acc)
    ensures SuccessEmpty(RunSets(todo, run, acc, w).results)
    decreases |todo|
  {
    if |todo| > 0 {
      RunModelsSuccessEmpty(Keys(todo[0].models), run, acc, w);
      var b := RunModels(Keys(todo[0].models), run, acc, w);
      if b.thrown.None? {
        RunSetsSuccessEmpty(todo[1..], run, b.results, b.world);
      }
    }
  }

  lemma {:induction false} RunModelsSuccessEmpty(ids: seq<string>, run: Runner, acc: seq<PipelineResult>, w: World)
    requires Reports(run) && SuccessEmpty(acc)
    ensures SuccessEmpty(RunModels(ids, run, acc, w).results)
    decreases |ids|
  {
    if |ids| > 0 {
      var m := run(ids[0], w);
      if m.result.Success? {
        SuccessEmptyAppend(acc, m.result.value);
        RunModelsSuccessEmpty(ids[1..], run, acc + [m.result.value], m.world);
      }
    }
  }

  /** With the default phases, a run that ends without an exception either
      ran them all or stopped at conversion, validation, build or
      verification: the problem-resolution, versioning, output-conversion
      and serialization phases are never skipped for errors. */
  lemma DefaultRunStops(t: Target, o: Oracles, s: State)
    ensures var r := RunPhases(DefaultPhases, t, o, s);
      r.thrown.None? ==> r.ran == |DefaultPhases| || (1 <= r.ran <= 4 && |r.state.board.errors| > 0)
  {
    assert forall i :: 0 <= i < |DefaultPhases| && DefaultPhases[i] in PhasesThatRequireNoErrors ==> 1 <= i <= 4;
    RunStopsAtGates(DefaultPhases, t, o, s);
  }

  lemma RunStopsAtGates(phases: seq<PhaseKind>, t: Target, o: Oracles, s: State)
    requires forall i :: 0 <= i < |phases| && phases[i] in PhasesThatRequireNoErrors ==> 1 <= i <= 4
    ensures var r := RunPhases(phases, t, o, s);
      r.thrown.None? ==> r.ran == |phases| || (1 <= r.ran <= 4 && |r.state.board.errors| > 0)
  {
    HaltsOnlyAtGate(StepOf(t, o), phases, s);
    RunIsPrefix(StepOf(t, o), phases, s);
  }

  // ---------------------------------------------------------------------------
  // the manager object
  // ---------------------------------------------------------------------------

  /** `initialize` over the current flag: the registry as it stands, or a
      fresh discovery. */
  function InitializedViews(initialized: bool, current: seq<SetView>, fs: FileStore, paths: seq<string>)
    : Result<seq<SetView>, string>
  {
    if initialized then Success(current) else AllViews(fs, paths)
  }

  class HcsManager {
    const paths: seq<string>
    const pipelineManager: PipelineManager
    const configSetManager: ConfigSetManager
    /** The ingest strategy of the default pipeline, shared by every run. */
    const ingest: Ingest.IngestStrategy
    var isInitialized: bool

    constructor(paths: seq<string>, useDefaultPipeline: bool)
      ensures this.paths == paths && !isInitialized
      ensures fresh(pipelineManager) && fresh(configSetManager) && fresh(ingest)
      ensures pipelineManager.phases == (if useDefaultPipeline then DefaultPhases else [])
      ensures configSetManager.configSets == [] && ingest.alreadyLoaded == {}
    {
      this.paths := paths;
      configSetManager := new ConfigSetManager();
      var pm := new PipelineManager();
      pipelineManager := pm;
      ingest := new Ingest.IngestStrategy();
      isInitialized := false;
      new;
      if useDefaultPipeline {
        var i := 0;
        while i < |DefaultPhases|
          invariant 0 <= i <= |DefaultPhases|
          invariant pm.phases == DefaultPhases[..i]
          modifies pm
        {
          assert DefaultPhases[..i + 1] == DefaultPhases[..i] + [DefaultPhases[i]];
          pm.RegisterPhase(DefaultPhases[i]);
          i := i + 1;
        }
        assert DefaultPhases[..i] == DefaultPhases;
      }
    }

    /** `registerPhase(phase)`: appended after the phases already there. */
    method RegisterPhase(phase: PhaseKind)
      modifies pipelineManager
      ensures pipelineManager.phases == old(pipelineManager.phases) + [phase]
    {
      pipelineManager.RegisterPhase(phase);
    }

    /** `initialize`: a fresh discovery over the search paths. */
    method Initialize(disk: FileSystem) returns (thrown: Option<string>)
      modifies this, configSetManager
      ensures match AllViews(disk.store, paths)
        case Failure(e) => thrown == Some(e) && configSetManager.configSets == [] && isInitialized == old(isInitialized)
        case Success(views) => thrown == None && isInitialized && ViewsOf(configSetManager.configSets) == views
    {
      var r := configSetManager.DiscoverConfigSets(disk.store, paths);
      if r.Failure? {
        return Some(r.error);
      }
      isInitialized := true;
      thrown := None;
    }

    /** `ensureInitialized`. */
    method EnsureInitialized(disk: FileSystem) returns (thrown: Option<string>)
      modifies this, configSetManager
      ensures match InitializedViews(old(isInitialized), old(ViewsOf(configSetManager.configSets)), disk.store, paths)
        case Failure(e) => thrown == Some(e)
        case Success(views) => thrown == None && isInitialized && ViewsOf(configSetManager.configSets) == views
      ensures old(isInitialized) ==> configSetManager.configSets == old(configSetManager.configSets)
    {
      if !isInitialized {
        thrown := Initialize(disk);
      } else {
        thrown := None;
      }
    }

    /** `runPipelineForModel(modelId)`. */
    method RunPipelineForModel(modelId: string, disk: FileSystem, o: Oracles) returns (r: Result<PipelineResult, string>)
      modifies this, configSetManager, ingest, disk
      ensures old(isInitialized) ==> isInitialized && configSetManager.configSets == old(configSetManager.configSets)
      ensures match InitializedViews(old(isInitialized), old(ViewsOf(configSetManager.configSets)), old(disk.store), paths)
        case Failure(e) => r == Failure(e) && ingest.alreadyLoaded == old(ingest.alreadyLoaded) && disk.store == old(disk.store)
        case Success(views) =>
          var m := RunForModel(views, pipelineManager.phases, o, modelId, World(old(ingest.alreadyLoaded), old(disk.store)));
          r == m.result && World(ingest.alreadyLoaded, disk.store) == m.world
    {
      var thrown := EnsureInitialized(disk);
      if thrown.Some? {
        return Failure(thrown.value);
      }
      ghost var views := ViewsOf(configSetManager.configSets);
      assert NamesOf(views) == configSetManager.Names();
      assert RootsOf(views) == configSetManager.Roots();
      var configSet := configSetManager.GetConfigSetByResourceId(modelId);
      if configSet.None? {
        return Failure(NotFound(modelId));
      }
      var context := new PipelineContext(modelId, configSet.value.View(), configSetManager.Roots());
      thrown := pipelineManager.ExecutePipeline(context, ingest, disk, o);
      if thrown.Some? {
        return Failure(thrown.value);
      }
      r := Success(PipelineResult(modelId, |context.errors| == 0, context.errors));
    }

    /** `runPipelineForModel` once the manager is initialized: one step of
        the loops of `runPipelineForAll`. */
    method RunInitializedModel(modelId: string, disk: FileSystem, o: Oracles, ghost views: seq<SetView>)
      returns (r: Result<PipelineResult, string>)
      requires isInitialized && ViewsOf(configSetManager.configSets) == views
      modifies this, configSetManager, ingest, disk
      ensures isInitialized && configSetManager.configSets == old(configSetManager.configSets)
      ensures var m := RunnerOf(views, pipelineManager.phases, o)(modelId, World(old(ingest.alreadyLoaded), old(disk.store)));
        r == m.result && World(ingest.alreadyLoaded, disk.store) == m.world
    {
      r := RunPipelineForModel(modelId, disk, o);
    }

    /** `runPipelineForAll(failOnFileChanges)`. */
    method RunPipelineForAll(failOnFileChanges: bool, disk: FileSystem, o: Oracles) returns (r: Result<PipelineResults, string>)
      modifies this, configSetManager, ingest, disk
      ensures var a := RunForAll(paths, pipelineManager.phases, o, failOnFileChanges, World(old(ingest.alreadyLoaded), old(disk.store)));
        r == a.result && World(ingest.alreadyLoaded, disk.store) == a.world
    {
      var thrown := Initialize(disk);
      if thrown.Some? {
        return Failure(thrown.value);
      }
      if failOnFileChanges {
        return Failure(NotImplemented);
      }
      var configSets := configSetManager.configSets;
      if |configSets| == 0 {
        return Failure(NoConfigSets);
      }
      var results := RunAllModels(configSets, disk, o);
      if results.Failure? {
        return Failure(results.error);
      }
      r := Conclude(results.value, disk);
    }

    /** The end of `runPipelineForAll` once every model ran: the merge of
        the errors and the closing `initialize`. */
    method Conclude(results: seq<PipelineResult>, disk: FileSystem) returns (r: Result<PipelineResults, string>)
      modifies this, configSetManager
      ensures var a := Concluded(paths, Batch(results, None, World(ingest.alreadyLoaded, old(disk.store))));
        r == a.result && disk.store == old(disk.store)
    {
      var hasErrors := SomeFailed(results);
      var final := results;
      if hasErrors {
        final := Deduplicate(final);
      }
      var thrown := Initialize(disk);
      if thrown.Some? {
        return Failure(thrown.value);
      }
      r := Success(PipelineResults(final, hasErrors));
    }

    /** The two loops of `runPipelineForAll` over an initialized registry. */
    method RunAllModels(configSets: seq<ConfigSet>, disk: FileSystem, o: Oracles)
      returns (r: Result<seq<PipelineResult>, string>)
      requires isInitialized && configSetManager.configSets == configSets
      modifies this, configSetManager, ingest, disk
      ensures isInitialized && configSetManager.configSets == configSets
      ensures var views := old(ViewsOf(configSets));
        var b := RunSets(views, RunnerOf(views, pipelineManager.phases, o), [], World(old(ingest.alreadyLoaded), old(disk.store)));
        World(ingest.alreadyLoaded, disk.store) == b.world
        && (if b.thrown.Some? then r == Failure(b.thrown.value) else r == Success(b.results))
    {
      ghost var views := ViewsOf(configSets);
      ghost var goal := RunSets(views, RunnerOf(views, pipelineManager.phases, o), [], World(ingest.alreadyLoaded, disk.store));
      var results: seq<PipelineResult> := [];
      var k := 0;
      assert views[0..] == views;
      while k < |configSets|
        invariant 0 <= k <= |configSets|
        invariant isInitialized && configSetManager.configSets == configSets
        invariant ViewsOf(configSets) == views
        invariant RunSets(views[k..], RunnerOf(views, pipelineManager.phases, o), results, World(ingest.alreadyLoaded, disk.store)) == goal
      {
        ghost var rest := views[k..];
        assert rest[0] == views[k] && rest[1..] == views[k + 1..];
        var modelIds := Keys(configSets[k].modelIds);
        assert modelIds == Keys(views[k].models);
        var b := RunSetModels(modelIds, results, disk, o, views);
        if b.Failure? {
          return Failure(b.error);
        }
        results := b.value;
        k := k + 1;
      }
      r := Success(results);
    }

    /** The inner loop of `runPipelineForAll`: the models of one set, in
        map order, each result appended to those before it. */
    method RunSetModels(modelIds: seq<string>, before: seq<PipelineResult>, disk: FileSystem, o: Oracles, ghost views: seq<SetView>)
      returns (r: Result<seq<PipelineResult>, string>)
      requires isInitialized && ViewsOf(configSetManager.configSets) == views
      modifies this, configSetManager, ingest, disk
      ensures isInitialized && configSetManager.configSets == old(configSetManager.configSets)
      ensures var b := RunModels(modelIds, RunnerOf(views, pipelineManager.phases, o), before, World(old(ingest.alreadyLoaded), old(disk.store)));
        World(ingest.alreadyLoaded, disk.store) == b.world
        && (if b.thrown.Some? then r == Failure(b.thrown.value) else r == Success(b.results))
    {
      ghost var configSets := configSetManager.configSets;
      ghost var inner := RunModels(modelIds, RunnerOf(views, pipelineManager.phases, o), before, World(ingest.alreadyLoaded, disk.store));
      var results := before;
      var j := 0;
      assert modelIds[0..] == modelIds;
      while j < |modelIds|
        invariant 0 <= j <= |modelIds|
        invariant isInitialized && configSetManager.configSets == configSets
        invariant RunModels(modelIds[j..], RunnerOf(views, pipelineManager.phases, o), results, World(ingest.alreadyLoaded, disk.store)) == inner
      {
        ghost var ids := modelIds[j..];
        assert ids[0] == modelIds[j] && ids[1..] == modelIds[j + 1..];
        var result := RunInitializedModel(modelIds[j], disk, o, views);
        if result.Failure? {
          return Failure(result.error);
        }
        results := results + [result.value];
        j := j + 1;
      }
      r := Success(results);
    }
  }
}
