/** The phase orchestrator (`PipelineManager`): phases run in the order they
    were registered, each once per run; before a conversion, validation,
    build or verification phase a non-empty error list ends the run, and an
    exception of a phase ends it too and leaves the run. The nine built-in
    phases run their default strategies. */
module Pipelines {
  import opened Wrappers
  import opened JsonValues
  import opened Host
  import opened FileStores
  import opened ConfigSets
  import opened ConfigSetManagers
  import opened PipelineContexts
  import Ingest
  import Conversion
  import Validation
  import Build
  import Verification
  import Versioning = VersioningPhase
  import OutputConversion
  import Serialization

  /** The phase classes of the library. */
  datatype PhaseKind =
    | IngestPhase
    | ConversionPhase
    | ValidationPhase
    | BuildPhase
    | VerificationPhase
    | ProblemResolutionPhase
    | VersioningPhase
    | OutputConversionPhase
    | SerializationPhase

  /** `phasesThatRequireNoErrors`. */
  const PhasesThatRequireNoErrors: seq<PhaseKind> := [ConversionPhase, ValidationPhase, BuildPhase, VerificationPhase]

  /** What a run changes: the blackboard, the loaded set of the ingest
      strategy (one object shared by every run) and the disk. */
  datatype State = State(board: Board, loaded: set<string>, fs: FileStore)

  /** What the context fixes for a run. */
  datatype Target = Target(configSet: SetView, modelId: string, registry: seq<SetRoot>)

  datatype Step = Step(state: State, thrown: Option<string>)

  /** `phase.execute(context)` with the default strategy of each phase. The
      problem-resolution strategy returns a constant and changes nothing. */
  function PhaseStep(k: PhaseKind, t: Target, o: Oracles, s: State): Step
  {
    match k
    case IngestPhase =>
      var w := Ingest.Ingested(t.configSet, t.modelId, s.fs, t.registry, o, s.board, s.loaded);
      Step(State(w.board, w.loaded, s.fs), w.thrown)
    case ConversionPhase => Step(s.(board := Conversion.Converted(s.board, o.parse)), None)
    case ValidationPhase => Step(s.(board := Validation.Validated(s.board, t.configSet, o)), None)
    case BuildPhase => Step(s.(board := Build.Built(s.board, t.modelId, t.registry, o.pretty)), None)
    case VerificationPhase =>
      var r := Verification.Verified(s.board, o, t.registry);
      Step(s.(board := r.board), r.thrown)
    case ProblemResolutionPhase => Step(s, None)
    case VersioningPhase =>
      var r := Versioning.VersioningDone(s.board, o, s.fs, t.registry);
      Step(s.(board := r.board, fs := r.fs), r.thrown)
    case OutputConversionPhase => Step(s.(board := OutputConversion.OutputConverted(s.board, o.pretty)), None)
    case SerializationPhase =>
      var w := Serialization.Serialized(s.board, t.configSet.root, s.fs);
      Step(s.(fs := w.fs), w.thrown)
  }

  /** What a phase does to the state of a run. */
  type Stepper = (PhaseKind, State) -> Step

  /** The built-in phases against the target `t`. */
  function StepOf(t: Target, o: Oracles): Stepper
  {
    (k: PhaseKind, s: State) => PhaseStep(k, t, o, s)
  }

  /** A run: the state it leaves, the exception that left it, and how many
      phases were started. */
  datatype Run = Run(state: State, thrown: Option<string>, ran: nat)

  /** `executePipeline` over the phases still to run, each doing `step`. */
  function RunWith(step: Stepper, phases: seq<PhaseKind>, s: State): Run
    decreases |phases|
  {
    if |phases| == 0 then Run(s, None, 0)
    else if phases[0] in PhasesThatRequireNoErrors && |s.board.errors| > 0 then Run(s, None, 0)
    else
      var st := step(phases[0], s);
      if st.thrown.Some? then Run(st.state, st.thrown, 1)
      else
        var r := RunWith(step, phases[1..], st.state);
        Run(r.state, r.thrown, r.ran + 1)
  }

  /** `executePipeline` with the built-in phases. */
  function RunPhases(phases: seq<PhaseKind>, t: Target, o: Oracles, s: State): Run
  {
    RunWith(StepOf(t, o), phases, s)
  }

  /** The reference: every phase in turn, with no gate, up to the first
      exception. */
  function Compose(step: Stepper, phases: seq<PhaseKind>, s: State): Step
    decreases |phases|
  {
    if |phases| == 0 then Step(s, None)
    else
      var st := step(phases[0], s);
      if st.thrown.Some? then st else Compose(step, phases[1..], st.state)
  }

  /** The orchestrator only cuts the list short: a run is the composition of
      the first `ran` phases in registration order, so it adds and removes
      no error of its own, runs no phase twice and reorders none. This holds
      whatever the phases do. */
  lemma {:induction false} RunIsPrefix(step: Stepper, phases: seq<PhaseKind>, s: State)
    ensures var r := RunWith(step, phases, s);
      r.ran <= |phases| && Compose(step, phases[..r.ran], s) == Step(r.state, r.thrown)
    decreases |phases|
  {
    var r := RunWith(step, phases, s);
    if |phases| == 0 || (phases[0] in PhasesThatRequireNoErrors && |s.board.errors| > 0) {
      assert phases[..0] == [];
    } else {
      var st := step(phases[0], s);
      if st.thrown.Some? {
        assert phases[..1][1..] == [];
        assert Compose(step, phases[..1][1..], st.state) == Step(st.state, None);
      } else {
        RunIsPrefix(step, phases[1..], st.state);
        var r' := RunWith(step, phases[1..], st.state);
        assert phases[..r.ran][0] == phases[0];
        assert phases[..r.ran][1..] == phases[1..][..r'.ran];
      }
    }
  }

  /** A run that stops without an exception before the end of the list
      stopped at a gated phase with errors on the board. */
  lemma {:induction false} HaltsOnlyAtGate(step: Stepper, phases: seq<PhaseKind>, s: State)
    ensures var r := RunWith(step, phases, s);
      r.thrown.None? && r.ran < |phases| ==>
        phases[r.ran] in PhasesThatRequireNoErrors && |r.state.board.errors| > 0
    decreases |phases|
  {
    if |phases| > 0 && !(phases[0] in PhasesThatRequireNoErrors && |s.board.errors| > 0) {
      var st := step(phases[0], s);
      if st.thrown.None? {
        HaltsOnlyAtGate(step, phases[1..], st.state);
      }
    }
  }

  /** An exception leaves the run at the phase that raised it. */
  lemma {:induction false} ThrowComesFromLastPhase(step: Stepper, phases: seq<PhaseKind>, s: State)
    ensures var r := RunWith(step, phases, s);
      r.thrown.Some? ==>
        1 <= r.ran <= |phases|
        && step(phases[r.ran - 1], Compose(step, phases[..r.ran - 1], s).state) == Step(r.state, r.thrown)
    decreases |phases|
  {
    if |phases| > 0 && !(phases[0] in PhasesThatRequireNoErrors && |s.board.errors| > 0) {
      var st := step(phases[0], s);
      if st.thrown.Some? {
        assert phases[..0] == [];
      } else {
        ThrowComesFromLastPhase(step, phases[1..], st.state);
        var r' := RunWith(step, phases[1..], st.state);
        if r'.thrown.Some? {
          assert phases[1..][r'.ran - 1] == phases[r'.ran];
          var pre := phases[..r'.ran];
          assert pre[0] == phases[0] && pre[1..] == phases[1..][..r'.ran - 1];
          ComposeNoThrow(step, phases[..r'.ran], s);
        }
      }
    }
  }

  /** Composing a non-empty prefix whose first phase does not throw is
      composing the rest from that phase's state. */
  lemma ComposeNoThrow(step: Stepper, phases: seq<PhaseKind>, s: State)
    requires |phases| > 0 && step(phases[0], s).thrown.None?
    ensures Compose(step, phases, s) == Compose(step, phases[1..], step(phases[0], s).state)
  {
  }

  /** Phases outside the gating list never stop a run: without an exception
      every one of them runs. */
  lemma UngatedRunAll(step: Stepper, phases: seq<PhaseKind>, s: State)
    requires forall i :: 0 <= i < |phases| ==> phases[i] !in PhasesThatRequireNoErrors
    ensures var r := RunWith(step, phases, s);
      r.thrown.None? ==> r.ran == |phases| && Step(r.state, None) == Compose(step, phases, s)
  {
    HaltsOnlyAtGate(step, phases, s);
    RunIsPrefix(step, phases, s);
    assert phases[..|phases|] == phases;
  }

  /** Errors on the board before a gated phase end the run there: that
      phase and every later one are skipped. */
  lemma GateStopsRun(step: Stepper, phases: seq<PhaseKind>, s: State)
    requires |phases| > 0 && phases[0] in PhasesThatRequireNoErrors && |s.board.errors| > 0
    ensures RunWith(step, phases, s) == Run(s, None, 0)
  {
  }

  // ---------------------------------------------------------------------------
  // the manager object
  // ---------------------------------------------------------------------------

  function StateOf(ctx: PipelineContext, ingest: Ingest.IngestStrategy, disk: FileSystem): State
    reads ctx, ingest, disk
  {
    State(ctx.Snapshot(), ingest.alreadyLoaded, disk.store)
  }

  function TargetOf(ctx: PipelineContext): Target
  {
    Target(ctx.configSet, ctx.modelId, ctx.registry)
  }

  class PipelineManager {
    var phases: seq<PhaseKind>

    constructor()
      ensures phases == []
    {
      phases := [];
    }

    /** `registerPhase`. */
    method RegisterPhase(phase: PhaseKind)
      modifies this
      ensures phases == old(phases) + [phase]
    {
      phases := phases + [phase];
    }

    /** `executePipeline(context)`. */
    method ExecutePipeline(ctx: PipelineContext, ingest: Ingest.IngestStrategy, disk: FileSystem, o: Oracles)
      returns (thrown: Option<string>)
      modifies ctx, ingest, disk
      ensures var r := RunPhases(phases, TargetOf(ctx), o, old(StateOf(ctx, ingest, disk)));
        StateOf(ctx, ingest, disk) == r.state && thrown == r.thrown
    {
      ghost var goal := RunPhases(phases, TargetOf(ctx), o, StateOf(ctx, ingest, disk));
      var i := 0;
      assert phases[0..] == phases;
      while i < |phases|
        invariant 0 <= i <= |phases|
        invariant var r := RunPhases(phases[i..], TargetOf(ctx), o, StateOf(ctx, ingest, disk));
          r.state == goal.state && r.thrown == goal.thrown
      {
        ghost var rest := phases[i..];
        assert rest[0] == phases[i] && rest[1..] == phases[i + 1..];
        if phases[i] in PhasesThatRequireNoErrors && |ctx.errors| > 0 {
          break;
        }
        thrown := RunPhase(phases[i], ctx, ingest, disk, o);
        if thrown.Some? {
          return;
        }
        i := i + 1;
      }
      thrown := None;
    }

    /** `phase.execute(context)`. */
    method RunPhase(phase: PhaseKind, ctx: PipelineContext, ingest: Ingest.IngestStrategy, disk: FileSystem, o: Oracles)
      returns (thrown: Option<string>)
      modifies ctx, ingest, disk
      ensures PhaseStep(phase, TargetOf(ctx), o, old(StateOf(ctx, ingest, disk))) == Step(StateOf(ctx, ingest, disk), thrown)
    {
      match phase
      case IngestPhase =>
        thrown := ingest.Execute(ctx, disk.store, o);
      case ConversionPhase =>
        Conversion.ExecuteConversion(ctx, o.parse);
        thrown := None;
      case ValidationPhase =>
        Validation.ExecuteValidation(ctx, o);
        thrown := None;
      case BuildPhase =>
        Build.ExecuteBuild(ctx, o.pretty);
        thrown := None;
      case VerificationPhase =>
        thrown := Verification.ExecuteVerification(ctx, o);
      case ProblemResolutionPhase =>
        thrown := None;
      case VersioningPhase =>
        thrown := Versioning.ExecuteVersioning(ctx, o, disk);
      case OutputConversionPhase =>
        OutputConversion.ExecuteOutputConversion(ctx, o.pretty);
        thrown := None;
      case SerializationPhase =>
        thrown := Serialization.ExecuteSerialization(ctx, ctx.configSet.root, disk);
    }
  }
}
