/** The engine: one-time configuration, the pipeline execution loop, the root folder and the diagnostic table. */
module Core {
  import opened Wrappers
  import opened Tracing
  import opened Pipelines
  import opened Runs

  /** Microsoft.CodeAnalysis.DiagnosticSeverity. */
  datatype DiagnosticSeverity = Hidden | Info | Warning | Error

  /** The exceptions the engine's operations throw. */
  datatype EngineError =
    | InvalidOperation(message: string)       // Configure on a configured engine
    | Argument(message: string)               // RootFolder set to null or white space
    | KeyNotFound                             // a severity missing from DiagnosticMapping
    | ConfigurationFailed(message: string)    // whatever the configurator threw

  const AlreadyConfiguredMessage := "This engine has already been configured."

  /** Routes compiler diagnostics to trace levels; there is no entry for Hidden. */
  const DiagnosticMapping: map<DiagnosticSeverity, TraceEventType> :=
    map[DiagnosticSeverity.Error := TraceEventType.Error,
        DiagnosticSeverity.Warning := TraceEventType.Warning,
        DiagnosticSeverity.Info := TraceEventType.Information]

  /** The diagnostic severity a trace level stands for, if any. */
  function SeverityOf(t: TraceEventType): Option<DiagnosticSeverity>
  {
    match t
    case Error => Some(DiagnosticSeverity.Error)
    case Warning => Some(DiagnosticSeverity.Warning)
    case Information => Some(DiagnosticSeverity.Info)
    case _ => None
  }

  /**
   * Indexing DiagnosticMapping: fails for exactly the one severity without an entry,
   * and otherwise yields the level that stands for that severity.
   */
  function MapDiagnostic(s: DiagnosticSeverity): (r: Result<TraceEventType, EngineError>)
    ensures r.Failure? <==> s == DiagnosticSeverity.Hidden
    ensures r.Failure? ==> r.error == KeyNotFound
    ensures r.Success? ==> SeverityOf(r.value) == Some(s)
  {
    DiagnosticMappingKeys(s);
    if s in DiagnosticMapping then Success(DiagnosticMapping[s]) else Failure(KeyNotFound)
  }

  /** The table has an entry for every severity but Hidden. */
  lemma DiagnosticMappingKeys(s: DiagnosticSeverity)
    ensures s in DiagnosticMapping <==> s != DiagnosticSeverity.Hidden
  {
  }

  /** SeverityOf inverts the table: every level that stands for a severity is where that severity is routed. */
  lemma MapDiagnosticInverse(t: TraceEventType, s: DiagnosticSeverity)
    ensures SeverityOf(t) == Some(s) <==> MapDiagnostic(s) == Success(t)
  {
  }

  /** .NET's Char.IsWhiteSpace: the Unicode space, line and paragraph separators and the listed controls. */
  predicate IsWhiteSpace(c: char)
  {
    ('\U{0009}' <= c <= '\U{000D}') || c == ' ' || c == '\U{0085}' || c == '\U{00A0}' || c == '\U{1680}'
    || ('\U{2000}' <= c <= '\U{200A}') || c == '\U{2028}' || c == '\U{2029}' || c == '\U{202F}'
    || c == '\U{205F}' || c == '\U{3000}'
  }

  /** string.IsNullOrWhiteSpace. */
  predicate IsNullOrWhiteSpace(value: Option<string>)
  {
    value.None? || forall i | 0 <= i < |value.value| :: IsWhiteSpace(value.value[i])
  }

  /** The configuration `Execute` and `ConfigureDefaultPipelines` perform first: none if already configured. */
  function ImplicitConfiguration(configurator: Configurator, configured: bool, setup: Setup): Step
  {
    if configured then Step(setup, None) else configurator.configure(None, setup)
  }

  /** Running `next` after `first`, unless `first` threw. */
  function Then(first: Step, next: Setup -> Step): Step
  {
    if first.failure.Some? then first else next(first.setup)
  }

  /** What a configurator step's exception becomes for the engine's caller. */
  function OutcomeOf(step: Step): Outcome<EngineError>
  {
    match step.failure
    case Some(message) => Fail(ConfigurationFailed(message))
    case None => Pass
  }

  class Engine {
    var configured: bool
    var metadata: map<string, Value>
    var completedDocuments: seq<Document>
    var pipelines: seq<Pipeline>
    const trace: Trace
    var rootFolder: string

    /** The part of the engine a configurator changes. */
    function State(): Setup
      reads this
    {
      Setup(pipelines, metadata)
    }

    /** `step` has been applied to the engine, and `r` is what its caller sees. */
    predicate Applied(step: Step, r: Outcome<EngineError>)
      reads this
    {
      State() == step.setup && r == OutcomeOf(step)
    }

    /** A new engine: unconfigured, nothing configured or computed yet, rooted at the working directory. */
    constructor (currentDirectory: string)
      ensures !configured
      ensures metadata == map[] && pipelines == [] && completedDocuments == []
      ensures rootFolder == currentDirectory
      ensures fresh(trace) && trace.indentLevel == 0 && trace.log == []
    {
      configured := false;
      metadata := map[];
      completedDocuments := [];
      pipelines := [];
      trace := new Trace();
      rootFolder := currentDirectory;
    }

    /**
     * The RootFolder setter: null, empty and white-space values are refused and change
     * nothing; anything else is stored and read back by the getter.
     */
    method SetRootFolder(value: Option<string>) returns (r: Outcome<EngineError>)
      modifies this`rootFolder
      ensures r.Fail? <==> IsNullOrWhiteSpace(value)
      ensures r.Fail? ==> r.error == Argument("RootFolder") && rootFolder == old(rootFolder)
      ensures r.Pass? ==> rootFolder == value.value
      ensures r.Pass? ==> exists i | 0 <= i < |rootFolder| :: !IsWhiteSpace(rootFolder[i])
    {
      if IsNullOrWhiteSpace(value) {
        return Fail(Argument("RootFolder"));
      }
      rootFolder := value.value;
      r := Pass;
    }

    /** Lets the configurator's step take effect on the pipeline collection and metadata. */
    method ApplyStep(step: Step) returns (r: Outcome<EngineError>)
      modifies this`pipelines, this`metadata
      ensures Applied(step, r)
    {
      pipelines := step.setup.pipelines;
      metadata := step.setup.metadata;
      r := OutcomeOf(step);
    }

    /**
     * Configures the engine, at most once. A second call throws before changing anything;
     * the first marks the engine configured before the configurator runs, so even a
     * configurator that throws uses up the one configuration.
     */
    method Configure(configurator: Configurator, script: Option<string>) returns (r: Outcome<EngineError>)
      modifies this`configured, this`pipelines, this`metadata
      ensures configured
      ensures old(configured) ==> r == Fail(InvalidOperation(AlreadyConfiguredMessage)) && State() == old(State())
      ensures !old(configured) ==> Applied(configurator.configure(script, old(State())), r)
    {
      if configured {
        return Fail(InvalidOperation(AlreadyConfiguredMessage));
      }
      configured := true;
      r := ApplyStep(configurator.configure(script, State()));
    }

    /** Configures with defaults unless already configured, then lets the configurator add the default pipelines. */
    method ConfigureDefaultPipelines(configurator: Configurator) returns (r: Outcome<EngineError>)
      modifies this`configured, this`pipelines, this`metadata
      ensures configured
      ensures Applied(Then(ImplicitConfiguration(configurator, old(configured), old(State())), configurator.defaults), r)
    {
      if !configured {
        r := Configure(configurator, None);
        if r.Fail? {
          return;
        }
      }
      r := ApplyStep(configurator.defaults(State()));
    }

    /**
     * One pass of the execution loop: the pipeline is announced as number `ordinal`, runs one
     * indent level deeper than the engine's reports, has its output appended, and is reported
     * after the indent level is restored to the one saved before it ran.
     */
    method ExecutePipeline(pipeline: Pipeline, ordinal: nat) returns (results: seq<Document>)
      modifies this`completedDocuments, trace`indentLevel, trace`log
      ensures results == pipeline.output
      ensures completedDocuments == old(completedDocuments) + pipeline.output
      ensures trace.log == old(trace.log) + PipelineEntries(pipeline, ordinal, old(trace.indentLevel))
      ensures trace.indentLevel == old(trace.indentLevel)
    {
      trace.Information(ExecutingPipeline(ordinal, pipeline.moduleCount));
      var indent := trace.Indent();
      results := pipeline.Execute(trace);
      completedDocuments := completedDocuments + results;
      trace.SetIndentLevel(indent);
      trace.Information(ExecutedPipeline(ordinal, |results|));
    }

    /**
     * Runs every pipeline in order. The completed documents are replaced by the pipelines'
     * outputs, concatenated in order; the trace is back at the indent level it had on entry,
     * whatever the pipelines did to it, and has received the run's reports, with pipelines
     * numbered from 1 and each pipeline's messages nested one level deeper.
     */
    method ExecutePipelines()
      modifies this`completedDocuments, trace`indentLevel, trace`log
      ensures completedDocuments == Concat(pipelines)
      ensures trace.log == old(trace.log) + ExecutionLog(pipelines, old(trace.indentLevel))
      ensures trace.indentLevel == old(trace.indentLevel)
    {
      trace.Information(ExecutingPipelines(|pipelines|));
      completedDocuments := [];
      var c: nat := 1;
      var i := 0;
      ghost var level := trace.indentLevel;
      ghost var before := trace.log;
      while i < |pipelines|
        invariant 0 <= i <= |pipelines|
        invariant c == i + 1
        invariant completedDocuments == Concat(pipelines[..i])
        invariant trace.indentLevel == level
        invariant trace.log == before + PipelineLog(pipelines[..i], 1, level)
      {
        var pipeline := pipelines[i];
        var results := ExecutePipeline(pipeline, c);
        c := c + 1;

        assert pipelines[..i + 1] == pipelines[..i] + [pipeline];
        ConcatAppend(pipelines[..i], [pipeline]);
        PipelineLogAppend(pipelines[..i], [pipeline], 1, level);
        assert PipelineLog([pipeline], 1 + i, level) == PipelineEntries(pipeline, 1 + i, level) by {
          assert [pipeline][1..] == [];
        }
        i := i + 1;
      }
      assert pipelines[..i] == pipelines;
      trace.Information(ExecutedPipelines(|pipelines|));
    }

    /**
     * Configures with defaults unless already configured, then runs every pipeline. It never
     * meets the already-configured error; if the implicit configuration throws, nothing runs.
     */
    method Execute(configurator: Configurator) returns (r: Outcome<EngineError>)
      modifies this`configured, this`pipelines, this`metadata, this`completedDocuments
      modifies trace`indentLevel, trace`log
      ensures configured
      ensures Applied(ImplicitConfiguration(configurator, old(configured), old(State())), r)
      ensures !(r.Fail? && r.error.InvalidOperation?)
      ensures r.Fail? ==> completedDocuments == old(completedDocuments) && trace.log == old(trace.log)
      ensures r.Pass? ==> completedDocuments == Concat(pipelines)
      ensures r.Pass? ==> trace.log == old(trace.log) + ExecutionLog(pipelines, old(trace.indentLevel))
      ensures trace.indentLevel == old(trace.indentLevel)
    {
      r := Pass;
      if !configured {
        r := Configure(configurator, None);
        if r.Fail? {
          return;
        }
      }
      ExecutePipelines();
    }
  }
}
