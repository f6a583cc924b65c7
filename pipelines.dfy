/** The engine's collaborators seen from the engine: pipelines, documents, metadata and the configurator. */
module Pipelines {
  import opened Wrappers
  import Tracing

  /** An opaque document produced by a pipeline; the engine only collects references to it. */
  datatype Document = Document(id: nat)

  /** An opaque metadata value. */
  datatype Value = Value(id: nat)

  /**
   * A named pipeline of `moduleCount` modules. Running it yields `output`, in that order,
   * writes its modules' `messages` to the trace at the indent level it is started at, and
   * leaves the indent level shifted by `indentShift` (whatever its modules did to the
   * indentation and did not undo).
   */
  datatype Pipeline = Pipeline(name: string, moduleCount: nat, output: seq<Document>,
                               messages: seq<string>, indentShift: int)
  {
    /** The trace events of this pipeline's own messages, written at indent level `indent`. */
    function Log(indent: int): seq<Tracing.Entry>
    {
      seq(|messages|, i requires 0 <= i < |messages| =>
        Tracing.Entry(Tracing.Information, indent, Tracing.Text(messages[i])))
    }

    method Execute(trace: Tracing.Trace) returns (results: seq<Document>)
      modifies trace`indentLevel, trace`log
      ensures results == output
      ensures trace.log == old(trace.log) + Log(old(trace.indentLevel))
      ensures trace.indentLevel == old(trace.indentLevel) + indentShift
    {
      ghost var level := trace.indentLevel;
      for i := 0 to |messages|
        invariant trace.indentLevel == level
        invariant trace.log == old(trace.log) + Log(level)[..i]
      {
        trace.Information(Tracing.Text(messages[i]));
        assert Log(level)[..i + 1] == Log(level)[..i] + [Log(level)[i]];
      }
      trace.SetIndentLevel(trace.indentLevel + indentShift);
      results := output;
    }
  }

  /** What a configurator may change on the engine: its pipeline collection and its metadata. */
  datatype Setup = Setup(pipelines: seq<Pipeline>, metadata: map<string, Value>)

  /** The effect of one configurator call: the engine's new setup and, if it threw, its message. */
  datatype Step = Step(setup: Setup, failure: Option<string>)

  /**
   * The configurator as an opaque step: `configure` runs an optional configuration script,
   * `defaults` populates the default pipelines; both see the engine's current setup.
   */
  datatype Configurator = Configurator(configure: (Option<string>, Setup) -> Step, defaults: Setup -> Step)
}
