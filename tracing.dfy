/** The trace channel the engine writes through (the Trace class is a collaborator). */
module Tracing {

  /** System.Diagnostics.TraceEventType. */
  datatype TraceEventType =
    | Critical | Error | Warning | Information | Verbose
    | Start | Stop | Suspend | Resume | Transfer

  /**
   * Trace messages: the engine's own reports, by the arguments of their format strings,
   * and the free text a pipeline's modules write.
   */
  datatype Message =
    | ExecutingPipelines(count: nat)
    | ExecutingPipeline(ordinal: nat, modules: nat)
    | ExecutedPipeline(ordinal: nat, documents: nat)
    | ExecutedPipelines(count: nat)
    | Text(text: string)

  /** One written trace event: its level, the indent level it was written at, and the message. */
  datatype Entry = Entry(level: TraceEventType, indent: int, message: Message)

  /** An indentation-aware trace sink; `log` is everything written to it so far. */
  class Trace {
    var indentLevel: int
    var log: seq<Entry>

    constructor ()
      ensures indentLevel == 0 && log == []
    {
      indentLevel := 0;
      log := [];
    }

    /** Nests further output one level deeper and returns the level before. */
    method Indent() returns (previous: int)
      modifies this`indentLevel
      ensures previous == old(indentLevel)
      ensures indentLevel == previous + 1
    {
      previous := indentLevel;
      indentLevel := indentLevel + 1;
    }

    /** The `IndentLevel` setter. */
    method SetIndentLevel(level: int)
      modifies this`indentLevel
      ensures indentLevel == level
    {
      indentLevel := level;
    }

    /** Writes an information-level event at the current indent level. */
    method Information(message: Message)
      modifies this`log
      ensures log == old(log) + [Entry(TraceEventType.Information, indentLevel, message)]
    {
      log := log + [Entry(TraceEventType.Information, indentLevel, message)];
    }
  }
}
