# Wyam engine orchestration core, in Dafny

This project models the orchestration core of the Wyam static content engine, the `Engine` class of
`Wyam.Core/Engine.cs`. The engine does four things:

- It is configured at most once. `Configure` runs the configurator with an optional script. A second
  call throws "This engine has already been configured." and changes nothing. `Execute` and
  `ConfigureDefaultPipelines` configure with defaults first, but only when the engine is not yet
  configured.
- `Execute` clears the completed documents and runs the pipelines in collection order. It appends
  each pipeline's output, so the result is the ordered concatenation of the outputs. Around each
  pipeline it saves the trace indent level, indents, and afterwards restores the saved level. A
  1-based counter numbers the pipelines in the trace reports.
- The `RootFolder` setter rejects null, empty and white-space values with an `ArgumentException`.
- A constant table routes Roslyn diagnostic severities to trace event types.

Layout, one module per concern:

- `wrappers.dfy` (`Wrappers`): `Option` (C# `null` is `None`), `Result` and `Outcome`. Thrown
  exceptions are returned as `Failure` or `Fail`.
- `tracing.dfy` (`Tracing`): the trace channel, a collaborator. `Trace` is a class with an
  `indentLevel`, `Indent()`, an indent-level setter and an information writer. The writer appends a
  structured `Entry` (level, indent, message arguments) to `log`.
- `pipelines.dfy` (`Pipelines`): the other collaborators.
  - `Pipeline` is a value with a name, a module count, the documents it outputs, the messages its
    modules write to the trace, and the indent shift its modules leave behind.
  - `Setup` is what a configurator may change: the pipeline list and the metadata.
  - `Configurator` is an opaque step. It holds two total functions from the engine's current setup to
    a `Step`: the new setup, plus the exception message if the configurator threw.
- `runs.dfy` (`Runs`): the specification of one execution loop. `Concat` gives its documents and
  `ExecutionLog` its trace events. The lemmas here state order, length and numbering.
- `engine.dfy` (`Core`): the diagnostic table, `IsNullOrWhiteSpace`, and the `Engine` class with its
  fields `configured`, `metadata`, `completedDocuments`, `pipelines`, `trace` and `rootFolder`.
- `scenarios.dfy` (`Scenarios`): clients of the engine that use only its contracts. They cover
  repeated execution, double configuration and root-folder updates.

The assignment `_configured = true` runs before the configurator is called
(`Wyam.Core/Engine.cs:90-92`). So a configurator that throws still uses up the single configuration.
After that, `Configure` reports "already configured", and `Execute` runs whatever pipelines the failed
step left. The model keeps this order.

Roslyn's `DiagnosticSeverity` has a fourth member, `Hidden`, which the table at
`Wyam.Core/Engine.cs:79-81` has no entry for. Looking it up fails with `KeyNotFound`, the
dictionary's `KeyNotFoundException`.

## Model

| member | source | states |
|---|---|---|
| `Core.MapDiagnostic` | Wyam.Core/Engine.cs:76-82 | Lookup fails, with `KeyNotFound`, exactly for `Hidden`. Any other severity maps to the trace level that stands for it (Error→Error, Warning→Warning, Info→Information). |
| `Core.DiagnosticMappingKeys` | Wyam.Core/Engine.cs:76-82 | The table has a key for every severity except `Hidden`. |
| `Core.MapDiagnosticInverse` | Wyam.Core/Engine.cs:79-81 | The mapping and `SeverityOf` are inverses in both directions, so no two severities share a trace level. |
| `Core.Engine.constructor` | Wyam.Core/Engine.cs:23-73 | A new engine is unconfigured, with empty metadata, no pipelines and no completed documents. Its root folder is the working directory, and it owns a fresh trace. |
| `Core.Engine.SetRootFolder` | Wyam.Core/Engine.cs:59-66 | Fails with `Argument("RootFolder")` if and only if the value is null, empty or all white space, and the folder is then unchanged. Otherwise it stores the value, which then contains a non-white-space character. |
| `Core.Engine.ApplyStep` | Wyam.Core/Engine.cs:91-92 | The configurator's step replaces the pipelines and metadata. Its exception, if any, reaches the caller as `ConfigurationFailed`. |
| `Core.Engine.Configure` | Wyam.Core/Engine.cs:84-93 | On a configured engine it fails with the already-configured error and changes nothing. Otherwise it sets `configured` and applies the configurator's step for the script to the old setup. |
| `Core.Engine.ConfigureDefaultPipelines` | Wyam.Core/Engine.cs:95-105 | Configures with defaults only if still unconfigured, then applies the default-pipeline step. A throwing implicit configuration skips that step. Afterwards the engine is configured. |
| `Core.Engine.ExecutePipeline` | Wyam.Core/Engine.cs:120-125 | One loop pass appends the pipeline's output to the completed documents. It adds the announcement, then the pipeline's own messages one indent level deeper, then the result report, both reports under the given ordinal. The indent level ends where it started, whatever the pipeline left it at. |
| `Core.Engine.ExecutePipelines` | Wyam.Core/Engine.cs:115-127 | The completed documents are replaced by `Concat(pipelines)`. The trace gains exactly `ExecutionLog(pipelines, level on entry)`: the pipelines are numbered from 1 and each one's messages are one level deeper than the engine's reports. The indent level is back where it was, whatever the pipelines did to it. |
| `Core.Engine.Execute` | Wyam.Core/Engine.cs:107-128 | Configures with defaults only if unconfigured, and never fails with the already-configured error. If that implicit configuration throws, nothing runs: the documents and trace are unchanged, given that the configurator does not write to the trace. Otherwise the outcome is that of `ExecutePipelines` on the configured pipelines. |
| `Runs.ConcatAppend` | Wyam.Core/Engine.cs:116-126 | Concatenating outputs distributes over splitting the pipeline list. This is the step each `AddRange` takes. |
| `Runs.ConcatLength` | Wyam.Core/Engine.cs:122-123 | The result length is the sum of the pipelines' output counts, so nothing is dropped or deduplicated. |
| `Runs.ConcatLocate` | Wyam.Core/Engine.cs:118-126 | Document j of pipeline k sits at offset j after all documents of the earlier pipelines. Pipeline order and each pipeline's own order are both kept. |
| `Runs.PipelineLogAppend` | Wyam.Core/Engine.cs:117-125 | Reporting on two pipeline lists back to back is the first list's reports followed by the second's, numbered on from where the first stopped. |
| `Runs.PipelineLogLength` | Wyam.Core/Engine.cs:118-126 | The per-pipeline reports hold exactly two events per pipeline plus its messages. |
| `Runs.PipelineLogAt` | Wyam.Core/Engine.cs:117-125 | Pipeline k's entries (announcement with its module count, its messages one level deeper, result with its document count, under ordinal first + k; first is 1 in `Execute`) come right after the events of the pipelines before it and right before those after it. |
| `Runs.PipelineLogLevel` | Wyam.Core/Engine.cs:119-126 | Every per-pipeline event is an information event. The engine's reports are at the level the loop started at, and the pipelines' messages are one level deeper. |
| `Runs.ExecutionLogLevel` | Wyam.Core/Engine.cs:115-127 | A run writes two events more than its pipelines account for. All are information events; the engine's own are at the caller's indent level, and the pipelines' messages one level deeper. |
| `Tracing.Trace.constructor` | Wyam.Core/Engine.cs:47 | A new trace is at indent level 0 with nothing written. |
| `Tracing.Trace.Indent` | Wyam.Core/Engine.cs:121 | Returns the level before indenting, and the level rises by one. |
| `Tracing.Trace.SetIndentLevel` | Wyam.Core/Engine.cs:124 | The indent level becomes the given value. |
| `Tracing.Trace.Information` | Wyam.Core/Engine.cs:120 | Appends one information event at the current indent level. |
| `Pipelines.Pipeline.Execute` | Wyam.Core/Engine.cs:122 | Yields the pipeline's output, writes its messages at the indent level it is started at, and shifts the level by whatever its modules left behind. |
| `Scenarios.ExecuteTwice` | Wyam.Core/Engine.cs:107-128 | On a new engine, the first `Execute` reports the default configuration's outcome. The second always succeeds, leaves the concatenation for that single configuration (a failed one is not retried), and after a successful first run leaves the same documents, so results are replaced, not appended. |
| `Scenarios.ConfigureTwice` | Wyam.Core/Engine.cs:84-93 | A second `Configure` fails with the already-configured error and keeps the setup the first call produced. |
| `Scenarios.RootFolderUpdates` | Wyam.Core/Engine.cs:59-66 | Setting `""`, `" "` and null fails and keeps the working directory. Setting `"/srv/site"` succeeds and is read back. |

## Left out

- The configurator's internals are not modelled: Roslyn script compilation and NuGet package resolution (`Wyam.Core/Engine.cs:10-16`, `91-92`, `103-104`). They are foreign library code. The configurator is an arbitrary function of the engine's setup, which may also throw.
- Core.Engine.Execute, Core.Engine.Configure, Core.Engine.ConfigureDefaultPipelines: the configurator is taken to write nothing to the engine's trace and not to change its indent level. In the source it receives the whole engine (`Wyam.Core/Engine.cs:91`, `103`), whose trace is public, so it could log diagnostics before throwing. The contracts' statements about the trace assume it does not.
- What a pipeline's modules do to documents is not modelled. Each pipeline's output is a given sequence. Its effect on the trace is a given list of messages and an indent shift. `PipelineCollection` is not part of this model: it is a plain sequence, and pipeline names are not checked for uniqueness.
- Trace messages keep only their format arguments (counts and ordinals). Formatting and the sink are not modelled. The real `Trace` implementation is not in `Wyam.Core/Engine.cs`. The class here models only its indent level and an append-only log, so any clamping of negative levels is not modelled.
- A pipeline's modules are taken to write all their messages at the level the pipeline starts at. Nesting inside the pipeline is not modelled.
- `Environment.CurrentDirectory` is process state. It is the constructor's parameter `currentDirectory`.
- Metadata values are opaque `Value`s.
- The `Metadata`, `Pipelines`, `CompletedDocuments`, `Trace` and `RootFolder` getters are reads of the corresponding fields. The read-only wrapper returned by `CompletedDocuments` is not modelled.
- Concurrent or re-entrant `Execute` calls are not modelled. The code has no synchronisation.
- A pipeline that throws is not modelled. `Execute` does not catch it, and the partial results and unrestored indentation it would leave are not modelled.
