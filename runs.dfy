/** What one pass of the engine's execution loop produces: its documents and its trace events. */
module Runs {
  import opened Pipelines
  import opened Tracing

  /** The outputs of `ps`, pipeline after pipeline, each in its own order. */
  function Concat(ps: seq<Pipeline>): seq<Document>
  {
    if ps == [] then [] else ps[0].output + Concat(ps[1..])
  }

  /** The sum of the output counts of `ps`. */
  function DocumentCount(ps: seq<Pipeline>): nat
  {
    if ps == [] then 0 else |ps[0].output| + DocumentCount(ps[1..])
  }

  /**
   * What pipeline `p` adds to the trace when it runs as number `ordinal` from indent level
   * `indent`: the announcement, its own messages one level deeper, and the result report.
   */
  function PipelineEntries(p: Pipeline, ordinal: nat, indent: int): seq<Entry>
  {
    [Entry(TraceEventType.Information, indent, ExecutingPipeline(ordinal, p.moduleCount))]
    + p.Log(indent + 1)
    + [Entry(TraceEventType.Information, indent, ExecutedPipeline(ordinal, |p.output|))]
  }

  /** The number of trace events the pipelines `ps` account for in a run. */
  function EntryCount(ps: seq<Pipeline>): nat
  {
    if ps == [] then 0 else |ps[0].messages| + 2 + EntryCount(ps[1..])
  }

  /** The events reported around each of `ps`, numbered from `first` on. */
  function PipelineLog(ps: seq<Pipeline>, first: nat, indent: int): seq<Entry>
  {
    if ps == [] then [] else PipelineEntries(ps[0], first, indent) + PipelineLog(ps[1..], first + 1, indent)
  }

  /** Everything one execution of `ps` writes to the trace, started at indent level `indent`. */
  function ExecutionLog(ps: seq<Pipeline>, indent: int): seq<Entry>
  {
    [Entry(TraceEventType.Information, indent, ExecutingPipelines(|ps|))]
    + PipelineLog(ps, 1, indent)
    + [Entry(TraceEventType.Information, indent, ExecutedPipelines(|ps|))]
  }

  /** Aggregation distributes over splitting the pipeline collection. */
  lemma {:induction false} ConcatAppend(ps: seq<Pipeline>, qs: seq<Pipeline>)
    ensures Concat(ps + qs) == Concat(ps) + Concat(qs)
  {
    if ps == [] {
      assert ps + qs == qs;
    } else {
      assert (ps + qs)[1..] == ps[1..] + qs;
      ConcatAppend(ps[1..], qs);
    }
  }

  /** Nothing is dropped or deduplicated: the result holds exactly as many documents as the pipelines produced. */
  lemma {:induction false} ConcatLength(ps: seq<Pipeline>)
    ensures |Concat(ps)| == DocumentCount(ps)
  {
    if ps != [] {
      ConcatLength(ps[1..]);
    }
  }

  /**
   * Document `j` of pipeline `k` sits at position `j` after the documents of the
   * pipelines before `k`: order across and within pipelines is kept.
   */
  lemma {:induction false} ConcatLocate(ps: seq<Pipeline>, k: nat, j: nat)
    requires k < |ps| && j < |ps[k].output|
    ensures DocumentCount(ps[..k]) + j < |Concat(ps)|
    ensures Concat(ps)[DocumentCount(ps[..k]) + j] == ps[k].output[j]
  {
    ConcatLength(ps[1..]);
    if k == 0 {
      assert ps[..k] == [];
    } else {
      assert ps[..k][1..] == ps[1..][..k - 1];
      ConcatLocate(ps[1..], k - 1, j);
    }
  }

  /** Reporting on two runs of pipelines back to back is reporting on both, numbered on. */
  lemma {:induction false} PipelineLogAppend(ps: seq<Pipeline>, qs: seq<Pipeline>, first: nat, indent: int)
    ensures PipelineLog(ps + qs, first, indent) == PipelineLog(ps, first, indent) + PipelineLog(qs, first + |ps|, indent)
  {
    if ps == [] {
      assert ps + qs == qs;
    } else {
      assert (ps + qs)[1..] == ps[1..] + qs;
      PipelineLogAppend(ps[1..], qs, first + 1, indent);
    }
  }

  /** The pipelines account for as many events as the log holds. */
  lemma {:induction false} PipelineLogLength(ps: seq<Pipeline>, first: nat, indent: int)
    ensures |PipelineLog(ps, first, indent)| == EntryCount(ps)
  {
    if ps != [] {
      PipelineLogLength(ps[1..], first + 1, indent);
    }
  }

  /**
   * Pipeline k is reported in order, under ordinal first + k: its entries (announcement,
   * its messages one level deeper, result) follow exactly the EntryCount(ps[..k]) events of
   * the pipelines before it, and the later pipelines' events follow them.
   */
  lemma {:induction false} PipelineLogAt(ps: seq<Pipeline>, first: nat, indent: int, k: nat)
    requires k < |ps|
    ensures PipelineLog(ps, first, indent)
         == PipelineLog(ps[..k], first, indent) + PipelineEntries(ps[k], first + k, indent)
            + PipelineLog(ps[k + 1..], first + k + 1, indent)
    ensures |PipelineLog(ps[..k], first, indent)| == EntryCount(ps[..k])
  {
    assert ps == ps[..k] + ([ps[k]] + ps[k + 1..]);
    PipelineLogAppend(ps[..k], [ps[k]] + ps[k + 1..], first, indent);
    PipelineLogAppend([ps[k]], ps[k + 1..], first + k, indent);
    assert ([ps[k]] + ps[k + 1..])[1..] == ps[k + 1..];
    assert PipelineLog([ps[k]], first + k, indent) == PipelineEntries(ps[k], first + k, indent) by {
      assert [ps[k]][1..] == [];
    }
    PipelineLogLength(ps[..k], first, indent);
  }

  /**
   * The engine writes its own reports at the indent level the loop started at, and every
   * pipeline message one level deeper; all are information events.
   */
  lemma {:induction false} PipelineLogLevel(ps: seq<Pipeline>, first: nat, indent: int)
    ensures forall e | e in PipelineLog(ps, first, indent) ::
      e.level == TraceEventType.Information && e.indent == (if e.message.Text? then indent + 1 else indent)
  {
    if ps != [] {
      PipelineLogLevel(ps[1..], first + 1, indent);
      var log0 := ps[0].Log(indent + 1);
      forall e | e in log0
        ensures e.level == TraceEventType.Information && e.indent == indent + 1 && e.message.Text?
      {
        var i :| 0 <= i < |log0| && log0[i] == e;
      }
    }
  }

  /**
   * A run writes two reports more than its pipelines account for: the engine's own at the
   * caller's indent level, each pipeline's messages one level deeper.
   */
  lemma {:induction false} ExecutionLogLevel(ps: seq<Pipeline>, indent: int)
    ensures |ExecutionLog(ps, indent)| == EntryCount(ps) + 2
    ensures forall e | e in ExecutionLog(ps, indent) ::
      e.level == TraceEventType.Information && e.indent == (if e.message.Text? then indent + 1 else indent)
  {
    PipelineLogLength(ps, 1, indent);
    PipelineLogLevel(ps, 1, indent);
  }
}
