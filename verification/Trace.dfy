/** Invocation events and the traces built from them (kernel/events.py, diagnostics/trace.py). */
module Trace {
  import opened Wrappers
  import opened Messages
  import opened Digests
  import opened State
  import opened Checkpoints
  import opened Views

  datatype RequestKind = StartKind | ContinueKind | ResumeKind

  datatype StopReason = TerminalStop | SuspendedStop | CancelledStop | ConsumerClosedStop | RepositoryErrorStop

  datatype Event =
    | InvocationStarted(requestKind: RequestKind, startingId: Option<Text>, starting: Option<RunView>)
    | ModelStarted(planningStep: int)
    | ModelDelta
    | ModelFinished(finishReason: Option<Text>, runtimeCalls: int, providerCalls: int, usage: Option<Usage>)
    | ToolBatchSelected(batchId: Text, callIds: seq<Text>, parallel: bool, remainingCount: int, remainingDigest: Digest)
    | ApprovalRequested(batchId: Text, index: int, callId: Text)
    | ApprovalDecided(callId: Text)
    | ToolStarted(batchId: Text, index: int, callId: Text, parallel: bool)
    | ToolProgress(callId: Text)
    | ToolCancelRequested(callId: Text)
    | ToolFinished(batchId: Text, index: int, callId: Text, outcome: OutcomeKind)
    | CheckpointCommitted(checkpointId: Text, fact: Fact, after: RunView)
    | InvocationStopped(stopReason: StopReason, lastId: Option<Text>)

  datatype TraceEntry = TraceEntry(sequence: int, event: Event)

  datatype RunTrace = RunTrace(requestKind: RequestKind, entries: seq<TraceEntry>)

  /** The event kinds an invocation may drop when its buffer is full. */
  predicate Lossy(e: Event) { e.ModelDelta? || e.ToolProgress? }
}
