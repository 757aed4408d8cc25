/**
 * The execution listener `createListener` returns: it forwards every call to the runner's own
 * listener for the operation (the delegate) and brackets the operation with a progress logger.
 */
module ProgressLogging {
  import opened Wrappers
  import opened Failures
  import opened Executor

  /** The status text and failure an operation finished with (`DefaultBuildOperationContext`). */
  datatype OperationContext = OperationContext(status: Option<string>, failure: Option<Failure>)

  /** A progress logger the progress logger factory created for one operation. */
  datatype ProgressLogger = ProgressLogger(descriptor: Descriptor)

  /** A call the decorated listener makes, on its delegate or on the progress logging. */
  datatype ListenerCall =
    | DelegateStart(operation: Descriptor)
    | NewProgressOperation(descriptor: Descriptor)
    | ProgressStart(displayName: string, progressDisplayName: Option<string>)
    | ProgressCompleted(status: Option<string>, failed: bool)
    | DelegateStop(operation: Descriptor, context: OperationContext)
    | DelegateClose(operation: Descriptor)

  class ProgressLoggingListener {
    /**
     * The parent and descriptor the delegate was created from: `createListener` passes them to
     * the runner's own `createListener` and keeps nothing else of them.
     */
    const parent: OperationState?
    const descriptor: Descriptor
    /** Null until `start` has created the progress logger. */
    var progressLogger: Option<ProgressLogger>
    /** The calls made so far, in order. */
    var calls: seq<ListenerCall>

    constructor (parent: OperationState?, descriptor: Descriptor)
      ensures this.parent == parent && this.descriptor == descriptor
      ensures progressLogger == None && calls == []
    {
      this.parent := parent;
      this.descriptor := descriptor;
      progressLogger := None;
      calls := [];
    }

    /**
     * The delegate is told first; only when it returns is a progress logger created for the
     * operation's descriptor and started with its display names.
     */
    method Start(state: OperationState, delegateThrows: Option<Failure>) returns (thrown: Option<Failure>)
      modifies this
      ensures thrown == delegateThrows
      ensures delegateThrows.Some? ==>
        calls == old(calls) + [DelegateStart(state.descriptor)] && progressLogger == old(progressLogger)
      ensures delegateThrows.None? ==>
        var d := state.descriptor;
        calls == old(calls) + [DelegateStart(d), NewProgressOperation(d), ProgressStart(d.displayName, d.progressDisplayName)] &&
        progressLogger == Some(ProgressLogger(d))
    {
      calls := calls + [DelegateStart(state.descriptor)];
      if delegateThrows.Some? {
        thrown := delegateThrows;
        return;
      }
      var d := state.descriptor;
      calls := calls + [NewProgressOperation(d)];
      calls := calls + [ProgressStart(d.displayName, d.progressDisplayName)];
      progressLogger := Some(ProgressLogger(d));
      thrown := None;
    }

    /**
     * The progress logger is completed first, flagged failed exactly when the operation failed,
     * and the delegate is told afterwards. Without a progress logger (no successful `start`) the
     * call throws a `NullPointerException` before the delegate is told.
     */
    method Stop(state: OperationState, context: OperationContext, delegateThrows: Option<Failure>) returns (thrown: Option<Failure>)
      modifies this
      ensures progressLogger == old(progressLogger)
      ensures old(progressLogger).None? ==> thrown == Some(NullPointer(None)) && calls == old(calls)
      ensures old(progressLogger).Some? ==>
        calls == old(calls) + [ProgressCompleted(context.status, context.failure.Some?), DelegateStop(state.descriptor, context)] &&
        thrown == delegateThrows
    {
      if progressLogger.None? {
        thrown := Some(NullPointer(None));
        return;
      }
      calls := calls + [ProgressCompleted(context.status, context.failure.Some?)];
      calls := calls + [DelegateStop(state.descriptor, context)];
      thrown := delegateThrows;
    }

    /** Closing is forwarded to the delegate alone. */
    method Close(state: OperationState, delegateThrows: Option<Failure>) returns (thrown: Option<Failure>)
      modifies this
      ensures progressLogger == old(progressLogger)
      ensures calls == old(calls) + [DelegateClose(state.descriptor)] && thrown == delegateThrows
    {
      calls := calls + [DelegateClose(state.descriptor)];
      thrown := delegateThrows;
    }
  }
}
