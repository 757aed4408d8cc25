/**
 * The single-thread view of `DefaultBuildOperationExecutor`: adoption and teardown of a
 * synthetic root operation on an unmanaged thread, the `try/finally` wrappers of `run`, `call`
 * and `runAll`, `executeInParallel`, the parent-preserving queue worker and the running root.
 */
module Executor {
  import opened Wrappers
  import opened Failures
  import opened Identifiers

  /** `BuildOperationDescriptor`: what the listener is told about an operation. */
  datatype Descriptor = Descriptor(id: int, displayName: string, progressDisplayName: Option<string>, parentId: Option<int>)

  /** The descriptor of the synthetic root created for an unmanaged thread: no progress name, no parent. */
  function UnmanagedDescriptor(id: int, threadName: string): Descriptor {
    Descriptor(id, UnmanagedDisplayName(id, threadName), None, None)
  }

  /**
   * `BuildOperationState`: an operation's descriptor and start time, and whether it is running.
   * `unmanaged` says whether it is an `UnmanagedThreadOperation`.
   */
  class OperationState {
    const descriptor: Descriptor
    const startTime: int
    const unmanaged: bool
    var running: bool

    constructor (descriptor: Descriptor, startTime: int, unmanaged: bool)
      ensures this.descriptor == descriptor && this.startTime == startTime && this.unmanaged == unmanaged
      ensures !running
    {
      this.descriptor := descriptor;
      this.startTime := startTime;
      this.unmanaged := unmanaged;
      running := false;
    }
  }

  /** The calling thread: whether it is managed by Gradle (`GradleThread.isManaged()`) and its name. */
  datatype ThreadInfo = ThreadInfo(managed: bool, name: string)

  /** A call made on the build operation listener. */
  datatype ListenerEvent =
    | Started(descriptor: Descriptor, startTime: int)
    | Finished(descriptor: Descriptor, startTime: int, endTime: int, failure: Option<Failure>, result: Option<string>)

  /** What the build operation listener throws, if anything, from `started` and from `finished`. */
  datatype ListenerBehaviour = ListenerBehaviour(onStarted: Option<Failure>, onFinished: Option<Failure>)

  /** A build operation handed to a queue. */
  datatype BuildOperation = BuildOperation(displayName: string)

  /** The worker that runs queued operations: the runnable worker of `runAll(action)`, or a caller's. */
  datatype Worker = RunnableWorker | CustomWorker(name: string)

  /** A call of the runner's `execute(operation, worker, parent)` made by a queue worker. */
  datatype Execution = Execution(operation: BuildOperation, worker: Worker, parent: OperationState?)

  /**
   * How a top-level `run`, `call` or `runAll` ends: an adoption whose `started` notification threw
   * ends the inner step with that exception; a teardown whose `finished` notification threw
   * replaces the outcome, as a throwing `finally` block does.
   */
  function TopLevelOutcome<T>(adopts: bool, tearsDown: bool, listener: ListenerBehaviour, step: Outcome<T, Failure>): Outcome<T, Failure> {
    var inner := if adopts && listener.onStarted.Some? then Thrown(listener.onStarted.value) else step;
    Finally(inner, if tearsDown then listener.onFinished else None)
  }

  /** `BuildOperationQueue` as the executor sees it: it can be cancelled and waited on. */
  class BuildOperationQueue {
    const worker: ParentPreservingQueueWorker
    var cancelled: bool
    var awaited: bool

    constructor (worker: ParentPreservingQueueWorker)
      ensures this.worker == worker && !cancelled && !awaited
    {
      this.worker := worker;
      cancelled, awaited := false, false;
    }

    method Cancel()
      modifies this
      ensures cancelled && awaited == old(awaited)
    {
      cancelled := true;
    }

    /** Waits until the queue drains; `drain` is what the drain throws, if anything. */
    method WaitForCompletion(drain: Option<Failure>) returns (thrown: Option<Failure>)
      modifies this
      ensures awaited && cancelled == old(cancelled)
      ensures thrown == drain
    {
      awaited := true;
      thrown := drain;
    }
  }

  /**
   * Remembers the parent in scope on the thread that created it and hands that same parent to
   * every operation it executes, whichever thread it runs on.
   */
  class ParentPreservingQueueWorker {
    const executor: BuildOperationExecutor
    const parent: OperationState?
    const worker: Worker
    const displayName: string

    constructor (executor: BuildOperationExecutor, parent: OperationState?, worker: Worker)
      ensures this.executor == executor && this.parent == parent && this.worker == worker
      ensures displayName == "runnable worker"
    {
      this.executor := executor;
      this.parent := parent;
      this.worker := worker;
      displayName := "runnable worker";
    }

    method Execute(operation: BuildOperation)
      modifies executor`executions
      ensures executor.executions == old(executor.executions) + [Execution(operation, worker, parent)]
    {
      executor.executions := executor.executions + [Execution(operation, worker, parent)];
    }
  }

  class BuildOperationExecutor {
    const lineSeparator: string
    /** The operation bound to the calling thread. */
    var current: OperationState?
    /** The next identifier of the unmanaged-thread counter. */
    var nextUnmanagedId: int
    /**
     * The calls this executor itself makes on the build operation listener, in order: those for
     * synthetic roots. The inherited runner's notifications are not recorded here.
     */
    var events: seq<ListenerEvent>
    /**
     * The calls of `execute` made through `ParentPreservingQueueWorker.Execute`, in order. The
     * queue's own drain, which makes these calls in the program, is not modelled.
     */
    var executions: seq<Execution>
    /** Every synthetic root created so far, in creation order. */
    ghost var adopted: seq<OperationState>

    /**
     * The counter has handed out -1, -2, ... to the synthetic roots in creation order; a synthetic
     * root runs exactly while it is bound to the thread.
     */
    ghost predicate Valid()
      reads this, adopted
    {
      nextUnmanagedId == FirstUnmanagedId - |adopted| &&
      (forall i :: 0 <= i < |adopted| ==> adopted[i].unmanaged && adopted[i].descriptor.id == FirstUnmanagedId - i) &&
      (forall i :: 0 <= i < |adopted| ==> (adopted[i].running <==> adopted[i] == current)) &&
      (current != null && current.unmanaged ==> current in adopted)
    }

    /** No synthetic root is bound to the thread or still running. */
    ghost predicate NoUnmanagedLeft()
      reads this, adopted
    {
      !(current != null && current.unmanaged) &&
      forall i :: 0 <= i < |adopted| ==> !adopted[i].running
    }

    constructor (lineSeparator: string)
      ensures Valid() && NoUnmanagedLeft()
      ensures this.lineSeparator == lineSeparator && current == null && nextUnmanagedId == FirstUnmanagedId
      ensures events == [] && executions == [] && adopted == []
    {
      this.lineSeparator := lineSeparator;
      current := null;
      nextUnmanagedId := FirstUnmanagedId;
      events, executions := [], [];
      adopted := [];
    }

    /**
     * The state after `maybeStartUnmanagedThreadOperation(parent)`: with a parent, or on a
     * managed thread, nothing changes and the parent is returned; otherwise a fresh synthetic
     * root with the next identifier is running, bound to the thread and announced by one
     * `started` event, and it is returned unless that notification threw.
     */
    twostate predicate AdoptionStep(parent: OperationState?, thread: ThreadInfo, now: int, onStarted: Option<Failure>,
                                    new r: Outcome<OperationState?, Failure>)
      reads this, adopted
    {
      Valid() && executions == old(executions) &&
      if parent != null || thread.managed then
        r == Normal(parent) && current == old(current) && events == old(events) &&
        nextUnmanagedId == old(nextUnmanagedId) && adopted == old(adopted)
      else
        |adopted| == |old(adopted)| + 1 && adopted[..|old(adopted)|] == old(adopted) &&
        var op := adopted[|old(adopted)|];
        fresh(op) && op.unmanaged && op.running && current == op &&
        op.descriptor == UnmanagedDescriptor(old(nextUnmanagedId), thread.name) && op.startTime == now &&
        nextUnmanagedId == old(nextUnmanagedId) - 1 &&
        events == old(events) + [Started(op.descriptor, now)] &&
        r == (if onStarted.Some? then Thrown(onStarted.value) else Normal(op))
    }

    /**
     * The state after a top-level `run`, `call` or `runAll`, given whether it adopted a synthetic
     * root: that root, or one already bound on entry, has been announced finished (no failure,
     * no result) and unbound; no synthetic root is left bound or running.
     */
    twostate predicate TopLevelExit(adopts: bool, threadName: string, startTime: int, endTime: int)
      reads this, adopted
    {
      Valid() && NoUnmanagedLeft() && executions == old(executions) &&
      current == (if old(current) != null && !old(current).unmanaged then old(current) else null) &&
      if adopts then
        |adopted| == |old(adopted)| + 1 && adopted[..|old(adopted)|] == old(adopted) &&
        nextUnmanagedId == old(nextUnmanagedId) - 1 &&
        var d := UnmanagedDescriptor(old(nextUnmanagedId), threadName);
        adopted[|old(adopted)|].descriptor == d &&
        events == old(events) + [Started(d, startTime), Finished(d, startTime, endTime, None, None)]
      else
        adopted == old(adopted) && nextUnmanagedId == old(nextUnmanagedId) &&
        events == old(events) +
          (if old(current) != null && old(current).unmanaged
           then [Finished(old(current).descriptor, old(current).startTime, endTime, None, None)]
           else [])
    }

    /**
     * The synthetic roots' identifiers are negative, strictly decreasing in creation order (so
     * pairwise distinct), above the counter's next value, and never the root operation's.
     */
    lemma UnmanagedIdentifiers()
      requires Valid()
      ensures forall i :: 0 <= i < |adopted| ==>
        nextUnmanagedId < adopted[i].descriptor.id < 0 && adopted[i].descriptor.id != RootBuildOperationId
      ensures forall i, j :: 0 <= i < j < |adopted| ==> adopted[i].descriptor.id > adopted[j].descriptor.id
    {
    }

    /** `UnmanagedThreadOperation.create`: a synthetic root with the next identifier, not yet running. */
    method CreateUnmanagedThreadOperation(now: int, threadName: string) returns (op: OperationState)
      requires Valid()
      modifies this`nextUnmanagedId, this`adopted
      ensures Valid() && fresh(op)
      ensures op.unmanaged && !op.running && op.startTime == now
      ensures op.descriptor == UnmanagedDescriptor(old(nextUnmanagedId), threadName)
      ensures nextUnmanagedId == old(nextUnmanagedId) - 1 && adopted == old(adopted) + [op]
    {
      var id := nextUnmanagedId;
      nextUnmanagedId := nextUnmanagedId - 1;
      op := new OperationState(UnmanagedDescriptor(id, threadName), now, true);
      adopted := adopted + [op];
    }

    /**
     * Every caller passes the thread's current operation when it has no other parent, so a
     * missing parent means the thread has no operation bound.
     */
    method MaybeStartUnmanagedThreadOperation(parent: OperationState?, thread: ThreadInfo, now: int, onStarted: Option<Failure>)
      returns (r: Outcome<OperationState?, Failure>)
      requires Valid()
      requires parent == null ==> current == null
      modifies this
      ensures AdoptionStep(parent, thread, now, onStarted, r)
    {
      if parent == null && !thread.managed {
        var op := CreateUnmanagedThreadOperation(now, thread.name);
        op.running := true;
        current := op;
        events := events + [Started(op.descriptor, op.startTime)];
        r := if onStarted.Some? then Thrown(onStarted.value) else Normal(op);
      } else {
        r := Normal(parent);
      }
    }

    method MaybeStopUnmanagedThreadOperation(now: int, onFinished: Option<Failure>) returns (thrown: Option<Failure>)
      requires Valid()
      modifies this, if current != null && current.unmanaged then {current} else {}
      ensures Valid() && NoUnmanagedLeft()
      ensures adopted == old(adopted) && nextUnmanagedId == old(nextUnmanagedId) && executions == old(executions)
      ensures old(current) != null && old(current).unmanaged ==>
        current == null && !old(current).running &&
        events == old(events) + [Finished(old(current).descriptor, old(current).startTime, now, None, None)] &&
        thrown == onFinished
      ensures !(old(current) != null && old(current).unmanaged) ==>
        current == old(current) && events == old(events) && thrown == None
    {
      var op := current;
      if op != null && op.unmanaged {
        events := events + [Finished(op.descriptor, op.startTime, now, None, None)];
        thrown := onFinished;
        current := null;
        op.running := false;
      } else {
        thrown := None;
      }
    }

    /**
     * `determineParent`: the parent the runner picks (the explicit one, else the thread's current
     * operation), adopted as a synthetic root when there is none on an unmanaged thread.
     */
    method DetermineParent(explicitParent: OperationState?, thread: ThreadInfo, now: int, onStarted: Option<Failure>)
      returns (r: Outcome<OperationState?, Failure>)
      requires Valid()
      modifies this
      ensures AdoptionStep(if explicitParent != null then explicitParent else old(current), thread, now, onStarted, r)
    {
      var parent := if explicitParent != null then explicitParent else current;
      r := MaybeStartUnmanagedThreadOperation(parent, thread, now, onStarted);
    }

    /**
     * The inherited `run`/`call`: it determines the parent, then runs the operation, whose outcome
     * is `body`; the runner restores the thread's binding before it returns.
     */
    method SuperExecute<T>(explicitParent: OperationState?, thread: ThreadInfo, startTime: int, onStarted: Option<Failure>,
                           body: Outcome<T, Failure>) returns (r: Outcome<T, Failure>, parent: Outcome<OperationState?, Failure>)
      requires Valid()
      modifies this
      ensures AdoptionStep(if explicitParent != null then explicitParent else old(current), thread, startTime, onStarted, parent)
      ensures r == (if parent.Thrown? then Thrown(parent.failure) else body)
    {
      parent := DetermineParent(explicitParent, thread, startTime, onStarted);
      r := if parent.Thrown? then Thrown(parent.failure) else body;
    }

    method Run(explicitParent: OperationState?, thread: ThreadInfo, startTime: int, endTime: int,
               listener: ListenerBehaviour, body: Outcome<(), Failure>) returns (r: Outcome<(), Failure>)
      requires Valid()
      modifies this, if current != null && current.unmanaged then {current} else {}
      ensures var adopts := explicitParent == null && old(current) == null && !thread.managed;
        TopLevelExit(adopts, thread.name, startTime, endTime) &&
        r == TopLevelOutcome(adopts, adopts || (old(current) != null && old(current).unmanaged), listener, body)
    {
      var parent;
      r, parent := SuperExecute(explicitParent, thread, startTime, listener.onStarted, body);
      var thrown := MaybeStopUnmanagedThreadOperation(endTime, listener.onFinished);
      r := Finally(r, thrown);
    }

    method Call<T>(explicitParent: OperationState?, thread: ThreadInfo, startTime: int, endTime: int,
                   listener: ListenerBehaviour, body: Outcome<T, Failure>) returns (r: Outcome<T, Failure>)
      requires Valid()
      modifies this, if current != null && current.unmanaged then {current} else {}
      ensures var adopts := explicitParent == null && old(current) == null && !thread.managed;
        TopLevelExit(adopts, thread.name, startTime, endTime) &&
        r == TopLevelOutcome(adopts, adopts || (old(current) != null && old(current).unmanaged), listener, body)
    {
      var parent;
      r, parent := SuperExecute(explicitParent, thread, startTime, listener.onStarted, body);
      var thrown := MaybeStopUnmanagedThreadOperation(endTime, listener.onFinished);
      r := Finally(r, thrown);
    }

    /**
     * `executeInParallel`: the population action threw `population`, if anything, and the drain
     * threw `drain`, if anything. The queue is cancelled exactly when population threw an
     * exception, and waited on unless population threw an `Error`.
     */
    method ExecuteInParallel(worker: ParentPreservingQueueWorker, population: Option<Failure>, drain: Option<Failure>)
      returns (r: Outcome<(), Failure>, queue: BuildOperationQueue)
      ensures r == ParallelOutcome(population, drain, lineSeparator)
      ensures queue.worker == worker
      ensures queue.cancelled <==> population.Some? && IsException(population.value)
      ensures queue.awaited <==> population.None? || IsException(population.value)
    {
      queue := new BuildOperationQueue(worker);
      var failures: seq<Failure> := [];
      if population.Some? {
        if !IsException(population.value) {
          r := Thrown(population.value);
          return;
        }
        failures := failures + [PopulationFailure(population.value)];
        queue.Cancel();
      }
      var drained := queue.WaitForCompletion(drain);
      if drained.Some? {
        if !drained.value.MultipleBuildOperationFailures? {
          r := Thrown(drained.value);
          return;
        }
        failures := failures + [drained.value];
      }
      assert failures == Collected(population, drain);
      if |failures| == 1 {
        r := Thrown(failures[0]);
      } else if |failures| > 1 {
        r := Thrown(MultiCause(Some(FormatMultipleFailureMessage(failures, lineSeparator)), failures));
      } else {
        r := Normal(());
      }
    }

    /**
     * `new ParentPreservingQueueWorker(worker)`: captures the thread's current operation, adopting
     * a synthetic root when there is none on an unmanaged thread, as the fixed parent.
     */
    method NewParentPreservingQueueWorker(worker: Worker, thread: ThreadInfo, now: int, onStarted: Option<Failure>)
      returns (r: Outcome<ParentPreservingQueueWorker, Failure>, parent: Outcome<OperationState?, Failure>)
      requires Valid()
      modifies this
      ensures AdoptionStep(old(current), thread, now, onStarted, parent)
      ensures r.Normal? <==> parent.Normal?
      ensures r.Thrown? ==> r.failure == parent.failure
      ensures r.Normal? ==>
        fresh(r.value) && r.value.executor == this && r.value.worker == worker &&
        r.value.parent == parent.value && r.value.parent == current
    {
      parent := MaybeStartUnmanagedThreadOperation(current, thread, now, onStarted);
      if parent.Thrown? {
        r := Thrown(parent.failure);
      } else {
        var queueWorker := new ParentPreservingQueueWorker(this, parent.value, worker);
        r := Normal(queueWorker);
      }
    }

    /**
     * `runAll(worker, schedulingAction)`: runs the batch in parallel with a parent-preserving
     * worker, then tears down a synthetic root on every exit path.
     */
    method RunAll(worker: Worker, thread: ThreadInfo, startTime: int, endTime: int, listener: ListenerBehaviour,
                  population: Option<Failure>, drain: Option<Failure>) returns (r: Outcome<(), Failure>)
      requires Valid()
      modifies this, if current != null && current.unmanaged then {current} else {}
      ensures var adopts := old(current) == null && !thread.managed;
        TopLevelExit(adopts, thread.name, startTime, endTime) &&
        r == TopLevelOutcome(adopts, adopts || (old(current) != null && old(current).unmanaged), listener,
                             ParallelOutcome(population, drain, lineSeparator))
    {
      var queueWorker, parent := NewParentPreservingQueueWorker(worker, thread, startTime, listener.onStarted);
      var step: Outcome<(), Failure>;
      if queueWorker.Thrown? {
        step := Thrown(queueWorker.failure);
      } else {
        var queue;
        step, queue := ExecuteInParallel(queueWorker.value, population, drain);
      }
      var thrown := MaybeStopUnmanagedThreadOperation(endTime, listener.onFinished);
      r := Finally(step, thrown);
    }

    /** `runAll(schedulingAction)`: `runAll` with the worker that runs runnable build operations. */
    method RunAllRunnable(thread: ThreadInfo, startTime: int, endTime: int, listener: ListenerBehaviour,
                          population: Option<Failure>, drain: Option<Failure>) returns (r: Outcome<(), Failure>)
      requires Valid()
      modifies this, if current != null && current.unmanaged then {current} else {}
      ensures var adopts := old(current) == null && !thread.managed;
        TopLevelExit(adopts, thread.name, startTime, endTime) &&
        r == TopLevelOutcome(adopts, adopts || (old(current) != null && old(current).unmanaged), listener,
                             ParallelOutcome(population, drain, lineSeparator))
    {
      r := RunAll(RunnableWorker, thread, startTime, endTime, listener, population, drain);
    }

    /**
     * `createRunningRootOperation`: binds a running root operation with the root identifier and no
     * parent to a thread that has no operation; teardown leaves it in place.
     */
    method CreateRunningRootOperation(displayName: string, now: int)
      requires Valid() && current == null
      modifies this
      ensures Valid() && NoUnmanagedLeft()
      ensures current != null && fresh(current) && current.running && !current.unmanaged
      ensures current.descriptor == Descriptor(RootBuildOperationId, displayName, None, None) && current.startTime == now
      ensures events == old(events) && executions == old(executions)
      ensures adopted == old(adopted) && nextUnmanagedId == old(nextUnmanagedId)
    {
      var operation := new OperationState(Descriptor(RootBuildOperationId, displayName, None, None), now, false);
      operation.running := true;
      current := operation;
    }
  }
}
