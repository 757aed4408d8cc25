# Build operation executor: adoption, teardown and failure resolution

A Dafny model of the sequential bookkeeping of Gradle's `DefaultBuildOperationExecutor`, seen
from a single thread. The executor runs build operations synchronously (`run`, `call`) or as a
parallel batch (`runAll`). The model covers four parts of it:

- **Failure resolution of a parallel batch** (`failures.dfy`, module `Failures`). The population
  action may throw, and the queue's drain may throw. The exception from the population action is
  wrapped in a `BuildOperationQueueFailure`. The `MultipleBuildOperationFailures` from the drain
  is collected as it is. The collected list is then resolved:
  - with no failure, nothing is thrown;
  - with one failure, that failure is thrown unwrapped;
  - with two or more, one `DefaultMultiCauseException` is thrown. Its causes are the list, and
    its message joins the messages with a line reading `AND`.
- **Unmanaged-thread adoption and teardown** (`executor.dfy`, class
  `Executor.BuildOperationExecutor`). A thread that Gradle does not manage may arrive without a
  parent. It then gets a synthetic root operation. The root's identifier comes from a counter
  that starts at -1 and counts down. The root is bound to the thread and announced to the
  listener. Every exit of `run`, `call` and `runAll` announces the root finished and unbinds it.
- **Parent capture**: `ParentPreservingQueueWorker` fixes its parent once, when it is created,
  and hands that same parent to every `execute`.
- **Listener decoration** (`listener.dfy`, module `ProgressLogging`). The listener that
  `createListener` returns tells the delegate before it starts the progress logger. It completes
  the progress logger before it tells the delegate that the operation stopped.

`identifiers.dfy` gives the decimal text of identifiers and the synthetic root's display name.
`wrappers.dfy` holds `Option`, `Outcome` (an ended call: returned or threw) and Java's
`try/finally` rule.

Java's throwables become the closed datatype `Failures.Failure`. A thrown exception becomes the
`Thrown` case of an `Outcome`. Whatever the code cannot see is a parameter of the method that
uses it: the clock, `GradleThread.isManaged()`, the thread name, the listener, the population
action, the drain, and the body that the inherited runner executes. Each such parameter says
whether the collaborator throws and what it throws. A null message is `None`, and it prints as
`null`, as Java's string concatenation and `Collectors.joining` print it.

Details of the code that are easy to miss:
- `catch (Exception e)` around the population action does not catch a `java.lang.Error`. Such an
  error escapes at once: the queue is neither cancelled nor waited on.
- The drain only catches `MultipleBuildOperationFailures`. Any other failure of
  `waitForCompletion` escapes at once, and a population failure collected before it is lost.
- A `finally` block that throws replaces the pending outcome. If the listener throws from
  `finished` during teardown, that exception replaces what `run`, `call` or `runAll` would have
  returned or thrown. The thread is unbound and the root stops running all the same.

## Model

| member | source | states |
|---|---|---|
| `Failures.JoinPlacesParts` | subprojects/core/src/main/java/org/gradle/internal/operations/DefaultBuildOperationExecutor.java:201-205 | from each part's offset on, the joined text reads that part and then the delimiter; the last part ends the text |
| `Failures.FormatMultipleFailureMessage` | subprojects/core/src/main/java/org/gradle/internal/operations/DefaultBuildOperationExecutor.java:201-205 | the combined message is empty for no failure, starts with the first message followed by an AND line when there are more, and ends with the last message |
| `Failures.CombinedMessageOfTwo` | subprojects/core/src/main/java/org/gradle/internal/operations/DefaultBuildOperationExecutor.java:201-205 | for two failures the combined message is `m1 + sep + "AND" + sep + m2` |
| `Failures.CombinedMessageEnumerates` | subprojects/core/src/main/java/org/gradle/internal/operations/DefaultBuildOperationExecutor.java:201-205 | the combined message holds every constituent message, in list order, each followed by an AND line except the last |
| `Failures.CombinedMessageSnoc` | subprojects/core/src/main/java/org/gradle/internal/operations/DefaultBuildOperationExecutor.java:201-205 | one more failure appends an AND line and its message to the combined message |
| `Failures.Resolve` | subprojects/core/src/main/java/org/gradle/internal/operations/DefaultBuildOperationExecutor.java:121-125 | nothing is thrown exactly when no failure was collected; one failure is thrown unwrapped; two or more are thrown as one multi-cause exception with the full list as causes and the combined message |
| `Failures.ResolveKeepsCauses` | subprojects/core/src/main/java/org/gradle/internal/operations/DefaultBuildOperationExecutor.java:121-125 | if no collected failure is itself multi-cause, the causes of what is thrown are exactly the collected list |
| `Failures.PopulationFailure` | subprojects/core/src/main/java/org/gradle/internal/operations/DefaultBuildOperationExecutor.java:110-111 | the population failure has the population exception as its cause, and its message is the fixed prefix followed by that exception's message (`null` when it has none) |
| `Failures.Collected` | subprojects/core/src/main/java/org/gradle/internal/operations/DefaultBuildOperationExecutor.java:107-119 | at most two failures are collected; the population failure comes first, the drain failure last |
| `Failures.ParallelOutcome` | subprojects/core/src/main/java/org/gradle/internal/operations/DefaultBuildOperationExecutor.java:107-125 | the batch ends normally exactly when neither step threw; for caught failures the causes of what is thrown are exactly the collected ones; an error from population or an uncaught drain failure escapes unwrapped |
| `Failures.SingleFailurePassesThrough` | subprojects/core/src/main/java/org/gradle/internal/operations/DefaultBuildOperationExecutor.java:107-125 | when exactly one step fails, the batch throws that one failure unwrapped; when none fails, nothing is thrown |
| `Failures.BothFailuresCombine` | subprojects/core/src/main/java/org/gradle/internal/operations/DefaultBuildOperationExecutor.java:107-125 | when both steps fail, one multi-cause exception carries the population failure and then the drain failure, and its message joins their messages with an AND line |
| `Failures.ParallelOutcomeDeterminesInputs` | subprojects/core/src/main/java/org/gradle/internal/operations/DefaultBuildOperationExecutor.java:107-125 | for caught failures, the outcome determines which steps failed and how: equal outcomes come from equal inputs |
| `Identifiers.NatToString` | subprojects/core/src/main/java/org/gradle/internal/operations/DefaultBuildOperationExecutor.java:243-244 | the decimal text of a number is non-empty, made of digits, and has no leading zero |
| `Identifiers.IntToStringRoundTrip` | subprojects/core/src/main/java/org/gradle/internal/operations/DefaultBuildOperationExecutor.java:243-244 | parsing the decimal text of an identifier gives the identifier back |
| `Identifiers.UnmanagedDisplayName` | subprojects/core/src/main/java/org/gradle/internal/operations/DefaultBuildOperationExecutor.java:244 | the display name starts with the fixed prefix and ends with the thread name in parentheses, and the identifier parses back from the text between them |
| `Identifiers.UnmanagedDisplayNameDeterminesId` | subprojects/core/src/main/java/org/gradle/internal/operations/DefaultBuildOperationExecutor.java:243-245 | on one thread, different unmanaged identifiers give different display names |
| `Executor.BuildOperationExecutor.UnmanagedIdentifiers` | subprojects/core/src/main/java/org/gradle/internal/operations/DefaultBuildOperationExecutor.java:238-243 | synthetic roots' identifiers are negative, strictly decreasing in creation order, pairwise distinct, and never the root operation's |
| `Executor.BuildOperationExecutor.CreateUnmanagedThreadOperation` | subprojects/core/src/main/java/org/gradle/internal/operations/DefaultBuildOperationExecutor.java:238-250 | a fresh synthetic root takes the counter's value as its identifier; its name is the prefix, the identifier and the thread name; the counter goes down by one |
| `Executor.BuildOperationExecutor.MaybeStartUnmanagedThreadOperation` | subprojects/core/src/main/java/org/gradle/internal/operations/DefaultBuildOperationExecutor.java:166-175 | with a parent or on a managed thread, nothing changes and the parent is returned; otherwise a fresh running synthetic root is bound, announced by exactly one `started` event with its start time, and returned |
| `Executor.BuildOperationExecutor.MaybeStopUnmanagedThreadOperation` | subprojects/core/src/main/java/org/gradle/internal/operations/DefaultBuildOperationExecutor.java:177-187 | if a synthetic root is bound, exactly one `finished` event is emitted with no failure and no result, and the root is unbound and stopped even when the listener throws; otherwise nothing changes |
| `Executor.BuildOperationExecutor.DetermineParent` | subprojects/core/src/main/java/org/gradle/internal/operations/DefaultBuildOperationExecutor.java:154-158 | the parent is the explicit one, else the current operation, with the adoption rule applied |
| `Executor.BuildOperationExecutor.Run` | subprojects/core/src/main/java/org/gradle/internal/operations/DefaultBuildOperationExecutor.java:68-75 | on every exit no synthetic root is left bound or running and a managed current operation is untouched; the executor's own listener calls (a synthetic root's `started` and `finished`) and the outcome are exactly those of adoption, body and teardown |
| `Executor.BuildOperationExecutor.Call` | subprojects/core/src/main/java/org/gradle/internal/operations/DefaultBuildOperationExecutor.java:77-84 | as `Run`, returning the body's value when nothing throws |
| `Executor.BuildOperationExecutor.ExecuteInParallel` | subprojects/core/src/main/java/org/gradle/internal/operations/DefaultBuildOperationExecutor.java:104-126 | the outcome is the resolution of the collected failures; the queue is cancelled exactly when population threw an exception, and waited on unless population threw an error |
| `Executor.BuildOperationExecutor.NewParentPreservingQueueWorker` | subprojects/core/src/main/java/org/gradle/internal/operations/DefaultBuildOperationExecutor.java:220-223 | the worker's fixed parent is the thread's current operation, or a synthetic root adopted for it |
| `Executor.BuildOperationExecutor.RunAll` | subprojects/core/src/main/java/org/gradle/internal/operations/DefaultBuildOperationExecutor.java:95-102 | the batch's outcome passes through the teardown, which runs on every exit and leaves no synthetic root bound or running |
| `Executor.BuildOperationExecutor.RunAllRunnable` | subprojects/core/src/main/java/org/gradle/internal/operations/DefaultBuildOperationExecutor.java:86-93 | as `RunAll`, with the runnable worker |
| `Executor.BuildOperationExecutor.CreateRunningRootOperation` | subprojects/core/src/main/java/org/gradle/internal/operations/DefaultBuildOperationExecutor.java:189-199 | on a thread with no operation, binds a running, managed root operation with the root identifier and no parent, and emits no event |
| `Executor.ParentPreservingQueueWorker.constructor` | subprojects/core/src/main/java/org/gradle/internal/operations/DefaultBuildOperationExecutor.java:216-228 | the worker holds one fixed parent and its display name is `runnable worker` |
| `Executor.ParentPreservingQueueWorker.Execute` | subprojects/core/src/main/java/org/gradle/internal/operations/DefaultBuildOperationExecutor.java:230-233 | every execution is handed the worker's fixed parent and its worker |
| `ProgressLogging.ProgressLoggingListener.constructor` | subprojects/core/src/main/java/org/gradle/internal/operations/DefaultBuildOperationExecutor.java:129-133 | the decorated listener keeps the arguments its delegate was created from and starts with no progress logger and no calls made |
| `ProgressLogging.ProgressLoggingListener.Start` | subprojects/core/src/main/java/org/gradle/internal/operations/DefaultBuildOperationExecutor.java:135-139 | the delegate is told first; only then is a progress logger created for the descriptor and started with its display names |
| `ProgressLogging.ProgressLoggingListener.Stop` | subprojects/core/src/main/java/org/gradle/internal/operations/DefaultBuildOperationExecutor.java:141-145 | the progress logger completes with the status, flagged failed exactly when there is a failure, before the delegate is told; without a progress logger the call throws a null-pointer exception first |
| `ProgressLogging.ProgressLoggingListener.Close` | subprojects/core/src/main/java/org/gradle/internal/operations/DefaultBuildOperationExecutor.java:147-150 | closing is forwarded to the delegate only |

## Left out

- The worker pool (`executorFactory.create`, `stop()`) is not modelled. It is concurrency inside
  a foreign collaborator.
- The queue's dispatch and drain are not modelled. `BuildOperationQueue` is reduced to the two
  calls the executor makes on it, `cancel` and `waitForCompletion`.
- The population action and the drain are not modelled either. Each appears only as what it
  throws.
- The inherited `DefaultBuildOperationRunner` is not part of this model. Its `run`/`call` is one
  step: it determines the parent with the overridden `determineParent`, then ends with a given
  outcome. The model assumes that the runner restores the thread's binding before it returns.
- Nested operations inside a body are therefore not modelled.
- The runner's `determineParent` is taken to pick the explicit parent, else the thread's current
  operation.
- The runner's own listener (the delegate of `createListener`) appears only as the calls made
  on it.
- Executor.BuildOperationExecutor.Run, `Call`, `RunAll` and `RunAllRunnable`: the event log
  records only the listener calls the executor makes itself, for synthetic roots. The inherited
  runner's `started`/`finished` notifications for the operation itself are not recorded. In the
  program they reach the same listener between the synthetic root's two events.
- Executor.BuildOperationExecutor.RunAll: the executions log stays unchanged, because the queue's
  drain is not modelled. In the program the queue calls `ParentPreservingQueueWorker.execute`
  once for every queued operation.
- Executor.BuildOperationExecutor.UnmanagedIdentifiers: the counter is an unbounded integer. The
  code's `AtomicLong.getAndDecrement` wraps to a positive value after 2^63 creations. The claim
  that identifiers are negative and pairwise distinct holds only below that count.
- The threads are reduced to one thread's view: `GradleThread.isManaged()` and the thread name
  are parameters. `AtomicLong` atomicity is not modelled.
- The unmanaged counter is a static field shared by all executors in the code. The model keeps
  it in the executor, so it starts at -1 for each executor.
- The clock is a parameter for each read.
- The `LOGGER.debug` call is left out, as is the internal working of the progress logger factory.
- The platform line separator is the executor's `lineSeparator` constant. Its value is left open.
- `DefaultBuildOperationIdFactory.ROOT_BUILD_OPERATION_ID_VALUE` is not part of this model. It is
  taken as 1, and the model only relies on it being positive.
- `OperationIdentifier.toString` is not part of this model. It is taken as `Long.toString` of the
  identifier.
- Exception identity becomes value equality: "the same failure object" reads as "an equal
  failure value".
- The result of `call` is a type parameter. The `finished` event of a synthetic root carries an
  optional result text, which is always empty.
- The `assert` in `createRunningRootOperation` is a precondition.
- ParentPreservingQueueWorker.constructor: the adoption it performs in the code is modelled by
  `NewParentPreservingQueueWorker`. The constructor itself takes the parent already chosen.
