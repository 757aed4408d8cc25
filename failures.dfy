/**
 * Failure collection and resolution for a parallel batch of build operations
 * (`executeInParallel` and `formatMultipleFailureMessage`).
 */
module Failures {
  import opened Wrappers

  /**
   * The throwables that take part in failure resolution. A message is `None` when
   * `getMessage()` returns null.
   */
  datatype Failure =
      /** Any `java.lang.Exception` raised by caller code (a population action, a listener). */
    | OperationFailure(message: Option<string>)
      /** A `java.lang.Error`: a throwable that `catch (Exception e)` does not catch. */
    | FatalError(message: Option<string>)
      /** The `NullPointerException` of dereferencing an unset field. */
    | NullPointer(message: Option<string>)
      /** `BuildOperationQueueFailure`: population of the queue failed with `cause`. */
    | QueuePopulationFailure(message: Option<string>, cause: Failure)
      /** `MultipleBuildOperationFailures`: what a failed `waitForCompletion` throws. */
    | MultipleBuildOperationFailures(message: Option<string>, causes: seq<Failure>)
      /** `DefaultMultiCauseException`: one exception carrying several causes. */
    | MultiCause(message: Option<string>, causes: seq<Failure>)

  /** Whether `catch (Exception e)` catches the failure. */
  predicate IsException(f: Failure) {
    !f.FatalError?
  }

  /** Java's string conversion of a possibly null message: null becomes "null". */
  function MessageText(m: Option<string>): string {
    match m
    case Some(s) => s
    case None => "null"
  }

  const PopulationFailurePrefix: string := "There was a failure while populating the build operation queue: "

  /**
   * The `BuildOperationQueueFailure` that wraps an exception thrown by the population action: it
   * has the exception as its cause, and its message is the fixed prefix followed by the
   * exception's message.
   */
  function PopulationFailure(e: Failure): (r: Failure)
    ensures r.QueuePopulationFailure? && r.cause == e
    ensures r.message.Some? && PopulationFailurePrefix <= r.message.value
    ensures r.message.value[|PopulationFailurePrefix|..] == MessageText(e.message)
  {
    QueuePopulationFailure(Some(PopulationFailurePrefix + MessageText(e.message)), e)
  }

  // ---------------------------------------------------------------------------------------------
  // Joining messages (`Collectors.joining`)

  /** The parts in order, with `delimiter` between each two neighbours. */
  function Join(parts: seq<string>, delimiter: string): string {
    if |parts| == 0 then ""
    else if |parts| == 1 then parts[0]
    else parts[0] + delimiter + Join(parts[1..], delimiter)
  }

  /** Where part `i` starts in `Join(parts, delimiter)`. */
  function Offset(parts: seq<string>, delimiter: string, i: nat): nat
    requires i < |parts|
  {
    if i == 0 then 0 else |parts[0]| + |delimiter| + Offset(parts[1..], delimiter, i - 1)
  }

  /**
   * From the offset of part `i` on, the joined text reads part `i` followed by the delimiter,
   * or, for the last part, part `i` alone.
   */
  lemma {:induction false} JoinPlacesParts(parts: seq<string>, delimiter: string, i: nat)
    requires i < |parts|
    ensures Offset(parts, delimiter, i) <= |Join(parts, delimiter)|
    ensures i + 1 < |parts| ==> parts[i] + delimiter <= Join(parts, delimiter)[Offset(parts, delimiter, i)..]
    ensures i + 1 == |parts| ==> Join(parts, delimiter)[Offset(parts, delimiter, i)..] == parts[i]
  {
    if |parts| > 1 {
      var head, rest := parts[0] + delimiter, Join(parts[1..], delimiter);
      var j := Join(parts, delimiter);
      assert j == head + rest;
      if i > 0 {
        JoinPlacesParts(parts[1..], delimiter, i - 1);
        var o := Offset(parts[1..], delimiter, i - 1);
        assert parts[1..][i - 1] == parts[i];
        assert j[|head| + o..] == rest[o..];
      }
    }
  }

  /** Joining one more part appends a delimiter and that part. */
  lemma {:induction false} JoinSnoc(parts: seq<string>, last: string, delimiter: string)
    requires |parts| >= 1
    ensures Join(parts + [last], delimiter) == Join(parts, delimiter) + delimiter + last
  {
    if |parts| == 1 {
      assert parts + [last] == [parts[0], last];
    } else {
      assert (parts + [last])[1..] == parts[1..] + [last];
      JoinSnoc(parts[1..], last, delimiter);
    }
  }

  // ---------------------------------------------------------------------------------------------
  // The combined message (`formatMultipleFailureMessage`)

  /** The separator between two messages: a line reading `AND`. */
  function AndSeparator(lineSeparator: string): string {
    lineSeparator + "AND" + lineSeparator
  }

  /** Each failure's message text, in list order (`map(Throwable::getMessage)`). */
  function Messages(failures: seq<Failure>): (texts: seq<string>)
    ensures |texts| == |failures|
    ensures forall i :: 0 <= i < |failures| ==> texts[i] == MessageText(failures[i].message)
  {
    seq(|failures|, i requires 0 <= i < |failures| => MessageText(failures[i].message))
  }

  /**
   * The messages joined with a line reading AND: empty for no failure; otherwise it starts with
   * the first message, followed by an AND line when there are more, and ends with the last.
   */
  function FormatMultipleFailureMessage(failures: seq<Failure>, lineSeparator: string): (text: string)
    ensures failures == [] ==> text == ""
    ensures |failures| >= 1 ==> MessageText(failures[0].message) <= text
    ensures |failures| >= 2 ==> MessageText(failures[0].message) + AndSeparator(lineSeparator) <= text
    ensures |failures| >= 1 ==>
      var last := MessageText(failures[|failures| - 1].message);
      |last| <= |text| && text[|text| - |last|..] == last
  {
    if failures == [] then ""
    else
      var texts, separator := Messages(failures), AndSeparator(lineSeparator);
      JoinPlacesParts(texts, separator, 0);
      JoinPlacesParts(texts, separator, |texts| - 1);
      Join(texts, separator)
  }

  /** For two failures the combined message is the first message, a line reading AND, and the second message. */
  lemma CombinedMessageOfTwo(first: Failure, second: Failure, lineSeparator: string)
    ensures FormatMultipleFailureMessage([first, second], lineSeparator) ==
      MessageText(first.message) + lineSeparator + "AND" + lineSeparator + MessageText(second.message)
  {
    var t1, t2 := MessageText(first.message), MessageText(second.message);
    assert Messages([first, second]) == [t1, t2];
    assert [t1, t2][1..] == [t2];
    assert Join([t1, t2], AndSeparator(lineSeparator)) == t1 + AndSeparator(lineSeparator) + t2;
  }

  /**
   * The combined message enumerates every constituent message in list order: from the offset of
   * message `i` on, it reads message `i` followed by a line reading AND, or, for the last
   * message, that message alone.
   */
  lemma CombinedMessageEnumerates(failures: seq<Failure>, lineSeparator: string, i: nat)
    requires i < |failures|
    ensures var text := FormatMultipleFailureMessage(failures, lineSeparator);
      var at := Offset(Messages(failures), AndSeparator(lineSeparator), i);
      at <= |text| &&
      (i + 1 < |failures| ==> MessageText(failures[i].message) + AndSeparator(lineSeparator) <= text[at..]) &&
      (i + 1 == |failures| ==> text[at..] == MessageText(failures[i].message))
  {
    JoinPlacesParts(Messages(failures), AndSeparator(lineSeparator), i);
  }

  /** Adding one more failure to the list appends an AND line and its message to the combined message. */
  lemma CombinedMessageSnoc(failures: seq<Failure>, last: Failure, lineSeparator: string)
    requires |failures| >= 1
    ensures FormatMultipleFailureMessage(failures + [last], lineSeparator) ==
      FormatMultipleFailureMessage(failures, lineSeparator) + AndSeparator(lineSeparator) + MessageText(last.message)
  {
    assert Messages(failures + [last]) == Messages(failures) + [MessageText(last.message)];
    JoinSnoc(Messages(failures), MessageText(last.message), AndSeparator(lineSeparator));
  }

  // ---------------------------------------------------------------------------------------------
  // Resolution of the collected list

  /**
   * What `executeInParallel` does with the failures it collected: nothing is thrown exactly when
   * nothing was collected; a single failure is re-thrown unwrapped; two or more are thrown as one
   * multi-cause exception whose causes are the list in collection order and whose message is the
   * combined message.
   */
  function Resolve(failures: seq<Failure>, lineSeparator: string): (r: Outcome<(), Failure>)
    ensures r.Normal? <==> |failures| == 0
    ensures |failures| == 1 ==> r == Thrown(failures[0])
    ensures |failures| >= 2 ==>
      r.Thrown? && r.failure.MultiCause? && r.failure.causes == failures &&
      r.failure.message == Some(FormatMultipleFailureMessage(failures, lineSeparator))
  {
    if |failures| == 1 then Thrown(failures[0])
    else if |failures| > 1 then Thrown(MultiCause(Some(FormatMultipleFailureMessage(failures, lineSeparator)), failures))
    else Normal(())
  }

  /** The failures a thrown outcome stands for: the causes of a multi-cause exception, else the failure itself. */
  function Causes(outcome: Outcome<(), Failure>): seq<Failure> {
    match outcome
    case Normal(_) => []
    case Thrown(MultiCause(_, causes)) => causes
    case Thrown(f) => [f]
  }

  /** When no collected failure is itself multi-cause, the thrown outcome gives back the collected list. */
  lemma ResolveKeepsCauses(failures: seq<Failure>, lineSeparator: string)
    requires forall i :: 0 <= i < |failures| ==> !failures[i].MultiCause?
    ensures Causes(Resolve(failures, lineSeparator)) == failures
  {
    if |failures| == 1 {
      assert [failures[0]] == failures;
    }
  }

  // ---------------------------------------------------------------------------------------------
  // The whole of executeInParallel's failure handling

  /**
   * The failures `executeInParallel` collects when the population action threw the exception
   * `population` (if any) and `waitForCompletion` threw the `MultipleBuildOperationFailures`
   * `drain` (if any). At most two failures are collected: the population failure, when present,
   * comes first and wraps the population exception; the drain failure comes last.
   */
  function Collected(population: Option<Failure>, drain: Option<Failure>): (c: seq<Failure>)
    ensures |c| <= 2
    ensures |c| == (if population.Some? then 1 else 0) + (if drain.Some? then 1 else 0)
    ensures population.Some? ==> c[0] == PopulationFailure(population.value)
    ensures drain.Some? ==> c[|c| - 1] == drain.value
  {
    (if population.Some? then [PopulationFailure(population.value)] else []) +
    (if drain.Some? then [drain.value] else [])
  }

  /**
   * The inputs `executeInParallel` collects from: the population action threw nothing or an
   * exception, and `waitForCompletion` threw nothing or a `MultipleBuildOperationFailures`.
   */
  predicate Collectable(population: Option<Failure>, drain: Option<Failure>) {
    (population.Some? ==> IsException(population.value)) &&
    (drain.Some? ==> drain.value.MultipleBuildOperationFailures?)
  }

  /**
   * How `executeInParallel` ends. An `Error` thrown by the population action escapes at once; a
   * failure of `waitForCompletion` other than `MultipleBuildOperationFailures` escapes at once
   * (dropping a collected population failure); otherwise the collected list is resolved, so the
   * causes of what is thrown are exactly the collected failures. The batch ends normally exactly
   * when neither step threw.
   */
  function ParallelOutcome(population: Option<Failure>, drain: Option<Failure>, lineSeparator: string): (r: Outcome<(), Failure>)
    ensures r.Normal? <==> population.None? && drain.None?
    ensures Collectable(population, drain) ==> Causes(r) == Collected(population, drain)
    ensures !Collectable(population, drain) ==>
      r == Thrown(if population.Some? && !IsException(population.value) then population.value else drain.value)
  {
    if population.Some? && !IsException(population.value) then Thrown(population.value)
    else if drain.Some? && !drain.value.MultipleBuildOperationFailures? then Thrown(drain.value)
    else
      ResolveKeepsCauses(Collected(population, drain), lineSeparator);
      Resolve(Collected(population, drain), lineSeparator)
  }

  /** A batch where exactly one step failed throws that one failure, not wrapped. */
  lemma SingleFailurePassesThrough(population: Option<Failure>, drain: Option<Failure>, lineSeparator: string)
    requires Collectable(population, drain)
    ensures population.None? && drain.Some? ==> ParallelOutcome(population, drain, lineSeparator) == Thrown(drain.value)
    ensures population.Some? && drain.None? ==>
      ParallelOutcome(population, drain, lineSeparator) == Thrown(PopulationFailure(population.value))
    ensures population.None? && drain.None? ==> ParallelOutcome(population, drain, lineSeparator) == Normal(())
  {
  }

  /** When both steps failed, one multi-cause exception carries both, population failure first. */
  lemma BothFailuresCombine(population: Failure, drain: Failure, lineSeparator: string)
    requires Collectable(Some(population), Some(drain))
    ensures ParallelOutcome(Some(population), Some(drain), lineSeparator) ==
      Thrown(MultiCause(
        Some(PopulationFailurePrefix + MessageText(population.message) + lineSeparator + "AND" + lineSeparator +
             MessageText(drain.message)),
        [PopulationFailure(population), drain]))
  {
    assert Collected(Some(population), Some(drain)) == [PopulationFailure(population), drain];
    CombinedMessageOfTwo(PopulationFailure(population), drain, lineSeparator);
  }

  /**
   * For collectable inputs the outcome tells exactly which steps failed and with what: equal
   * outcomes come from equal inputs.
   */
  lemma {:induction false} ParallelOutcomeDeterminesInputs(
    p1: Option<Failure>, d1: Option<Failure>, p2: Option<Failure>, d2: Option<Failure>, lineSeparator: string)
    requires Collectable(p1, d1) && Collectable(p2, d2)
    requires ParallelOutcome(p1, d1, lineSeparator) == ParallelOutcome(p2, d2, lineSeparator)
    ensures p1 == p2 && d1 == d2
  {
    var c1, c2 := Collected(p1, d1), Collected(p2, d2);
    assert c1 == c2;
  }
}
