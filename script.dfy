/**
 * The coroutine body handed to `async`/`asyncUI`, abstracted as a script of steps.
 *
 * Kotlin compiles a `suspend` lambda into a state machine whose states are its suspension
 * points. Here the body is a finite sequence of steps: synchronous statements (`Say`),
 * forward jumps (`Skip`, for the branches of an if/else or of a try/catch), an exception
 * the body throws itself (`Throw`), and suspension points (`Await`). Resuming the body at
 * an `Await` runs it synchronously up to its next `Await`, its end, or an exception.
 */
module Script {
  import opened Optional
  import opened StackTrace

  type Value = string

  /** Identity of a user handler (error handler, finally handler, progress handler, hooks). */
  type HandlerId = nat

  datatype Exc = Exc(message: string)

  /** What the blocking function handed to an `await` finally does: return or throw. */
  datatype Outcome = Ok(value: Value) | Err(exc: Exc)

  /** One progress report: one value (most versions) or a `(curr, max)` pair (coroutineandroid). */
  datatype Report = Single(value: Value) | Pair(curr: Value, max: Value)

  /**
   * The background function of an `await` (`Plain`) or of an `awaitWithProgress`
   * (`WithProgress`, which publishes its reports in order before it returns or throws).
   */
  datatype Work =
    | Plain(outcome: Outcome)
    | WithProgress(reports: seq<Report>, onProgress: HandlerId, outcome: Outcome)
  {
    function Reports(): seq<Report> {
      if WithProgress? then reports else []
    }
  }

  datatype Step =
    | Say(text: string)
    | Skip(count: nat)
    | Throw(exc: Exc)
      // `catchSkip == Some(n)`: the await sits in a try block whose handler starts n steps after it.
      // `callerStack`: the UI-thread stack at the call, as `Thread.currentThread().stackTrace` returns it.
    | Await(work: Work, catchSkip: Option<nat>, callerStack: seq<Frame>)

  type Body = seq<Step>

  /** The suspended body: where it resumes and whether a try/catch surrounds that point. */
  datatype Continuation = Continuation(at: nat, catchSkip: Option<nat>)

  function ContinuationAt(b: Body, at: nat): (k: Continuation)
    requires at < |b| && b[at].Await?
    ensures k.at == at
  {
    Continuation(at, b[at].catchSkip)
  }

  /** An exception as it reaches a handler: as thrown, or wrapped in Async.kt's `AsyncException`. */
  datatype Failure = Raw(exc: Exc) | Wrapped(cause: Exc, stackTrace: seq<Frame>)

  /** What an observer of the UI thread sees, in order. */
  datatype Event =
    | Note(text: string)                         // the body ran a synchronous statement
    | Received(value: Value)                     // the body resumed with a value at an await
    | Caught(exc: Exc)                           // the body caught the exception raised at an await
    | ProgressShown(handler: HandlerId, report: Report)
    | ErrorHandled(handler: HandlerId, failure: Failure)
    | FinallyRan(handler: HandlerId)
    | RunningHook(handler: HandlerId)            // Async.kt's onRunningCoroutine
    | IdleHook(handler: HandlerId)               // Async.kt's onIdleCoroutines
    | Crashed(failure: Failure)                  // an exception left the UI thread uncaught
  {
    predicate IsBodyEvent() {
      Note? || Received? || Caught?
    }
  }

  /** How a synchronous run of the body ends. */
  datatype Stop = Suspended(at: nat) | Completed | Threw(exc: Exc)

  datatype Run = Run(events: seq<Event>, stop: Stop)

  /** The body as resumed: with the awaited value, or with the exception raised at the await. */
  datatype Input = WithValue(value: Value) | WithException(exc: Exc)

  /**
   * Runs the body synchronously from step `pc`: it stops at the first `Await` it reaches
   * (suspended there), at the first `Throw`, or when it runs off its end.
   */
  function Segment(b: Body, pc: nat): (r: Run)
    decreases |b| - pc
    ensures forall e <- r.events :: e.Note?
    ensures r.stop.Suspended? ==> pc <= r.stop.at < |b| && b[r.stop.at].Await?
    ensures r.stop.Threw? ==> exists k :: pc <= k < |b| && b[k] == Throw(r.stop.exc)
  {
    if pc >= |b| then Run([], Completed)
    else match b[pc]
      case Say(text) =>
        var rest := Segment(b, pc + 1);
        Run([Note(text)] + rest.events, rest.stop)
      case Skip(n) => Segment(b, pc + 1 + n)
      case Throw(e) => Run([], Threw(e))
      case Await(_, _, _) => Run([], Suspended(pc))
  }

  /**
   * Resumes a suspended body. A value is received and the body continues after the await;
   * an exception is caught when a try/catch surrounds the await (the body continues in
   * the handler) and otherwise escapes the body at once.
   */
  function Resume(b: Body, k: Continuation, input: Input): (r: Run)
    ensures forall e <- r.events :: e.IsBodyEvent()
    ensures r.stop.Suspended? ==> k.at < r.stop.at < |b| && b[r.stop.at].Await?
    ensures input.WithException? && k.catchSkip.None? ==> r == Run([], Threw(input.exc))
    ensures input.WithValue? ==> r.events != [] && r.events[0] == Received(input.value)
  {
    match input
    case WithValue(v) =>
      var s := Segment(b, k.at + 1);
      Run([Received(v)] + s.events, s.stop)
    case WithException(e) =>
      match k.catchSkip
      case None => Run([], Threw(e))
      case Some(n) =>
        var s := Segment(b, k.at + 1 + n);
        Run([Caught(e)] + s.events, s.stop)
  }

  /**
   * Nothing after the await where a run suspends takes part in that run: two
   * bodies that agree up to that step run identically.
   */
  lemma {:induction false} SegmentIgnoresLaterSteps(b: Body, other: Body, pc: nat, n: nat)
    requires n <= |b| && n <= |other| && b[..n] == other[..n]
    requires Segment(b, pc).stop.Suspended? && Segment(b, pc).stop.at < n
    ensures Segment(other, pc) == Segment(b, pc)
    decreases |b| - pc
  {
    assert pc < n;
    assert b[pc] == b[..n][pc] == other[..n][pc] == other[pc];
    match b[pc]
    case Say(_) => SegmentIgnoresLaterSteps(b, other, pc + 1, n);
    case Skip(m) => SegmentIgnoresLaterSteps(b, other, pc + 1 + m, n);
    case Throw(_) =>
    case Await(_, _, _) =>
  }
}
