/**
 * The delivery rules shared by the four AsyncUi.kt versions, as pure functions. Unlike
 * Async.kt they have no finally handler, no hooks and no exception wrapper, and the
 * error handler, when one is registered, takes a failure before the body can see it.
 */
module LegacyRules {
  import opened Optional
  import opened StackTrace
  import opened Script
  import AsyncRules

  /**
   * A closure posted to the main looper on behalf of a controller of type `C`; the
   * continuation (`machine`) and the progress handler are captured when it is posted.
   */
  datatype Message<C> =
    | ValueMessage(controller: C, machine: Continuation, value: Value)
    | ExceptionMessage(controller: C, machine: Continuation, exc: Exc)
    | ProgressMessage(controller: C, onProgress: HandlerId, report: Report)

  /** The message that carries the work's result or failure back to its controller. */
  function OutcomeMessage<C>(controller: C, machine: Continuation, outcome: Outcome): Message<C> {
    match outcome
    case Ok(v) => ValueMessage(controller, machine, v)
    case Err(e) => ExceptionMessage(controller, machine, e)
  }

  /**
   * Everything a submitted closure posts when nothing cancels it: each progress report,
   * in the order the work function publishes them, then the result or the failure.
   */
  function JobPosts<C>(controller: C, work: Work, machine: Continuation): (posts: seq<Message<C>>)
    ensures |posts| == |work.Reports()| + 1
  {
    var reports := work.Reports();
    seq(|reports|, i requires 0 <= i < |reports| => ProgressMessage(controller, work.onProgress, reports[i]))
    + [OutcomeMessage(controller, machine, work.outcome)]
  }

  /**
   * Each `await`/`awaitWithProgress` posts exactly one result-or-failure message, after
   * all of its progress reports, and every report keeps its place in publication order.
   */
  lemma JobPostsOneOutcomeLast<C>(controller: C, work: Work, machine: Continuation)
    ensures var posts := JobPosts(controller, work, machine);
            && (forall i :: 0 <= i < |posts| ==> (posts[i].ProgressMessage? <==> i < |posts| - 1))
            && (forall i :: 0 <= i < |work.Reports()| ==> posts[i].report == work.Reports()[i])
            && posts[|posts| - 1].machine == machine
            && (work.outcome.Ok? <==> posts[|posts| - 1].ValueMessage?)
  {
  }

  /** `machine.resume(value)`: the body continues; an exception escaping it is uncaught on the UI thread. */
  function ValueDelivery(b: Body, k: Continuation, v: Value): seq<Event> {
    var r := Resume(b, k, WithValue(v));
    r.events + if r.stop.Threw? then [Crashed(Raw(r.stop.exc))] else []
  }

  /** `errorHandler?.invoke(e) ?: machine.resumeWithException(e)`. */
  function ExceptionDelivery(b: Body, k: Continuation, e: Exc, errorHandler: Option<HandlerId>): seq<Event> {
    if errorHandler.Some? then [ErrorHandled(errorHandler.value, Raw(e))]
    else
      var r := Resume(b, k, WithException(e));
      r.events + if r.stop.Threw? then [Crashed(Raw(r.stop.exc))] else []
  }

  /**
   * With an error handler registered, it receives the raw exception and the body is never
   * resumed: a try/catch around the await is bypassed and the body stays suspended.
   * Without one, the exception is raised at the await: caught there by a surrounding
   * try/catch, otherwise uncaught on the UI thread.
   */
  lemma ErrorHandlerTakesPriority(b: Body, k: Continuation, e: Exc, errorHandler: Option<HandlerId>)
    ensures errorHandler.Some? ==>
              ExceptionDelivery(b, k, e, errorHandler) == [ErrorHandled(errorHandler.value, Raw(e))]
    ensures errorHandler.None? && k.catchSkip.Some? ==>
              var events := ExceptionDelivery(b, k, e, errorHandler); events != [] && events[0] == Caught(e)
    ensures errorHandler.None? && k.catchSkip.None? ==>
              ExceptionDelivery(b, k, e, errorHandler) == [Crashed(Raw(e))]
  {
  }

  /**
   * The versions disagree on a failure raised inside a try/catch when an error handler is
   * registered: Async.kt lets the body catch it, the AsyncUi.kt versions give it to the
   * handler and leave the body suspended.
   */
  lemma VersionsDisagreeOnCaughtFailure(b: Body, k: Continuation, e: Exc, trace: seq<Frame>, h: AsyncRules.Hooks)
    requires k.catchSkip.Some? && h.errorHandler.Some?
    ensures AsyncRules.ExceptionDelivery(b, k, e, trace, h)[0] == Caught(e)
    ensures ExceptionDelivery(b, k, e, h.errorHandler)[0] == ErrorHandled(h.errorHandler.value, Raw(e))
    ensures forall ev <- ExceptionDelivery(b, k, e, h.errorHandler) :: !ev.IsBodyEvent()
  {
    AsyncRules.CaughtExceptionBypassesErrorHandler(b, k, e, trace, h);
  }
}
