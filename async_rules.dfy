/**
 * The delivery rules of Async.kt as pure functions: what the UI thread does when one of a
 * controller's posted closures runs, given the state it reads at that moment.
 */
module AsyncRules {
  import opened Optional
  import opened StackTrace
  import opened Script

  /** The handlers a delivery closure consults: the controller's two and the two global hooks. */
  datatype Hooks = Hooks(
    errorHandler: Option<HandlerId>,
    finallyHandler: Option<HandlerId>,
    onRunning: Option<HandlerId>,
    onIdle: Option<HandlerId>)

  /** `onRunningCoroutine?.invoke()` at the start of `await`/`awaitWithProgress`. */
  function RunningEvents(onRunning: Option<HandlerId>): seq<Event> {
    if onRunning.Some? then [RunningHook(onRunning.value)] else []
  }

  /** `finallyHandler?.invoke()` then `onIdleCoroutines?.invoke()`. */
  function FinallyEvents(h: Hooks): seq<Event> {
    (if h.finallyHandler.Some? then [FinallyRan(h.finallyHandler.value)] else [])
    + (if h.onIdle.Some? then [IdleHook(h.onIdle.value)] else [])
  }

  /**
   * What follows a resumption that did not escape with an exception: suspending again
   * issues a new await (and so leaves a task in flight); completing leaves none, so
   * `applyFinallyBlock` fires the finally handler and the idle hook.
   */
  function Settle(stop: Stop, h: Hooks): seq<Event>
    requires !stop.Threw?
  {
    if stop.Suspended? then RunningEvents(h.onRunning) else FinallyEvents(h)
  }

  /**
   * The success closure: clear `currentTask`, resume the continuation read from the task
   * at this moment (absent once the task is cancelled), then `applyFinallyBlock`. An
   * exception escaping the body leaves the closure uncaught.
   */
  function ValueDelivery(b: Body, k: Option<Continuation>, v: Value, h: Hooks): seq<Event> {
    if k.None? then FinallyEvents(h)
    else
      var r := Resume(b, k.value, WithValue(v));
      if r.stop.Threw? then r.events + [Crashed(Raw(r.stop.exc))]
      else r.events + Settle(r.stop, h)
  }

  /**
   * `handleException`'s closure: clear `currentTask` and raise the exception inside the
   * body. Whatever escapes the body is wrapped in an `AsyncException` carrying the refined
   * trace of the last await, handed to the error handler (then `applyFinallyBlock`), or
   * rethrown uncaught when there is none.
   */
  function ExceptionDelivery(b: Body, k: Continuation, e: Exc, trace: seq<Frame>, h: Hooks): seq<Event> {
    var r := Resume(b, k, WithException(e));
    if r.stop.Threw? then
      var wrapped := Wrapped(r.stop.exc, Refine(trace));
      if h.errorHandler.Some? then r.events + [ErrorHandled(h.errorHandler.value, wrapped)] + FinallyEvents(h)
      else r.events + [Crashed(wrapped)]
    else r.events + Settle(r.stop, h)
  }

  /**
   * After a value is delivered, the finally handler runs exactly when the resumed body
   * runs to its end: a body that awaits again defers it, one that throws skips it.
   */
  lemma FinallyFiresOnlyWhenDrained(b: Body, k: Continuation, v: Value, h: Hooks, f: HandlerId)
    ensures FinallyRan(f) in ValueDelivery(b, Some(k), v, h)
            <==> h.finallyHandler == Some(f) && Resume(b, k, WithValue(v)).stop.Completed?
  {
    var r := Resume(b, k, WithValue(v));
    assert FinallyRan(f) !in r.events;
    if r.stop.Completed? && h.finallyHandler == Some(f) {
      assert ValueDelivery(b, Some(k), v, h) == r.events + FinallyEvents(h);
      assert FinallyEvents(h)[0] == FinallyRan(f);
    }
  }

  /**
   * An exception the body does not catch reaches the error handler wrapped, with the
   * original exception as its cause, and the finally handler follows; with no error
   * handler the wrapper is rethrown and the finally handler does not run.
   */
  lemma UncaughtExceptionIsWrapped(b: Body, k: Continuation, e: Exc, trace: seq<Frame>, h: Hooks)
    requires k.catchSkip.None?
    ensures var wrapped := Wrapped(e, Refine(trace));
            ExceptionDelivery(b, k, e, trace, h)
            == if h.errorHandler.Some? then [ErrorHandled(h.errorHandler.value, wrapped)] + FinallyEvents(h)
               else [Crashed(wrapped)]
  {
  }

  /**
   * An exception raised inside a try/catch is caught by the body first, and the error
   * handler never sees it; the finally handler follows when the handler code runs to
   * the end of the body.
   */
  lemma CaughtExceptionBypassesErrorHandler(b: Body, k: Continuation, e: Exc, trace: seq<Frame>, h: Hooks)
    requires k.catchSkip.Some?
    ensures var events := ExceptionDelivery(b, k, e, trace, h);
            events != [] && events[0] == Caught(e)
    ensures var r := Resume(b, k, WithException(e));
            r.stop.Completed? ==> ExceptionDelivery(b, k, e, trace, h) == r.events + FinallyEvents(h)
  {
  }

  /**
   * As written, a success closure whose task was cancelled after it was posted still
   * clears `currentTask` and runs `applyFinallyBlock`: the body is not resumed, but the
   * finally handler and the idle hook fire.
   */
  lemma CancelledDeliveryStillRunsFinally(b: Body, v: Value, h: Hooks)
    ensures ValueDelivery(b, None, v, h) == FinallyEvents(h)
    ensures forall e <- ValueDelivery(b, None, v, h) :: !e.IsBodyEvent()
  {
  }
}
