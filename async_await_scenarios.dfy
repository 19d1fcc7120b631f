/**
 * Runs of Async.kt from its test suite. The traces compose the synchronous start of the
 * body with the deliveries the main looper makes, by the rules `HandleNextMessage`
 * follows; the finishing-Activity run is driven through the runtime itself.
 */
module AsyncAwaitScenarios {
  import opened Optional
  import opened Script
  import opened Owners
  import opened AsyncRules
  import opened AsyncAwait

  const FinallyHandler: HandlerId := 1
  const ErrorHandler: HandlerId := 2
  const CatchMe := Exc("Catch me!")

  /** A controller with only a finally handler, and no global hooks. */
  const FinallyOnly := Hooks(None, Some(FinallyHandler), None, None)

  /** FinallyTest, "Run finally block": "start+OK+continue+finally". */
  lemma RunFinallyBlock()
    ensures var body := [Say("start"), Await(Plain(Ok("+O")), None, []), Await(Plain(Ok("K")), None, []), Say("+continue")];
            && Segment(body, 0) == Run([Note("start")], Suspended(1))
            && ValueDelivery(body, Some(ContinuationAt(body, 1)), "+O", FinallyOnly) == [Received("+O")]
            && ValueDelivery(body, Some(ContinuationAt(body, 2)), "K", FinallyOnly)
               == [Received("K"), Note("+continue"), FinallyRan(FinallyHandler)]
  {
    var body := [Say("start"), Await(Plain(Ok("+O")), None, []), Await(Plain(Ok("K")), None, []), Say("+continue")];
    assert Resume(body, ContinuationAt(body, 1), WithValue("+O")) == Run([Received("+O")], Suspended(2));
    assert Resume(body, ContinuationAt(body, 2), WithValue("K")) == Run([Received("K"), Note("+continue")], Completed);
  }

  /** FinallyTest, "Run finally block after catching exception": "start+try+catch+continue+finally". */
  lemma RunFinallyBlockAfterCatching(trace: seq<StackTrace.Frame>)
    ensures var body := [Say("start"), Say("+try"), Await(Plain(Err(CatchMe)), Some(1), trace),
                         Say("unreachable_code"), Say("+catch"), Say("+continue")];
            && Segment(body, 0) == Run([Note("start"), Note("+try")], Suspended(2))
            && ExceptionDelivery(body, ContinuationAt(body, 2), CatchMe, trace, FinallyOnly)
               == [Caught(CatchMe), Note("+catch"), Note("+continue"), FinallyRan(FinallyHandler)]
  {
    var body := [Say("start"), Say("+try"), Await(Plain(Err(CatchMe)), Some(1), trace),
                 Say("unreachable_code"), Say("+catch"), Say("+continue")];
    assert Segment(body, 1) == Run([Note("+try")], Suspended(2));
    assert Segment(body, 5) == Run([Note("+continue")], Completed);
    assert Segment(body, 4) == Run([Note("+catch"), Note("+continue")], Completed);
    assert Resume(body, ContinuationAt(body, 2), WithException(CatchMe))
        == Run([Caught(CatchMe), Note("+catch"), Note("+continue")], Completed);
  }

  /** FinallyTest, "Run finally block after handling exception in onError": "start+onError+finally". */
  lemma RunFinallyBlockAfterOnError(trace: seq<StackTrace.Frame>)
    ensures var body := [Say("start"), Await(Plain(Err(CatchMe)), None, trace), Say("unreachable_code")];
            var hooks := Hooks(Some(ErrorHandler), Some(FinallyHandler), None, None);
            && Segment(body, 0) == Run([Note("start")], Suspended(1))
            && ExceptionDelivery(body, ContinuationAt(body, 1), CatchMe, trace, hooks)
               == [ErrorHandled(ErrorHandler, Wrapped(CatchMe, StackTrace.Refine(trace))), FinallyRan(FinallyHandler)]
  {
  }

  /**
   * The first half of the onError run driven through the runtime: the body says "start" and
   * awaits a work function that throws, with the caller's stack `trace`; the controller
   * registers an error handler and a finally handler; the worker posts the exception.
   */
  method StartFailingAwait(trace: seq<StackTrace.Frame>) returns (rt: AsyncRuntime, c: AsyncController)
    ensures fresh(rt) && rt.Valid() && fresh(c) && c.IsAlive()
    ensures c.body == [Say("start"), Await(Plain(Err(CatchMe)), None, trace), Say("unreachable_code")]
    ensures c.errorHandler == Some(ErrorHandler) && c.finallyHandler == Some(FinallyHandler)
    ensures c.uiThreadStackTrace == trace
    ensures rt.onRunningCoroutine.None? && rt.onIdleCoroutines.None?
    ensures rt.log == [Note("start")] && rt.uiQueue == [ExceptionMessage(c, ContinuationAt(c.body, 1), CatchMe)]
  {
    rt := new AsyncRuntime();
    var activity := new Activity("MainActivity");
    var owner := ActivityTarget(activity);
    var body := [Say("start"), Await(Plain(Err(CatchMe)), None, trace), Say("unreachable_code")];
    assert Segment(body, 0) == Run([Note("start")], Suspended(1));
    var rethrown;
    c, rethrown := rt.Async(owner, body);
    var self := c.OnError(ErrorHandler);
    c.Finally(FinallyHandler);
    rt.RunNextTask(owner);
  }

  /**
   * FinallyTest, "Run finally block after handling exception in onError", through the
   * runtime: the exception reaches the error handler wrapped with the refined stack of the
   * await that the body was suspended at, and the finally handler runs after it.
   */
  method OnErrorGetsTheAwaitTrace(trace: seq<StackTrace.Frame>) returns (log: seq<Event>)
    ensures log == [Note("start"), ErrorHandled(ErrorHandler, Wrapped(CatchMe, StackTrace.Refine(trace))),
                    FinallyRan(FinallyHandler)]
  {
    var rt, c := StartFailingAwait(trace);
    rt.HandleNextMessage();
    log := rt.log;
  }

  /**
   * The first half of AsyncTest, "Do not deliver result when Activity is finishing": the
   * body says "O" and awaits "K"; the Activity starts finishing; the worker posts the result.
   */
  method StartThenFinishActivity() returns (rt: AsyncRuntime, c: AsyncController)
    ensures fresh(rt) && rt.Valid() && fresh(c) && c.currentTask != null
    ensures rt.log == [Note("O")] && rt.uiQueue == [ResumeMessage(c, c.currentTask, "K")]
    ensures !c.IsAlive()
  {
    rt := new AsyncRuntime();
    var activity := new Activity("MainActivity");
    var owner := ActivityTarget(activity);
    var body := [Say("O"), Await(Plain(Ok("K")), None, [])];
    assert Segment(body, 0) == Run([Note("O")], Suspended(1));
    var rethrown;
    c, rethrown := rt.Async(owner, body);
    assert rt.log == [Note("O")] && rt.uiQueue == [] && Issued(c, c.currentTask, 1);
    activity.Finish();
    rt.RunNextTask(owner);
  }

  /**
   * AsyncTest, "Do not deliver result when Activity is finishing": the result reaches a
   * finishing Activity and is dropped, so the body never runs past its await.
   */
  method DoNotDeliverWhenActivityFinishing() returns (log: seq<Event>, pending: bool)
    ensures log == [Note("O")] && !pending
  {
    var rt, c := StartThenFinishActivity();
    rt.HandleNextMessage();
    log, pending := rt.log, rt.uiQueue != [];
  }
}
