/**
 * Runs of the AsyncUi.kt versions, driven step by step through their runtimes.
 */
module LegacyScenarios {
  import opened Optional
  import opened Script
  import opened Owners
  import opened LegacyRules
  import AsyncUi
  import AsyncAwaitUi

  /**
   * The receiver-less `asyncUI { say "O"; say await { "K" } }`: coroutineandroid and
   * metaroutine drop the result, so only tube's body gets past the await.
   */
  method OwnerlessAsyncUI(version: AsyncUi.Version) returns (log: seq<Event>)
    ensures log == if version.Tube? then [Note("O"), Received("K")] else [Note("O")]
  {
    var rt := new AsyncUi.AsyncUiRuntime();
    var body := [Say("O"), Await(Plain(Ok("K")), None, [])];
    assert Segment(body, 0) == Run([Note("O")], Suspended(1));
    var c, rethrown := rt.AsyncUI(version, null, null, body);
    rt.RunNextJob(version);
    assert rt.uiQueue == [ValueMessage(c, ContinuationAt(body, 1), "K")];
    assert Resume(body, ContinuationAt(body, 1), WithValue("K")) == Run([Received("K")], Completed);
    rt.HandleNextMessage();
    log := rt.log;
  }

  /**
   * coroutineandroid's `awaitWithProgress` on a live Activity, up to the moment its worker
   * has run the closure: two progress posts, then the result.
   */
  method PostPairProgress() returns (rt: AsyncUi.AsyncUiRuntime, c: AsyncUi.AsyncController, k: Continuation)
    ensures fresh(rt) && fresh(c) && c.IsAlive() && c.errorHandler.None?
    ensures c.body == [Await(WithProgress([Pair("1", "2"), Pair("2", "2")], 5, Ok("done")), None, [])]
    ensures k == ContinuationAt(c.body, 0) && rt.log == []
    ensures rt.uiQueue == [ProgressMessage(c, 5, Pair("1", "2")), ProgressMessage(c, 5, Pair("2", "2")), ValueMessage(c, k, "done")]
  {
    rt := new AsyncUi.AsyncUiRuntime();
    var activity := new Activity("MainActivity");
    var work := WithProgress([Pair("1", "2"), Pair("2", "2")], 5, Ok("done"));
    var body := [Await(work, None, [])];
    var rethrown;
    c, rethrown := rt.AsyncUI(AsyncUi.CoroutineAndroid, activity, null, body);
    rt.RunNextJob(AsyncUi.CoroutineAndroid);
    k := ContinuationAt(body, 0);
  }

  /**
   * coroutineandroid's `awaitWithProgress` on a live Activity: each `(curr, max)` report is
   * shown in order, and then the body receives the result.
   */
  method PairProgressThenResult() returns (log: seq<Event>)
    ensures log == [ProgressShown(5, Pair("1", "2")), ProgressShown(5, Pair("2", "2")), Received("done")]
  {
    var rt, c, k := PostPairProgress();
    rt.HandleNextMessage();
    rt.HandleNextMessage();
    assert rt.log == [ProgressShown(5, Pair("1", "2")), ProgressShown(5, Pair("2", "2"))];
    assert rt.uiQueue == [ValueMessage(c, k, "done")];
    assert Resume(c.body, k, WithValue("done")) == Run([Received("done")], Completed);
    rt.HandleNextMessage();
    log := rt.log;
  }

  /**
   * Each package's `asyncUI` queues on its own executor: tube's worker can post its result
   * while coroutineandroid's closure, submitted earlier, is still waiting in its own queue.
   */
  method PackagesHaveTheirOwnExecutors() returns (rt: AsyncUi.AsyncUiRuntime, first: AsyncUi.AsyncController, second: AsyncUi.AsyncController)
    ensures first.body == [Await(Plain(Ok("A")), None, [])] && second.body == [Await(Plain(Ok("T")), None, [])]
    ensures rt.QueueOf(AsyncUi.CoroutineAndroid) == [AsyncUi.JobAt(first, 0)] && rt.QueueOf(AsyncUi.Tube) == []
    ensures rt.uiQueue == [ValueMessage(second, ContinuationAt(second.body, 0), "T")]
  {
    rt := new AsyncUi.AsyncUiRuntime();
    var rethrown;
    first, rethrown := rt.AsyncUI(AsyncUi.CoroutineAndroid, null, null, [Await(Plain(Ok("A")), None, [])]);
    second, rethrown := rt.AsyncUI(AsyncUi.Tube, null, null, [Await(Plain(Ok("T")), None, [])]);
    rt.RunNextJob(AsyncUi.Tube);
  }

  const ProgressWork := WithProgress([Single("1")], 7, Ok("OK"))

  /**
   * The earlier asyncawait: two controllers of one owner, the first in a plain `await`,
   * the second in an `awaitWithProgress`, both queued on the owner's executor.
   */
  method SubmitPlainAndProgress(owner: Target)
    returns (rt: AsyncAwaitUi.AsyncRuntime, plain: AsyncAwaitUi.AsyncController, progress: AsyncAwaitUi.AsyncController)
    ensures fresh(rt) && rt.uiQueue == [] && rt.ControllersOf(owner) == [plain, progress]
    ensures fresh(plain) && fresh(progress) && plain.currentTask != null && fresh(plain.currentTask) && progress.currentTask == null
    ensures owner in rt.executors
    ensures rt.executors[owner] == AsyncAwaitUi.Executor([AsyncAwaitUi.TaskJob(plain.currentTask),
                                                          AsyncAwaitUi.ProgressJob(progress, ProgressWork, Continuation(0, None))], None)
  {
    rt := new AsyncAwaitUi.AsyncRuntime();
    plain := new AsyncAwaitUi.AsyncController(owner, [Await(Plain(Ok("K")), None, [])]);
    progress := new AsyncAwaitUi.AsyncController(owner, [Await(ProgressWork, None, [])]);
    rt.KeepCoroutineForCancelPurpose(plain);
    rt.KeepCoroutineForCancelPurpose(progress);
    var first := rt.AwaitAt(plain, 0);
    var second := rt.AwaitAt(progress, 0);
  }

  /**
   * `cancelAll` on that owner, then its worker runs both jobs: the cancelled task posts
   * nothing, while the progress closure, which no controller holds, still posts its
   * report and its result.
   */
  method CancelAllSparesProgressWork()
    returns (progress: AsyncAwaitUi.AsyncController, posts: seq<Message<AsyncAwaitUi.AsyncController>>)
    ensures posts == [ProgressMessage(progress, 7, Single("1")), ValueMessage(progress, Continuation(0, None), "OK")]
  {
    var owner := OtherTarget(0, "Screen");
    var rt, plain;
    rt, plain, progress := SubmitPlainAndProgress(owner);
    rt.CancelAll(owner);
    rt.WorkerTake(owner);
    rt.WorkerTake(owner);
    rt.WorkerPublish(owner);
    rt.WorkerFinish(owner);
    posts := rt.uiQueue;
  }
}
