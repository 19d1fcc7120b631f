/**
 * Async.kt: the controller, its cancelable tasks, the per-owner executors and registry,
 * with threads replaced by explicit queues. The main looper is one FIFO queue of posted
 * closures (`uiQueue`); each owner's single-thread executor is a FIFO queue of tasks with
 * at most one task inside `run()`. The scheduler interleaves "worker step" and "handle the
 * next UI message" freely, and UI-thread calls (`cancelAll`, `onError`, ...) in between.
 */
module AsyncAwait {
  import opened Optional
  import opened StackTrace
  import opened Script
  import opened Owners
  import opened AsyncRules

  /** A closure posted to the main looper by one controller's `runOnUi`. */
  datatype UiMessage =
      // the success closure of `CancelableTask.run`; it reads `task.continuation` when it runs
    | ResumeMessage(controller: AsyncController, task: CancelableTask, value: Value)
      // the closure of `handleException`; the continuation was captured when it was posted
    | ExceptionMessage(controller: AsyncController, continuation: Continuation, exc: Exc)
      // a published progress value, with the progress handler captured when it was posted
    | ProgressMessage(controller: AsyncController, onProgress: HandlerId, report: Report)

  /** `AwaitTask` (plain work) and `AwaitWithProgressTask` (work that publishes progress). */
  class CancelableTask {
    const work: Work
    var isCancelled: bool
    var asyncController: AsyncController?
    var continuation: Option<Continuation>
    var onProgress: Option<HandlerId>

    constructor (work: Work, controller: AsyncController, continuation: Continuation)
      ensures this.work == work && !isCancelled
      ensures asyncController == controller && this.continuation == Some(continuation)
      ensures onProgress == if work.WithProgress? then Some(work.onProgress) else None
    {
      this.work := work;
      isCancelled := false;
      asyncController := controller;
      this.continuation := Some(continuation);
      onProgress := if work.WithProgress? then Some(work.onProgress) else None;
    }

    /** Every reference that could carry a result to the UI thread is gone. */
    predicate Cancelled()
      reads this
    {
      isCancelled && asyncController == null && continuation.None? && onProgress.None?
    }

    /**
     * `cancel()` (with `AwaitWithProgressTask`'s override): set the flag, release the
     * controller, the continuation and the progress handler. The final state does not
     * depend on the old one, so a second call changes nothing.
     */
    method Cancel()
      modifies this
      ensures Cancelled()
    {
      isCancelled := true;
      asyncController := null;
      continuation := None;
      onProgress := None;
    }
  }

  class AsyncController {
    const target: Target
    const body: Body
    var errorHandler: Option<HandlerId>
    var finallyHandler: Option<HandlerId>
    var currentTask: CancelableTask?
    var uiThreadStackTrace: seq<Frame>

    constructor (target: Target, body: Body)
      ensures this.target == target && this.body == body
      ensures errorHandler.None? && finallyHandler.None? && currentTask == null && uiThreadStackTrace == []
    {
      this.target := target;
      this.body := body;
      errorHandler, finallyHandler := None, None;
      currentTask := null;
      uiThreadStackTrace := [];
    }

    /** `isAlive()`, evaluated against the owner's state when a message is handled. */
    function IsAlive(): bool
      reads target.Objects()
    {
      AliveByKind(target.View())
    }

    /** The handlers a delivery closure consults: this controller's two and the given global hooks. */
    function HooksWith(onRunning: Option<HandlerId>, onIdle: Option<HandlerId>): Hooks
      reads this`errorHandler, this`finallyHandler
    {
      Hooks(errorHandler, finallyHandler, onRunning, onIdle)
    }

    /** `onError`: the last registered handler wins; returns the controller for chaining. */
    method OnError(handler: HandlerId) returns (self: AsyncController)
      modifies this`errorHandler
      ensures self == this && errorHandler == Some(handler)
    {
      errorHandler := Some(handler);
      self := this;
    }

    /** `finally`: the last registered handler wins. */
    method Finally(handler: HandlerId)
      modifies this`finallyHandler
      ensures finallyHandler == Some(handler)
    {
      finallyHandler := Some(handler);
    }

    /** `cancel()`: cancels the task in flight, if any; `currentTask` itself is kept. */
    method Cancel()
      modifies currentTask
      ensures currentTask != null ==> currentTask.Cancelled()
    {
      if currentTask != null {
        currentTask.Cancel();
      }
    }
  }

  /** Decimal digits of a thread counter, as Kotlin's string template prints an `Int`. */
  function NatToString(n: nat): (s: string)
    ensures s != [] && forall i :: 0 <= i < |s| ==> '0' <= s[i] <= '9'
    ensures n >= 10 <==> |s| > 1
    ensures DecimalValue(s) == n
  {
    if n < 10 then [Digit(n)]
    else
      var init := NatToString(n / 10);
      var s := init + [Digit(n % 10)];
      assert s[..|s| - 1] == init;
      s
  }

  function Digit(d: nat): (c: char)
    requires d < 10
    ensures '0' <= c <= '9' && c as int - '0' as int == d
  {
    ('0' as int + d) as char
  }

  /** The number a string of decimal digits denotes, most significant digit first. */
  function DecimalValue(s: string): nat {
    if s == [] then 0
    else
      var d := s[|s| - 1] as int - '0' as int;
      DecimalValue(s[..|s| - 1]) * 10 + (if 0 <= d < 10 then d else 0)
  }

  /** `AsyncThreadFactory`: its name and how many threads it has created. */
  datatype ThreadFactory = ThreadFactory(name: string, counter: nat)
  {
    /** `newThread`: bump the counter, then name the thread after it. */
    function NewThread(): (ThreadFactory, string) {
      (ThreadFactory(name, counter + 1), name + "-" + NatToString(counter + 1))
    }
  }

  /** The worker inside `run()`: the task and how many of its reports it has published. */
  datatype Running = Running(task: CancelableTask, published: nat)

  /**
   * `Executors.newSingleThreadExecutor(AsyncThreadFactory(name))`: a FIFO queue of tasks and
   * one thread, created by the factory on the first submission. `run()` catches every
   * `Exception` of the work function, and work functions here throw nothing else, so that
   * thread never dies and is never replaced.
   */
  datatype Executor = Executor(factory: ThreadFactory, worker: Option<string>, queue: seq<CancelableTask>, running: Option<Running>)
  {
    /** The factory has made a thread exactly when the executor has one, and only its first. */
    predicate Valid() {
      && (worker.None? <==> factory.counter == 0)
      && (worker.Some? ==> factory.counter == 1 && worker.value == factory.name + "-1")
      && (queue != [] || running.Some? ==> worker.Some?)
    }

    /** `submit`: queue the task; the first submission starts the only thread. */
    function Submit(task: CancelableTask): (r: Executor)
      requires Valid()
      ensures r.Valid() && r.worker.Some? && r.factory.name == factory.name
      ensures r.queue == queue + [task] && r.running == running
      ensures worker.Some? ==> r.worker == worker && r.factory == factory
    {
      if worker.Some? then this.(queue := queue + [task])
      else
        var (f, w) := factory.NewThread();
        Executor(f, Some(w), queue + [task], running)
    }
  }

  function NewExecutor(name: string): (e: Executor)
    ensures e.Valid() && e.factory.name == name && e.worker.None? && e.queue == [] && e.running.None?
  {
    Executor(ThreadFactory(name, 0), None, [], None)
  }

  /** The name `getExecutorService` gives an owner's thread factory. */
  function ThreadNameOf(t: Target): string {
    "AsyncAwait-" + t.SimpleName()
  }

  /**
   * The await at step `at` of the controller's body has been issued: the controller keeps
   * that await's caller stack, and `task` is the task it created, as it is before anything
   * touches it.
   */
  predicate Issued(controller: AsyncController, task: CancelableTask, at: nat)
    reads controller`uiThreadStackTrace, task
  {
    && at < |controller.body| && controller.body[at].Await?
    && controller.uiThreadStackTrace == controller.body[at].callerStack
    && task.work == controller.body[at].work && !task.isCancelled
    && task.asyncController == controller
    && task.continuation == Some(ContinuationAt(controller.body, at))
    && task.onProgress == (if task.work.WithProgress? then Some(task.work.onProgress) else None)
  }

  /** One progress post: nothing once the task has released its handler or its controller. */
  function ProgressPost(onProgress: Option<HandlerId>, controller: AsyncController?, report: Report): seq<UiMessage> {
    if onProgress.Some? && controller != null then [ProgressMessage(controller, onProgress.value, report)] else []
  }

  /** The posts of a run of progress reports, one after the other. */
  function ProgressPosts(onProgress: Option<HandlerId>, controller: AsyncController?, reports: seq<Report>): (posts: seq<UiMessage>)
    ensures |posts| == if onProgress.Some? && controller != null then |reports| else 0
  {
    if reports == [] then []
    else ProgressPosts(onProgress, controller, reports[..|reports| - 1]) + ProgressPost(onProgress, controller, reports[|reports| - 1])
  }

  /** Each report becomes its own message, in publication order, to the handler captured with it. */
  lemma {:induction false} ProgressPostsInOrder(onProgress: Option<HandlerId>, controller: AsyncController?, reports: seq<Report>)
    ensures onProgress.None? || controller == null ==> ProgressPosts(onProgress, controller, reports) == []
    ensures onProgress.Some? && controller != null ==>
              forall i :: 0 <= i < |reports| ==>
                ProgressPosts(onProgress, controller, reports)[i] == ProgressMessage(controller, onProgress.value, reports[i])
    decreases |reports|
  {
    if reports != [] {
      var init := reports[..|reports| - 1];
      ProgressPostsInOrder(onProgress, controller, init);
      if onProgress.Some? && controller != null {
        forall i | 0 <= i < |reports|
          ensures ProgressPosts(onProgress, controller, reports)[i] == ProgressMessage(controller, onProgress.value, reports[i])
        {
          if i < |init| {
            assert reports[i] == init[i];
          }
        }
      }
    }
  }

  /** What `run()` posts once the work function has returned or thrown. */
  function CompletionPost(task: CancelableTask): seq<UiMessage>
    reads task
  {
    if task.isCancelled then []
    else match task.work.outcome
      case Ok(v) =>
        if task.asyncController != null then [ResumeMessage(task.asyncController, task, v)] else []
      case Err(e) =>
        if task.continuation.Some? && task.asyncController != null
        then [ExceptionMessage(task.asyncController, task.continuation.value, e)] else []
  }

  /** `e` is a single-thread executor whose factory is named after the owner `t`. */
  predicate Fits(t: Target, e: Executor) {
    e.Valid() && e.factory.name == ThreadNameOf(t)
  }

  /** Everything a task posts when its `run()` goes from start to end with nothing interleaved. */
  function TaskPosts(task: CancelableTask): (posts: seq<UiMessage>)
    reads task
    ensures task.isCancelled ==> posts == []
    ensures !task.isCancelled && task.asyncController != null && task.work.outcome.Ok? ==>
              posts != [] && posts[|posts| - 1] == ResumeMessage(task.asyncController, task, task.work.outcome.value)
  {
    if task.isCancelled then []
    else ProgressPosts(task.onProgress, task.asyncController, task.work.Reports()) + CompletionPost(task)
  }

  /**
   * The process-wide state of Async.kt: the main looper's queue, the executor and the
   * controller registry of each owner, the two global hooks, and what has been observed.
   */
  class AsyncRuntime {
    var uiQueue: seq<UiMessage>
    var executors: map<Target, Executor>
    var coroutines: map<Target, seq<AsyncController>>
    var onRunningCoroutine: Option<HandlerId>
    var onIdleCoroutines: Option<HandlerId>
    var log: seq<Event>

    /** Every owner's executor is a single-thread executor whose factory is named after the owner. */
    predicate Valid()
      reads this`executors
    {
      forall t :: t in executors ==> Fits(t, executors[t])
    }

    /** The owner's executor, or the one `getExecutorService` would create for it. */
    function ExecutorOf(t: Target): (e: Executor)
      requires Valid()
      reads this`executors
      ensures e.Valid() && e.factory.name == ThreadNameOf(t)
      ensures t !in executors ==> e.worker.None? && e.queue == [] && e.running.None?
    {
      if t in executors then executors[t] else NewExecutor(ThreadNameOf(t))
    }

    function ControllersOf(t: Target): seq<AsyncController>
      reads this`coroutines
    {
      if t in coroutines then coroutines[t] else []
    }

    /** `allCoroutines.isNotEmpty()`: some owner's list holds a controller. */
    predicate HasCoroutines()
      reads this`coroutines
    {
      exists t :: t in coroutines && coroutines[t] != []
    }

    ghost function TasksOf(t: Target): set<CancelableTask>
      reads this`coroutines, set c | c in ControllersOf(t)
    {
      set c | c in ControllersOf(t) && c.currentTask != null :: c.currentTask
    }

    constructor ()
      ensures Valid()
      ensures uiQueue == [] && executors == map[] && coroutines == map[] && log == []
      ensures onRunningCoroutine.None? && onIdleCoroutines.None?
    {
      uiQueue, executors, coroutines, log := [], map[], map[], [];
      onRunningCoroutine, onIdleCoroutines := None, None;
    }

    /** The setter of `onRunningCoroutine`: the new hook fires at once when some coroutine is registered. */
    method SetOnRunningCoroutine(hook: Option<HandlerId>)
      modifies this`onRunningCoroutine, this`log
      ensures onRunningCoroutine == hook
      ensures log == old(log) + if HasCoroutines() && hook.Some? then [RunningHook(hook.value)] else []
    {
      if HasCoroutines() && hook.Some? {
        log := log + [RunningHook(hook.value)];
      }
      onRunningCoroutine := hook;
    }

    /** The setter of `onIdleCoroutines`: the new hook fires at once when no coroutine is registered. */
    method SetOnIdleCoroutines(hook: Option<HandlerId>)
      modifies this`onIdleCoroutines, this`log
      ensures onIdleCoroutines == hook
      ensures log == old(log) + if !HasCoroutines() && hook.Some? then [IdleHook(hook.value)] else []
    {
      if !HasCoroutines() && hook.Some? {
        log := log + [IdleHook(hook.value)];
      }
      onIdleCoroutines := hook;
    }

    /** `keepCoroutineForCancelPurpose`: get or create the owner's list and append the controller. */
    method KeepCoroutineForCancelPurpose(controller: AsyncController)
      modifies this`coroutines
      ensures coroutines == old(coroutines)[controller.target := old(ControllersOf(controller.target)) + [controller]]
      ensures HasCoroutines()
    {
      var t := controller.target;
      var list := if t in coroutines then coroutines[t] else [];
      coroutines := coroutines[t := list + [controller]];
      assert coroutines[t] != [];
    }

    /** `getExecutorService`: one executor per owner, created on first use and reused after. */
    method GetExecutorService(t: Target) returns (e: Executor)
      requires Valid()
      modifies this`executors
      ensures Valid()
      ensures e == old(ExecutorOf(t)) && executors == old(executors)[t := e]
      ensures t in old(executors) ==> executors == old(executors)
    {
      if t in executors {
        e := executors[t];
      } else {
        e := NewExecutor(ThreadNameOf(t));
        executors := executors[t := e];
      }
    }

    /**
     * `await`/`awaitWithProgress` at step `at` of the controller's body: fire the running
     * hook, keep the caller's stack, store a new task in `currentTask` and submit it to the
     * owner's executor.
     */
    method AwaitAt(controller: AsyncController, at: nat)
      requires Valid() && at < |controller.body| && controller.body[at].Await?
      modifies this`executors, this`log, controller`currentTask, controller`uiThreadStackTrace
      ensures Valid()
      ensures log == old(log) + RunningEvents(onRunningCoroutine)
      ensures controller.currentTask != null && fresh(controller.currentTask) && Issued(controller, controller.currentTask, at)
      ensures executors == old(executors)[controller.target := old(ExecutorOf(controller.target)).Submit(controller.currentTask)]
    {
      if onRunningCoroutine.Some? {
        log := log + [RunningHook(onRunningCoroutine.value)];
      }
      controller.uiThreadStackTrace := controller.body[at].callerStack;
      var task := new CancelableTask(controller.body[at].work, controller, ContinuationAt(controller.body, at));
      controller.currentTask := task;
      SubmitTo(controller.target, task);
    }

    /** `target.getExecutorService().submit(task)`. */
    method SubmitTo(t: Target, task: CancelableTask)
      requires Valid()
      modifies this`executors
      ensures Valid()
      ensures executors == old(executors)[t := old(ExecutorOf(t)).Submit(task)]
    {
      var e := GetExecutorService(t);
      executors := executors[t := e.Submit(task)];
    }

    /**
     * `async` on an owner: register a new controller and run its body synchronously up to
     * its first await. An exception thrown before that await leaves `async` (`rethrown`).
     */
    method Async(target: Target, body: Body) returns (controller: AsyncController, rethrown: Option<Exc>)
      requires Valid()
      modifies this`coroutines, this`executors, this`log
      ensures Valid()
      ensures fresh(controller) && controller.target == target && controller.body == body
      ensures controller.errorHandler.None? && controller.finallyHandler.None?
      ensures coroutines == old(coroutines)[target := old(ControllersOf(target)) + [controller]]
      ensures var r := Segment(body, 0);
              && log == old(log) + r.events + (if r.stop.Suspended? then RunningEvents(onRunningCoroutine) else [])
              && rethrown == (if r.stop.Threw? then Some(r.stop.exc) else None)
              && (r.stop.Suspended? ==>
                    controller.currentTask != null && fresh(controller.currentTask)
                    && Issued(controller, controller.currentTask, r.stop.at)
                    && executors == old(executors)[target := old(ExecutorOf(target)).Submit(controller.currentTask)])
              && (!r.stop.Suspended? ==> controller.currentTask == null && controller.uiThreadStackTrace == []
                                         && executors == old(executors))
    {
      controller := new AsyncController(target, body);
      KeepCoroutineForCancelPurpose(controller);
      var r := Segment(body, 0);
      log := log + r.events;
      rethrown := None;
      match r.stop
      case Suspended(at) => AwaitAt(controller, at);
      case Completed =>
      case Threw(e) => rethrown := Some(e);
    }

    /** `Async.cancelAll`: cancel the task in flight of every controller registered for the owner. */
    method CancelAll(t: Target)
      modifies TasksOf(t)
      ensures forall c :: c in ControllersOf(t) && c.currentTask != null ==> c.currentTask.Cancelled()
    {
      var list := ControllersOf(t);
      var i := 0;
      while i < |list|
        invariant 0 <= i <= |list|
        invariant forall j :: 0 <= j < i && list[j].currentTask != null ==> list[j].currentTask.Cancelled()
      {
        list[i].Cancel();
        i := i + 1;
      }
    }

    /** The owner's worker takes its next task into `run()`; a task cancelled while queued ends at once. */
    method WorkerTake(t: Target)
      requires Valid() && t in executors && executors[t].running.None? && executors[t].queue != []
      modifies this`executors
      ensures Valid()
      ensures var e := old(executors[t]); var task := e.queue[0];
              executors == old(executors)[t := e.(queue := e.queue[1..],
                                                  running := if task.isCancelled then None else Some(Running(task, 0)))]
    {
      var e := executors[t];
      var task := e.queue[0];
      executors := executors[t := e.(queue := e.queue[1..], running := if task.isCancelled then None else Some(Running(task, 0)))];
    }

    /**
     * The running work function publishes its next progress report: posted only while the
     * task still holds its progress handler and its controller, both of which `cancel()` releases.
     */
    method WorkerPublish(t: Target)
      requires Valid() && t in executors && executors[t].running.Some?
      requires executors[t].running.value.published < |executors[t].running.value.task.work.Reports()|
      modifies this`uiQueue, this`executors
      ensures Valid()
      ensures var e := old(executors[t]); var r := e.running.value;
              && executors == old(executors)[t := e.(running := Some(Running(r.task, r.published + 1)))]
              && uiQueue == old(uiQueue) + ProgressPost(r.task.onProgress, r.task.asyncController, r.task.work.Reports()[r.published])
      ensures old(executors[t].running.value.task.onProgress).None? ==> uiQueue == old(uiQueue)
    {
      var e := executors[t];
      var r := e.running.value;
      var task := r.task;
      var report := task.work.Reports()[r.published];
      if task.onProgress.Some? && task.asyncController != null {
        uiQueue := uiQueue + [ProgressMessage(task.asyncController, task.onProgress.value, report)];
      }
      executors := executors[t := e.(running := Some(Running(task, r.published + 1)))];
    }

    /**
     * The work function has returned or thrown: `run()` checks the flag again and posts the
     * result, or hands the exception to `handleException`, unless the task was cancelled.
     */
    method WorkerFinish(t: Target)
      requires Valid() && t in executors && executors[t].running.Some?
      requires executors[t].running.value.published == |executors[t].running.value.task.work.Reports()|
      modifies this`uiQueue, this`executors
      ensures Valid()
      ensures executors == old(executors)[t := old(executors[t]).(running := None)]
      ensures uiQueue == old(uiQueue) + CompletionPost(old(executors[t].running.value.task))
      ensures old(executors[t].running.value.task.isCancelled) ==> uiQueue == old(uiQueue)
    {
      var e := executors[t];
      var task := e.running.value.task;
      executors := executors[t := e.(running := None)];
      if task.isCancelled {
        return;
      }
      match task.work.outcome
      case Ok(v) =>
        if task.asyncController != null {
          uiQueue := uiQueue + [ResumeMessage(task.asyncController, task, v)];
        }
      case Err(exc) =>
        if task.continuation.Some? && task.asyncController != null {
          uiQueue := uiQueue + [ExceptionMessage(task.asyncController, task.continuation.value, exc)];
        }
    }

    /** The owner's worker runs its next task from start to end with nothing interleaved. */
    method RunNextTask(t: Target)
      requires Valid() && t in executors && executors[t].running.None? && executors[t].queue != []
      modifies this`uiQueue, this`executors
      ensures Valid()
      ensures executors == old(executors)[t := old(executors[t]).(queue := old(executors[t].queue[1..]))]
      ensures uiQueue == old(uiQueue) + TaskPosts(old(executors[t].queue[0]))
    {
      var task := executors[t].queue[0];
      WorkerTake(t);
      if !task.isCancelled {
        RunTakenTask(t, task);
      }
    }

    /** The worker runs the task it has just taken: all of its progress reports, then its completion. */
    method RunTakenTask(t: Target, task: CancelableTask)
      requires Valid() && t in executors && executors[t].running == Some(Running(task, 0))
      modifies this`uiQueue, this`executors
      ensures Valid()
      ensures executors == old(executors)[t := old(executors[t]).(running := None)]
      ensures uiQueue == old(uiQueue) + ProgressPosts(task.onProgress, task.asyncController, task.work.Reports()) + CompletionPost(task)
    {
      PublishAll(t, task);
      WorkerFinish(t);
    }

    /** The running work function publishes all of its progress reports, in order. */
    method PublishAll(t: Target, task: CancelableTask)
      requires Valid() && t in executors && executors[t].running == Some(Running(task, 0))
      modifies this`uiQueue, this`executors
      ensures Valid()
      ensures executors == old(executors)[t := old(executors[t]).(running := Some(Running(task, |task.work.Reports()|)))]
      ensures uiQueue == old(uiQueue) + ProgressPosts(task.onProgress, task.asyncController, task.work.Reports())
    {
      var reports := task.work.Reports();
      var n := 0;
      while n < |reports|
        invariant 0 <= n <= |reports|
        invariant Valid()
        invariant executors == old(executors)[t := old(executors[t]).(running := Some(Running(task, n)))]
        invariant uiQueue == old(uiQueue) + ProgressPosts(task.onProgress, task.asyncController, reports[..n])
      {
        WorkerPublish(t);
        assert reports[..n + 1][..n] == reports[..n];
        n := n + 1;
      }
      assert reports[..n] == reports;
    }

    /** The run of the body that handling the message resumes, if it resumes one. */
    ghost function ResumedRun(m: UiMessage): Option<Run>
      reads m.controller.target.Objects(), if m.ResumeMessage? then {m.task} else {}
    {
      if !m.controller.IsAlive() then None
      else match m
        case ProgressMessage(_, _, _) => None
        case ResumeMessage(c, task, v) =>
          if task.continuation.None? then None else Some(Resume(c.body, task.continuation.value, WithValue(v)))
        case ExceptionMessage(c, k, e) => Some(Resume(c.body, k, WithException(e)))
    }

    /** What handling the message adds to the log, by the rules of `AsyncRules`. */
    ghost function Reaction(m: UiMessage): seq<Event>
      reads this`onRunningCoroutine, this`onIdleCoroutines, m.controller`errorHandler, m.controller`finallyHandler
      reads m.controller`uiThreadStackTrace, m.controller.target.Objects()
      reads if m.ResumeMessage? then {m.task} else {}
    {
      if !m.controller.IsAlive() then []
      else
        var hooks := m.controller.HooksWith(onRunningCoroutine, onIdleCoroutines);
        match m
        case ProgressMessage(_, handler, report) => [ProgressShown(handler, report)]
        case ResumeMessage(c, task, v) => ValueDelivery(c.body, task.continuation, v, hooks)
        case ExceptionMessage(c, k, e) => ExceptionDelivery(c.body, k, e, c.uiThreadStackTrace, hooks)
    }

    /** `applyFinallyBlock`: the finally handler, then the idle hook, only with no task in flight. */
    method ApplyFinallyBlock(controller: AsyncController)
      modifies this`log
      ensures controller.currentTask == null ==>
                log == old(log) + FinallyEvents(controller.HooksWith(onRunningCoroutine, onIdleCoroutines))
      ensures controller.currentTask != null ==> log == old(log)
    {
      if controller.currentTask == null {
        if controller.finallyHandler.Some? {
          log := log + [FinallyRan(controller.finallyHandler.value)];
        }
        if onIdleCoroutines.Some? {
          log := log + [IdleHook(onIdleCoroutines.value)];
        }
      }
    }

    /** Resume the body and, if it suspends again, issue the await it suspended at. */
    method ResumeBody(controller: AsyncController, k: Continuation, input: Input) returns (r: Run)
      requires Valid()
      modifies this`executors, this`log, controller`currentTask, controller`uiThreadStackTrace
      ensures Valid()
      ensures r == Resume(controller.body, k, input)
      ensures log == old(log) + r.events + (if r.stop.Suspended? then RunningEvents(onRunningCoroutine) else [])
      ensures r.stop.Suspended? ==>
                controller.currentTask != null && fresh(controller.currentTask)
                && Issued(controller, controller.currentTask, r.stop.at)
                && executors == old(executors)[controller.target := old(ExecutorOf(controller.target)).Submit(controller.currentTask)]
      ensures !r.stop.Suspended? ==> controller.currentTask == old(controller.currentTask)
                                     && controller.uiThreadStackTrace == old(controller.uiThreadStackTrace)
                                     && executors == old(executors)
    {
      r := Resume(controller.body, k, input);
      log := log + r.events;
      if r.stop.Suspended? {
        AwaitAt(controller, r.stop.at);
      }
    }

    /**
     * The success closure of `run()`: clear `currentTask`, resume with the continuation the
     * task holds now (none once it is cancelled), then `applyFinallyBlock`. An exception
     * escaping the body leaves the closure uncaught, and the finally block is skipped.
     */
    method DeliverValue(c: AsyncController, task: CancelableTask, v: Value)
      requires Valid()
      modifies this`executors, this`log, c`currentTask, c`uiThreadStackTrace
      ensures Valid()
      ensures log == old(log) + old(ValueDelivery(c.body, task.continuation, v, c.HooksWith(onRunningCoroutine, onIdleCoroutines)))
      ensures var k := old(task.continuation);
              && (k.Some? && Resume(c.body, k.value, WithValue(v)).stop.Suspended? ==>
                    c.currentTask != null && fresh(c.currentTask)
                    && Issued(c, c.currentTask, Resume(c.body, k.value, WithValue(v)).stop.at)
                    && executors == old(executors)[c.target := old(ExecutorOf(c.target)).Submit(c.currentTask)])
              && (k.None? || !Resume(c.body, k.value, WithValue(v)).stop.Suspended? ==>
                    c.currentTask == null && c.uiThreadStackTrace == old(c.uiThreadStackTrace)
                    && executors == old(executors))
    {
      c.currentTask := null;
      if task.continuation.Some? {
        var r := ResumeBody(c, task.continuation.value, WithValue(v));
        if r.stop.Threw? {
          log := log + [Crashed(Raw(r.stop.exc))];
          return;
        }
      }
      ApplyFinallyBlock(c);
    }

    /**
     * `handleException`'s closure: clear `currentTask` and raise the exception in the body;
     * what escapes is wrapped with the refined trace of the last await and goes to the error
     * handler (then `applyFinallyBlock`), or is rethrown when there is none.
     */
    method DeliverException(c: AsyncController, k: Continuation, e: Exc)
      requires Valid()
      modifies this`executors, this`log, c`currentTask, c`uiThreadStackTrace
      ensures Valid()
      ensures log == old(log) + old(ExceptionDelivery(c.body, k, e, c.uiThreadStackTrace, c.HooksWith(onRunningCoroutine, onIdleCoroutines)))
      ensures Resume(c.body, k, WithException(e)).stop.Suspended? ==>
                c.currentTask != null && fresh(c.currentTask)
                && Issued(c, c.currentTask, Resume(c.body, k, WithException(e)).stop.at)
                && executors == old(executors)[c.target := old(ExecutorOf(c.target)).Submit(c.currentTask)]
      ensures !Resume(c.body, k, WithException(e)).stop.Suspended? ==>
                c.currentTask == null && c.uiThreadStackTrace == old(c.uiThreadStackTrace)
                && executors == old(executors)
    {
      ghost var hooks := c.HooksWith(onRunningCoroutine, onIdleCoroutines);
      c.currentTask := null;
      var trace := c.uiThreadStackTrace;
      var r := ResumeBody(c, k, WithException(e));
      assert c.HooksWith(onRunningCoroutine, onIdleCoroutines) == hooks;
      if r.stop.Threw? {
        HandleEscaped(c, Wrapped(r.stop.exc, Refine(trace)));
      } else {
        ApplyFinallyBlock(c);
      }
    }

    /** An exception that escaped the body: the error handler then `applyFinallyBlock`, or uncaught. */
    method HandleEscaped(c: AsyncController, wrapped: Failure)
      modifies this`log
      ensures c.errorHandler.None? ==> log == old(log) + [Crashed(wrapped)]
      ensures c.errorHandler.Some? && c.currentTask == null ==>
                log == old(log) + [ErrorHandled(c.errorHandler.value, wrapped)]
                       + FinallyEvents(c.HooksWith(onRunningCoroutine, onIdleCoroutines))
      ensures c.errorHandler.Some? && c.currentTask != null ==>
                log == old(log) + [ErrorHandled(c.errorHandler.value, wrapped)]
    {
      if c.errorHandler.Some? {
        log := log + [ErrorHandled(c.errorHandler.value, wrapped)];
        ApplyFinallyBlock(c);
      } else {
        log := log + [Crashed(wrapped)];
      }
    }

    /**
     * The main looper hands the oldest message to its controller's `uiHandler`, which runs
     * the closure only if the owner is alive now; a dead owner's message is dropped whole.
     */
    method HandleNextMessage()
      requires Valid() && uiQueue != []
      modifies this`uiQueue, this`executors, this`log
      modifies uiQueue[0].controller`currentTask, uiQueue[0].controller`uiThreadStackTrace
      ensures Valid()
      ensures uiQueue == old(uiQueue[1..])
      ensures log == old(log) + old(Reaction(uiQueue[0]))
      ensures var c := old(uiQueue[0]).controller; var run := old(ResumedRun(uiQueue[0]));
              && (!old(c.IsAlive()) || old(uiQueue[0]).ProgressMessage? ==>
                    c.currentTask == old(c.currentTask) && c.uiThreadStackTrace == old(c.uiThreadStackTrace)
                    && executors == old(executors))
              && (old(c.IsAlive()) && !old(uiQueue[0]).ProgressMessage? ==>
                    if run.Some? && run.value.stop.Suspended?
                    then c.currentTask != null && fresh(c.currentTask) && Issued(c, c.currentTask, run.value.stop.at)
                         && executors == old(executors)[c.target := old(ExecutorOf(c.target)).Submit(c.currentTask)]
                    else c.currentTask == null && c.uiThreadStackTrace == old(c.uiThreadStackTrace)
                         && executors == old(executors))
    {
      var m := uiQueue[0];
      uiQueue := uiQueue[1..];
      var c := m.controller;
      if !c.IsAlive() {
        return;
      }
      match m
      case ProgressMessage(_, handler, report) =>
        log := log + [ProgressShown(handler, report)];
      case ResumeMessage(_, task, v) =>
        DeliverValue(c, task, v);
      case ExceptionMessage(_, k, e) =>
        DeliverException(c, k, e);
    }
  }
}
